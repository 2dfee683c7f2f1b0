/**
  The error values the metadata service returns, and the `Result` type every
  fallible operation of the model produces.

  Two "not found" values are kept apart on purpose: `StoreNotFound` is the
  sentinel the backing store returns when nothing matches (and which filter
  expansion reuses), while `NotFound` is the status the service hands to its
  callers. The service code compares against the former and answers with the
  latter.
 */
module Errors {

  datatype Error =
    // sentinel of the backing store: nothing matched
    | StoreNotFound
    // any other failure inside the backing store, with its text
    | StoreFailure(msg: string)
    // the request payload could not be decoded into an object document
    | PayloadDecode(msg: string)
    // statuses the service returns
    | Unknown
    | NotFound
    | SessionUserRequired
    | SessionPartitionRequired
    | SessionProjectRequired
    | FailedExpandObjectFilters
    | ObjectFilterRequired
    | FailedExpandPropertySchemaFilters
    | MultipleRecordsFound
    | PartitionUnknown
    | PartitionRequired
    | ObjectTypeRequired
    | PropertyKeyRequired
    | SchemaRequired
    | PropertySchemaFilterRequired
    | PropertySchemaObjectRequired
    | SearchRequired
    | CodeRequired
    | BootstrapTokenRequired
    | PartitionNameRequired
    | AtLeastOneObjectFilterRequired
    | ObjectDeleteFailed
    | PartitionNotFound(partition: string)
    | ObjectTypeNotFound(objectType: string)
    | ProviderTypeNotFound(providerType: string)
    | FailedPropertyDefinitionValidation(key: string)

  /** A value or the error that prevented computing it. */
  datatype Result<+T> = Ok(value: T) | Err(error: Error) {

    predicate IsFailure() {
      Err?
    }

    function PropagateFailure<U>(): Result<U>
      requires Err?
    {
      Err(error)
    }

    function Extract(): T
      requires Ok?
    {
      value
    }
  }
}
