/**
  The backing store, seen from the service. Every read and every object write
  is an oracle: a total function from its arguments to what the store answers,
  either a value or an error (`StoreNotFound` when nothing matches). Provider
  definitions are held in a map keyed by (partition, provider type), with
  optional faults standing for backend failures of the read and the write.

  Reads happen before any write of the same request, so they are stateless
  oracles. The delete loop is the exception: it issues one delete after
  another, and each reply may depend on the deletes already issued (the same
  object listed twice is gone at its second delete). `objectDelete` is
  therefore given those earlier deletes along with the object. The writes
  themselves are returned as a trace (`Write`).
 */
module Store {
  import opened Wrappers
  import opened Errors
  import opened Proto
  import opened Conditions
  import opened PropertyDefinitions

  datatype ProviderType = ProviderType(code: string)

  datatype DefinitionKey = DefinitionKey(partition: string, providerType: string)

  datatype Store = Store(
    partitionGet: string -> Result<Partition>,               // by UUID or name
    partitionGetByUuid: string -> Result<Partition>,
    partitionList: PartitionFilter -> Result<seq<Partition>>,
    objectTypeGet: string -> Result<ObjectType>,
    objectTypeList: ObjectTypeFilter -> Result<seq<ObjectType>>,
    providerTypeGet: string -> Result<ProviderType>,
    objectList: seq<ObjectListFilter> -> Result<seq<Object>>,
    objectsByFilters: seq<ObjectListFilter> -> Result<seq<ObjectWithReferences>>,
    objectsByCondition: ObjectCondition -> Result<seq<ObjectWithReferences>>,
    propertyDefinitionList: PropertyDefinitionCondition -> Result<seq<PropertyDefinition>>,
    objectCreate: ObjectWithReferences -> Result<ObjectWithReferences>,
    objectUpdate: ObjectWithReferences -> Result<ObjectWithReferences>,
    objectDelete: (seq<ObjectWithReferences>, ObjectWithReferences) -> Option<Error>,  // earlier deletes, object
    definitions: map<DefinitionKey, ObjectDefinition>,
    definitionReadFault: Option<Error>,
    definitionWriteFault: Option<Error>
  )

  /** A write the service issued to the store. */
  datatype Write =
    | Created(owr: ObjectWithReferences)
    | Updated(owr: ObjectWithReferences)
    | Deleted(owr: ObjectWithReferences)
    | DefinitionWritten(key: DefinitionKey, definition: ObjectDefinition)

  /** The store's `ProviderDefinitionGet`. */
  function DefinitionGet(st: Store, key: DefinitionKey): (r: Result<ObjectDefinition>)
    ensures st.definitionReadFault.Some? ==> r == Err(st.definitionReadFault.value)
    ensures st.definitionReadFault.None? && key in st.definitions ==> r == Ok(st.definitions[key])
    ensures st.definitionReadFault.None? && key !in st.definitions ==> r == Err(StoreNotFound)
  {
    if st.definitionReadFault.Some? then Err(st.definitionReadFault.value)
    else if key in st.definitions then Ok(st.definitions[key])
    else Err(StoreNotFound)
  }

  /** The store's `ProviderDefinitionSet`: on success the key maps to `def` and nothing else changes. */
  function DefinitionSet(st: Store, key: DefinitionKey, def: ObjectDefinition): (r: Result<Store>)
    ensures st.definitionWriteFault.Some? ==> r == Err(st.definitionWriteFault.value)
    ensures r.Ok? ==> r.value == st.(definitions := st.definitions[key := def])
    ensures st.definitionWriteFault.None? ==> r.Ok?
  {
    if st.definitionWriteFault.Some? then Err(st.definitionWriteFault.value)
    else Ok(st.(definitions := st.definitions[key := def]))
  }
}
