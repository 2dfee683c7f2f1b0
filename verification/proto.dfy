/**
  The records the metadata service exchanges with its callers and its store:
  partitions, object types, sessions, objects and the filters that select them.
  Only the fields the core reads or writes are kept.
 */
module Proto {
  import opened Wrappers

  datatype Partition = Partition(uuid: string, name: string)

  /** The level at which an object's name is unique. */
  datatype ObjectTypeScope = PartitionScope | ProjectScope

  datatype ObjectType = ObjectType(code: string, scope: ObjectTypeScope)

  /** The caller's context, sent with every request. */
  datatype Session = Session(user: string, project: string, partition: string)

  datatype Property = Property(key: string, value: string)

  datatype Object = Object(
    partition: string,    // partition UUID
    objectType: string,   // object type code
    uuid: string,
    name: string,
    project: string,
    tags: seq<string>,
    properties: seq<Property>
  )

  /** An object together with the partition and object type records it refers to. */
  datatype ObjectWithReferences = ObjectWithReferences(
    partition: Partition,
    objectType: ObjectType,
    obj: Object
  )

  /** A search for partitions by UUID or name, exactly or by prefix. */
  datatype PartitionFilter = PartitionFilter(search: string, usePrefix: bool)

  /** A search for object types by code, exactly or by prefix. */
  datatype ObjectTypeFilter = ObjectTypeFilter(search: string, usePrefix: bool)

  /** A caller-supplied filter on objects; the nested filters may match many records. */
  datatype ObjectFilter = ObjectFilter(
    partition: Option<PartitionFilter>,
    objectType: Option<ObjectTypeFilter>,
    search: string,
    project: string,
    usePrefix: bool
  )

  /** A filter naming at most one concrete partition and at most one concrete object type. */
  datatype ObjectListFilter = ObjectListFilter(
    partition: Option<Partition>,
    objectType: Option<ObjectType>,
    project: string,
    search: string,
    usePrefix: bool
  )

  /** The body of an object definition; the service stores it without looking inside. */
  datatype ObjectDefinition = ObjectDefinition(document: string)
}
