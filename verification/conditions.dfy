/**
  The condition algebra: a condition binds one attribute of an entity to an
  operator and a comparison value. A missing condition, or one whose
  comparison value is missing, is a wildcard.
 */
module Conditions {
  import opened Wrappers
  import opened Proto

  /** The comparison operator. `OtherOp` stands for any other value of Go's integer `Op` type. */
  datatype Op = OpEqual | OpNotEqual | OtherOp(code: int)

  datatype PartitionCondition = PartitionCondition(op: Op, partition: Option<Partition>)

  datatype ObjectTypeCondition = ObjectTypeCondition(op: Op, objectType: Option<ObjectType>)

  /** `PartitionCondition.Matches` on an entity whose partition UUID is `objPartition`. */
  function PartitionMatches(c: Option<PartitionCondition>, objPartition: string): (r: bool)
    ensures c.None? || c.value.partition.None? ==> r
    ensures c.Some? && c.value.partition.Some? && c.value.op == OpEqual ==>
              (r <==> c.value.partition.value.uuid == objPartition)
    ensures c.Some? && c.value.partition.Some? && c.value.op == OpNotEqual ==>
              (r <==> c.value.partition.value.uuid != objPartition)
    ensures c.Some? && c.value.op.OtherOp? ==> (r <==> c.value.partition.None?)
  {
    if c.None? || c.value.partition.None? then true
    else
      var cmp := objPartition;
      match c.value.op
      case OpEqual => c.value.partition.value.uuid == cmp
      case OpNotEqual => c.value.partition.value.uuid != cmp
      case OtherOp(_) => false
  }

  /** `ObjectTypeCondition.Matches` on an entity whose object type code is `objType`. */
  function ObjectTypeMatches(c: Option<ObjectTypeCondition>, objType: string): (r: bool)
    ensures c.None? || c.value.objectType.None? ==> r
    ensures c.Some? && c.value.objectType.Some? && c.value.op == OpEqual ==>
              (r <==> c.value.objectType.value.code == objType)
    ensures c.Some? && c.value.objectType.Some? && c.value.op == OpNotEqual ==>
              (r <==> c.value.objectType.value.code != objType)
    ensures c.Some? && c.value.op.OtherOp? ==> (r <==> c.value.objectType.None?)
  {
    if c.None? || c.value.objectType.None? then true
    else
      var cmp := objType;
      match c.value.op
      case OpEqual => c.value.objectType.value.code == cmp
      case OpNotEqual => c.value.objectType.value.code != cmp
      case OtherOp(_) => false
  }

  /** For a condition that names a partition, EQUAL and NOT_EQUAL split every entity between them. */
  lemma PartitionEqualNotEqualComplement(p: Partition, objPartition: string)
    ensures PartitionMatches(Some(PartitionCondition(OpEqual, Some(p))), objPartition)
        != PartitionMatches(Some(PartitionCondition(OpNotEqual, Some(p))), objPartition)
  {
  }

  /** For a condition that names an object type, EQUAL and NOT_EQUAL split every entity between them. */
  lemma ObjectTypeEqualNotEqualComplement(t: ObjectType, objType: string)
    ensures ObjectTypeMatches(Some(ObjectTypeCondition(OpEqual, Some(t))), objType)
        != ObjectTypeMatches(Some(ObjectTypeCondition(OpNotEqual, Some(t))), objType)
  {
  }

  /** The condition that selects entities in partition `p`. */
  function PartitionEqual(p: Partition): PartitionCondition {
    PartitionCondition(OpEqual, Some(p))
  }

  /** The condition that selects entities of object type `t`. */
  function ObjectTypeEqual(t: ObjectType): ObjectTypeCondition {
    ObjectTypeCondition(OpEqual, Some(t))
  }

  /**
    The composite condition used to find an existing object: each present
    component must hold. `project` is compared for equality when present.
   */
  datatype ObjectCondition = ObjectCondition(
    uuid: Option<string>,
    objectType: Option<ObjectTypeCondition>,
    name: Option<string>,
    project: Option<string>
  )

  /** The composite condition used to find the property definition bound to one key. */
  datatype PropertyDefinitionCondition = PropertyDefinitionCondition(
    partition: Option<PartitionCondition>,
    objectType: Option<ObjectTypeCondition>,
    propertyKey: string
  )
}
