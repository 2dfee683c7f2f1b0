/**
  The object service of pkg/metadata/server/object.go: batch delete, single
  get, and the validate / resolve-identity / create-update-or-no-op upsert.
  Store reads are oracle calls; store writes are returned as a trace.
 */
module ObjectService {
  import opened Wrappers
  import opened Errors
  import opened Proto
  import opened Conditions
  import opened PropertyDefinitions
  import opened Store
  import opened ObjectFilters

  /**
    The session precondition every read and delete checks first: a user and a
    partition are required.
   */
  function CheckSession(session: Session): (r: Option<Error>)
    ensures r.None? <==> session.user != "" && session.partition != ""
    ensures session.user == "" ==> r == Some(SessionUserRequired)
    ensures session.user != "" && session.partition == "" ==> r == Some(SessionPartitionRequired)
  {
    if session.user == "" then Some(SessionUserRequired)
    else if session.partition == "" then Some(SessionPartitionRequired)
    else None
  }

  // ---------------------------------------------------------------------------
  // ObjectDelete

  datatype ObjectDeleteRequest = ObjectDeleteRequest(session: Session, any: seq<ObjectFilter>)

  datatype ObjectDeleteResponse = ObjectDeleteResponse(errors: seq<Error>, numDeleted: nat)

  /** The `uint64` counter of deleted objects wraps at 2^64. */
  const Uint64Modulus: nat := 0x1_0000_0000_0000_0000

  /** The store's reply to the delete of candidate `i`, after the deletes of the candidates before it. */
  function DeleteReply(st: Store, owrs: seq<ObjectWithReferences>, i: int): Option<Error>
    requires 0 <= i < |owrs|
  {
    st.objectDelete(owrs[..i], owrs[i])
  }

  /** The errors of the candidates whose delete failed, in candidate order. */
  function Failures(st: Store, owrs: seq<ObjectWithReferences>): (errs: seq<Error>)
    ensures |errs| <= |owrs|
    decreases |owrs|
  {
    if |owrs| == 0 then []
    else
      var init, last := owrs[..|owrs| - 1], owrs[|owrs| - 1];
      Failures(st, init)
        + (if st.objectDelete(init, last).Some? then [st.objectDelete(init, last).value] else [])
  }

  /** A reply within a prefix of the candidates is the reply within the whole batch. */
  lemma DeleteReplyPrefix(st: Store, owrs: seq<ObjectWithReferences>, n: int, i: int)
    requires 0 <= i < n <= |owrs|
    ensures DeleteReply(st, owrs[..n], i) == DeleteReply(st, owrs, i)
  {
    assert owrs[..n][..i] == owrs[..i];
  }

  /** No error is collected exactly when every delete succeeded. */
  lemma {:induction false} FailuresEmptyIff(st: Store, owrs: seq<ObjectWithReferences>)
    ensures Failures(st, owrs) == [] <==> forall i :: 0 <= i < |owrs| ==> DeleteReply(st, owrs, i).None?
    decreases |owrs|
  {
    if |owrs| > 0 {
      var init := owrs[..|owrs| - 1];
      FailuresEmptyIff(st, init);
      forall i | 0 <= i < |init| ensures DeleteReply(st, init, i) == DeleteReply(st, owrs, i) {
        DeleteReplyPrefix(st, owrs, |owrs| - 1, i);
      }
      assert DeleteReply(st, owrs, |owrs| - 1) == st.objectDelete(init, owrs[|owrs| - 1]);
    }
  }

  /** Every collected error is the error of some candidate's delete. */
  lemma {:induction false} FailuresComeFromDeletes(st: Store, owrs: seq<ObjectWithReferences>, k: int)
    requires 0 <= k < |Failures(st, owrs)|
    ensures exists i :: 0 <= i < |owrs| && DeleteReply(st, owrs, i) == Some(Failures(st, owrs)[k])
    decreases |owrs|
  {
    var init := owrs[..|owrs| - 1];
    if k < |Failures(st, init)| {
      FailuresComeFromDeletes(st, init, k);
      var i :| 0 <= i < |init| && DeleteReply(st, init, i) == Some(Failures(st, init)[k]);
      DeleteReplyPrefix(st, owrs, |owrs| - 1, i);
    } else {
      assert DeleteReply(st, owrs, |owrs| - 1) == Some(Failures(st, owrs)[k]);
    }
  }

  /** The positions of the candidates whose delete failed. */
  function FailedPositions(st: Store, owrs: seq<ObjectWithReferences>): set<int> {
    set i | 0 <= i < |owrs| && DeleteReply(st, owrs, i).Some?
  }

  /** One error is collected per failed delete. */
  lemma {:induction false} FailuresCount(st: Store, owrs: seq<ObjectWithReferences>)
    ensures |Failures(st, owrs)| == |FailedPositions(st, owrs)|
    decreases |owrs|
  {
    if |owrs| == 0 {
      assert FailedPositions(st, owrs) == {};
    } else {
      var n := |owrs| - 1;
      var init := owrs[..n];
      FailuresCount(st, init);
      forall i | 0 <= i < n ensures DeleteReply(st, init, i) == DeleteReply(st, owrs, i) {
        DeleteReplyPrefix(st, owrs, n, i);
      }
      var last := if DeleteReply(st, owrs, n).Some? then {n} else {};
      assert FailedPositions(st, owrs) == FailedPositions(st, init) + last;
      assert n !in FailedPositions(st, init);
    }
  }

  /**
    The objects `ObjectDelete` will try to delete, or the error that stops it
    before any store delete.
   */
  function DeleteCandidates(st: Store, req: ObjectDeleteRequest): (r: Result<seq<ObjectWithReferences>>)
    ensures CheckSession(req.session).Some? ==> r == Err(CheckSession(req.session).value)
    ensures CheckSession(req.session).None? && |req.any| == 0 ==> r == Err(AtLeastOneObjectFilterRequired)
    ensures CheckSession(req.session).None? && |req.any| > 0 ==>
              var filters := NormalizeObjectFilters(st, req.session, req.any);
              && (filters.Err? ==> r == Err(filters.error))
              && (filters == Ok([]) ==> r == Err(AtLeastOneObjectFilterRequired))
              && (filters.Ok? && |filters.value| > 0 ==> r == st.objectsByFilters(filters.value))
  {
    if CheckSession(req.session).Some? then Err(CheckSession(req.session).value)
    else if |req.any| == 0 then Err(AtLeastOneObjectFilterRequired)
    else
      var filters :- NormalizeObjectFilters(st, req.session, req.any);
      // an empty filter list would delete every object
      if |filters| == 0 then Err(AtLeastOneObjectFilterRequired)
      else st.objectsByFilters(filters)
  }

  /** The delete loop: every candidate is attempted, in order, and failures are collected. */
  method DeleteEach(st: Store, owrs: seq<ObjectWithReferences>)
    returns (errors: seq<Error>, numDeleted: nat, writes: seq<Write>)
    ensures writes == seq(|owrs|, k requires 0 <= k < |owrs| => Deleted(owrs[k]))
    ensures errors == Failures(st, owrs)
    ensures numDeleted == |owrs| % Uint64Modulus
  {
    errors, numDeleted, writes := [], 0, [];
    for i := 0 to |owrs|
      invariant errors == Failures(st, owrs[..i])
      invariant numDeleted == i % Uint64Modulus
      invariant writes == seq(i, k requires 0 <= k < i => Deleted(owrs[k]))
    {
      assert owrs[..i + 1][..i] == owrs[..i];
      var failure := st.objectDelete(owrs[..i], owrs[i]);
      writes := writes + [Deleted(owrs[i])];
      if failure.Some? {
        errors := errors + [failure.value];
      }
      // counted whether or not the delete failed
      numDeleted := (numDeleted + 1) % Uint64Modulus;
    }
    assert owrs[..|owrs|] == owrs;
  }

  /** `ObjectDelete`: the response (when one is sent), the error status, and the deletes issued. */
  method ObjectDelete(st: Store, req: ObjectDeleteRequest)
    returns (resp: Option<ObjectDeleteResponse>, err: Option<Error>, writes: seq<Write>)
    ensures DeleteCandidates(st, req).Err? ==>
              resp.None? && err == Some(DeleteCandidates(st, req).error) && writes == []
    ensures DeleteCandidates(st, req).Ok? ==>
              var owrs := DeleteCandidates(st, req).value;
              && writes == seq(|owrs|, k requires 0 <= k < |owrs| => Deleted(owrs[k]))
              && resp == Some(ObjectDeleteResponse(Failures(st, owrs), |owrs| % Uint64Modulus))
              && (err.Some? <==> |Failures(st, owrs)| > 0)
              && (err.Some? ==> err.value == ObjectDeleteFailed)
  {
    var candidates := DeleteCandidates(st, req);
    if candidates.Err? {
      return None, Some(candidates.error), [];
    }
    var errors, numDeleted;
    errors, numDeleted, writes := DeleteEach(st, candidates.value);
    resp := Some(ObjectDeleteResponse(errors, numDeleted));
    err := if |errors| > 0 then Some(ObjectDeleteFailed) else None;
  }

  // ---------------------------------------------------------------------------
  // ObjectGet

  datatype ObjectGetRequest = ObjectGetRequest(session: Session, filter: Option<ObjectFilter>)

  /** `ObjectGet`: the single object the filter selects. */
  function ObjectGet(st: Store, req: ObjectGetRequest): (r: Result<Object>)
    ensures CheckSession(req.session).Some? ==> r == Err(CheckSession(req.session).value)
    ensures CheckSession(req.session).None? && req.filter.None? ==> r == Err(ObjectFilterRequired)
    ensures CheckSession(req.session).None? && req.filter.Some? ==>
              var x := ExpandObjectFilter(st, req.session, req.filter.value);
              && (x == Err(StoreNotFound) ==> r == Err(NotFound))
              && (x.Err? && x.error != StoreNotFound ==> r == Err(Unknown))
              && (x.Ok? && |x.value.filters| == 0 ==> r == Err(FailedExpandObjectFilters))
              && (x.Ok? && |x.value.filters| > 0 ==>
                    var objs := st.objectList(x.value.filters);
                    && (objs.Err? ==> r == Err(objs.error))
                    && (objs.Ok? && |objs.value| > 1 ==> r == Err(MultipleRecordsFound))
                    && (objs.Ok? && |objs.value| == 0 ==> r == Err(NotFound))
                    && (objs.Ok? && |objs.value| == 1 ==> r == Ok(objs.value[0])))
    // success means the store listed exactly one object, and it is the answer
    ensures r.Ok? ==>
              && CheckSession(req.session).None? && req.filter.Some?
              && var x := ExpandObjectFilter(st, req.session, req.filter.value);
                 x.Ok? && |x.value.filters| > 0 && st.objectList(x.value.filters) == Ok([r.value])
  {
    if CheckSession(req.session).Some? then Err(CheckSession(req.session).value)
    else if req.filter.None? then Err(ObjectFilterRequired)
    else
      match ExpandObjectFilter(st, req.session, req.filter.value)
      case Err(e) => if e == StoreNotFound then Err(NotFound) else Err(Unknown)
      case Ok(x) =>
        if |x.filters| == 0 then Err(FailedExpandObjectFilters)
        else
          match st.objectList(x.filters)
          case Err(e) => Err(e)
          case Ok(objects) =>
            if |objects| > 1 then Err(MultipleRecordsFound)
            else if |objects| == 0 then Err(NotFound)
            else assert objects == [objects[0]]; Ok(objects[0])
  }

  /**
    The get succeeds with `o` exactly when the session is valid, a filter is
    given, it expands to at least one list filter, and the store lists `o` alone.
   */
  lemma ObjectGetOkIff(st: Store, req: ObjectGetRequest, o: Object)
    ensures ObjectGet(st, req) == Ok(o) <==>
              && CheckSession(req.session).None?
              && req.filter.Some?
              && var x := ExpandObjectFilter(st, req.session, req.filter.value);
                 && x.Ok? && |x.value.filters| > 0
                 && st.objectList(x.value.filters) == Ok([o])
  {
  }

  // ---------------------------------------------------------------------------
  // Validation of an object set request

  /** The object document a request carries, after decoding. */
  datatype ApiObject = ApiObject(
    partition: string,
    objectType: string,
    uuid: string,
    name: string,
    project: string,
    tags: seq<string>,
    properties: seq<(string, string)>   // key/value pairs in iteration order
  )

  /** The request payload: a decoded document, or the decoder's error text. */
  datatype Payload = Decoded(obj: ApiObject) | Undecodable(msg: string)

  datatype ObjectSetRequest = ObjectSetRequest(payload: Payload)

  /** `validateValueWithSchema`: accepts every value. */
  function ValidateValueWithSchema(value: string, schema: StoredSchema): (r: Option<Error>)
    ensures r.None?
  {
    None
  }

  /** The condition selecting the definition bound to exactly (partition, type, key). */
  function DefinitionConditionFor(part: Partition, objType: ObjectType, key: string)
    : PropertyDefinitionCondition
  {
    PropertyDefinitionCondition(Some(PartitionEqual(part)), Some(ObjectTypeEqual(objType)), key)
  }

  /** `validateObjectProperty`: the property, unchanged, unless its definition lookup fails. */
  function ValidateObjectProperty(st: Store, part: Partition, objType: ObjectType, key: string, value: string)
    : (r: Result<Property>)
    ensures r.Ok? <==> st.propertyDefinitionList(DefinitionConditionFor(part, objType, key)).Ok?
    ensures r.Ok? ==> r.value == Property(key, value)
    ensures r.Err? ==> r.error == st.propertyDefinitionList(DefinitionConditionFor(part, objType, key)).error
  {
    var pds :- st.propertyDefinitionList(DefinitionConditionFor(part, objType, key));
    if |pds| > 0 then
      match ValidateValueWithSchema(value, pds[0].schema)
      case Some(_) => Err(FailedPropertyDefinitionValidation(key))
      case None => Ok(Property(key, value))
    else Ok(Property(key, value))
  }

  /** The definition lookup for a property failed. */
  predicate PropertyLookupFails(st: Store, part: Partition, objType: ObjectType, kv: (string, string)) {
    st.propertyDefinitionList(DefinitionConditionFor(part, objType, kv.0)).Err?
  }

  /** The property loop of `validateObjectSetRequest`: stops at the first failure. */
  function ValidateProperties(st: Store, part: Partition, objType: ObjectType, props: seq<(string, string)>)
    : (r: Result<seq<Property>>)
    ensures r.Ok? <==> forall i :: 0 <= i < |props| ==> !PropertyLookupFails(st, part, objType, props[i])
    ensures r.Ok? ==> |r.value| == |props|
    ensures r.Ok? ==> forall i :: 0 <= i < |props| ==> r.value[i] == Property(props[i].0, props[i].1)
    ensures r.Err? ==> exists i :: 0 <= i < |props| && PropertyLookupFails(st, part, objType, props[i])
                         && r.error == st.propertyDefinitionList(DefinitionConditionFor(part, objType, props[i].0)).error
    decreases |props|
  {
    if |props| == 0 then Ok([])
    else
      var prop :- ValidateObjectProperty(st, part, objType, props[0].0, props[0].1);
      var rest :- ValidateProperties(st, part, objType, props[1..]);
      assert forall i :: 1 <= i < |props| ==> props[i] == props[1..][i - 1];
      Ok([prop] + rest)
  }

  /** `validateObjectSetRequest`: the object with its partition and type resolved, ready to store. */
  function ValidateObjectSetRequest(st: Store, req: ObjectSetRequest): (r: Result<ObjectWithReferences>)
    ensures req.payload.Undecodable? ==> r == Err(PayloadDecode(req.payload.msg))
    ensures req.payload.Decoded? ==>
              var o := req.payload.obj;
              && (o.objectType == "" ==> r == Err(ObjectTypeRequired))
              && (o.objectType != "" && o.partition == "" ==> r == Err(PartitionRequired))
              && (o.objectType != "" && o.partition != "" ==>
                    var part := st.partitionGet(o.partition);
                    var ot := st.objectTypeGet(o.objectType);
                    && (part == Err(StoreNotFound) ==> r == Err(PartitionNotFound(o.partition)))
                    && (part.Err? && part.error != StoreNotFound ==> r == Err(Unknown))
                    && (part.Ok? && ot == Err(StoreNotFound) ==> r == Err(ObjectTypeNotFound(o.objectType)))
                    && (part.Ok? && ot.Err? && ot.error != StoreNotFound ==> r == Err(Unknown))
                    && (part.Ok? && ot.Ok? ==>
                          var props := ValidateProperties(st, part.value, ot.value, o.properties);
                          && (r.Ok? <==> props.Ok?)
                          && (props.Err? ==> r == Err(props.error))))
    // success exactly when every lookup the validation makes succeeds
    ensures r.Ok? <==>
              && req.payload.Decoded?
              && var o := req.payload.obj;
                 && o.objectType != "" && o.partition != ""
                 && st.partitionGet(o.partition).Ok?
                 && st.objectTypeGet(o.objectType).Ok?
                 && forall i :: 0 <= i < |o.properties| ==>
                      !PropertyLookupFails(st, st.partitionGet(o.partition).value,
                                           st.objectTypeGet(o.objectType).value, o.properties[i])
    ensures r.Ok? ==>
              && req.payload.Decoded?
              && var o := req.payload.obj;
                 && o.objectType != "" && o.partition != ""
                 && st.partitionGet(o.partition) == Ok(r.value.partition)
                 && st.objectTypeGet(o.objectType) == Ok(r.value.objectType)
                 && r.value.obj.partition == r.value.partition.uuid
                 && r.value.obj.objectType == r.value.objectType.code
                 && r.value.obj.project == o.project
                 && r.value.obj.name == o.name
                 && r.value.obj.uuid == o.uuid
                 && r.value.obj.tags == o.tags
                 && |r.value.obj.properties| == |o.properties|
                 && forall i :: 0 <= i < |o.properties| ==>
                      r.value.obj.properties[i] == Property(o.properties[i].0, o.properties[i].1)
  {
    match req.payload
    case Undecodable(msg) => Err(PayloadDecode(msg))
    case Decoded(o) =>
      if o.objectType == "" then Err(ObjectTypeRequired)
      else if o.partition == "" then Err(PartitionRequired)
      else
        match st.partitionGet(o.partition)
        case Err(e) => if e == StoreNotFound then Err(PartitionNotFound(o.partition)) else Err(Unknown)
        case Ok(part) =>
          match st.objectTypeGet(o.objectType)
          case Err(e) => if e == StoreNotFound then Err(ObjectTypeNotFound(o.objectType)) else Err(Unknown)
          case Ok(objType) =>
            var props :- ValidateProperties(st, part, objType, o.properties);
            Ok(ObjectWithReferences(part, objType,
              Object(part.uuid, objType.code, o.uuid, o.name, o.project, o.tags, props)))
  }

  // ---------------------------------------------------------------------------
  // Change detection and identity

  /** The fields whose difference makes an update necessary. */
  function Fingerprint(a: ObjectWithReferences)
    : (string, string, string, string, string, seq<string>, seq<Property>)
  {
    (a.partition.uuid, a.objectType.code, a.obj.uuid, a.obj.name, a.obj.project, a.obj.tags, a.obj.properties)
  }

  /** `objectChanged`: tags and properties are compared as ordered sequences. */
  function ObjectChanged(a: ObjectWithReferences, b: ObjectWithReferences): (r: bool)
    ensures a == b ==> !r
  {
    if a.partition.uuid != b.partition.uuid then true
    else if a.objectType.code != b.objectType.code then true
    else if a.obj.uuid != b.obj.uuid then true
    else if a.obj.name != b.obj.name then true
    else if a.obj.project != b.obj.project then true
    else if a.obj.tags != b.obj.tags then true
    else if a.obj.properties != b.obj.properties then true
    else false
  }

  /** A change is reported exactly when some compared field differs; the test is symmetric. */
  lemma ObjectChangedIffFingerprintDiffers(a: ObjectWithReferences, b: ObjectWithReferences)
    ensures ObjectChanged(a, b) <==> Fingerprint(a) != Fingerprint(b)
    ensures ObjectChanged(a, b) == ObjectChanged(b, a)
  {
  }

  /** Fields outside the comparison (partition name, type scope) never make a change. */
  lemma ObjectChangedIgnoresNamesAndScope(a: ObjectWithReferences, name: string, scope: ObjectTypeScope)
    ensures !ObjectChanged(a, a.(partition := a.partition.(name := name),
                                 objectType := a.objectType.(scope := scope)))
  {
  }


  /** The key/value pairs of a property list, whatever their order. */
  function PropertySet(props: seq<Property>): (ps: set<Property>)
    ensures forall p :: p in ps <==> p in props
  {
    set p | p in props
  }

  /**
    `objectChanged` with the properties compared as the map they were built
    from: the same key/value pairs in any order are no change.
   */
  function ObjectChangedAsMap(a: ObjectWithReferences, b: ObjectWithReferences): (r: bool)
    ensures a == b ==> !r
  {
    || a.partition.uuid != b.partition.uuid
    || a.objectType.code != b.objectType.code
    || a.obj.uuid != b.obj.uuid
    || a.obj.name != b.obj.name
    || a.obj.project != b.obj.project
    || a.obj.tags != b.obj.tags
    || PropertySet(a.obj.properties) != PropertySet(b.obj.properties)
  }

  /** Reordering an object's properties is no change under the map comparison. */
  lemma AsMapIgnoresPropertyOrder(a: ObjectWithReferences, props: seq<Property>)
    requires multiset(props) == multiset(a.obj.properties)
    ensures !ObjectChangedAsMap(a, a.(obj := a.obj.(properties := props)))
  {
    forall p ensures p in props <==> p in a.obj.properties {
      assert p in props <==> p in multiset(props);
      assert p in a.obj.properties <==> p in multiset(a.obj.properties);
    }
    assert PropertySet(props) == PropertySet(a.obj.properties);
  }

  /** The ordered comparison reports every change the map comparison reports, and possibly more. */
  lemma AsMapChangeIsInOrderChange(a: ObjectWithReferences, b: ObjectWithReferences)
    ensures ObjectChangedAsMap(a, b) ==> ObjectChanged(a, b)
  {
  }

  /** Two properties listed in the two iteration orders a Go map may produce. */
  function TwoProperties(swapped: bool): seq<Property> {
    if swapped then [Property("b", "2"), Property("a", "1")] else [Property("a", "1"), Property("b", "2")]
  }

  /**
    As written, the same two properties listed in the other order count as a
    change, although as maps they are equal.
   */
  lemma ReorderedPropertiesCountAsChange(a: ObjectWithReferences)
    requires a.obj.properties == TwoProperties(false)
    ensures var b := a.(obj := a.obj.(properties := TwoProperties(true)));
            ObjectChanged(a, b) && !ObjectChangedAsMap(a, b)
  {
    var b := a.(obj := a.obj.(properties := TwoProperties(true)));
    assert a.obj.properties[0] != b.obj.properties[0];
    assert multiset(TwoProperties(true)) == multiset(TwoProperties(false));
    AsMapIgnoresPropertyOrder(a, TwoProperties(true));
  }

  /** How `ObjectSet` decides that a stored object needs an update. */
  datatype PropertyComparison =
    | InOrder   // `objectChanged` as written: element by element
    | AsMap     // the same key/value pairs in any order are equal

  function Changed(cmp: PropertyComparison, a: ObjectWithReferences, b: ObjectWithReferences): bool {
    match cmp
    case InOrder => ObjectChanged(a, b)
    case AsMap => ObjectChangedAsMap(a, b)
  }

  /** The condition that finds the stored object an incoming object denotes. */
  function IdentityCondition(input: ObjectWithReferences): (c: ObjectCondition)
    ensures input.obj.uuid != "" ==> c == ObjectCondition(Some(input.obj.uuid), None, None, None)
    ensures input.obj.uuid == "" ==>
              && c.uuid.None?
              && c.objectType == Some(ObjectTypeEqual(input.objectType))
              && c.name == Some(input.obj.name)
              && (c.project.Some? <==> input.objectType.scope == ProjectScope)
              && (c.project.Some? ==> c.project.value == input.obj.project)
  {
    if input.obj.uuid != "" then ObjectCondition(Some(input.obj.uuid), None, None, None)
    else
      var c := ObjectCondition(None, Some(ObjectTypeEqual(input.objectType)), Some(input.obj.name), None);
      if input.objectType.scope == ProjectScope then c.(project := Some(input.obj.project)) else c
  }

  /** The incoming object takes the stored object's UUID when it carries none. */
  function InheritUuid(input: ObjectWithReferences, existing: ObjectWithReferences): (r: ObjectWithReferences)
    ensures r.obj.uuid == (if input.obj.uuid == "" then existing.obj.uuid else input.obj.uuid)
    ensures r == input.(obj := input.obj.(uuid := r.obj.uuid))
  {
    if input.obj.uuid == "" then input.(obj := input.obj.(uuid := existing.obj.uuid)) else input
  }

  // ---------------------------------------------------------------------------
  // ObjectSet

  /** The outcome of a set request and the writes it issued. */
  datatype SetReply = SetReply(result: Result<Object>, writes: seq<Write>)

  /**
    `ObjectSet`: validate, resolve identity, then create, update or leave alone.
    With `InOrder` it is the code as written; `AsMap` compares properties as
    the map they come from.
   */
  function ObjectSet(st: Store, req: ObjectSetRequest, cmp: PropertyComparison): (r: SetReply)
    ensures |r.writes| <= 1
    ensures ValidateObjectSetRequest(st, req).Err? ==>
              r == SetReply(Err(ValidateObjectSetRequest(st, req).error), [])
    ensures ValidateObjectSetRequest(st, req).Ok? ==>
              var input := ValidateObjectSetRequest(st, req).value;
              var found := st.objectsByCondition(IdentityCondition(input));
              && (found.Err? ==> r == SetReply(Err(found.error), []))
              && (found.Ok? && |found.value| > 1 ==> r == SetReply(Err(MultipleRecordsFound), []))
              // no match: create
              && (found.Ok? && |found.value| == 0 ==>
                    && r.writes == [Created(input)]
                    && var created := st.objectCreate(input);
                       (created.Ok? ==> r.result == Ok(created.value.obj))
                       && (created.Err? ==> r.result == Err(created.error)))
              // one match: update when changed, otherwise return it untouched
              && (found.Ok? && |found.value| == 1 ==>
                    var existing := found.value[0];
                    var merged := InheritUuid(input, existing);
                    && (!Changed(cmp, existing, merged) ==> r == SetReply(Ok(existing.obj), []))
                    && (Changed(cmp, existing, merged) ==>
                          && r.writes == [Updated(merged)]
                          && var updated := st.objectUpdate(merged);
                             (updated.Ok? ==> r.result == Ok(updated.value.obj))
                             && (updated.Err? ==> r.result == Err(Unknown))))
  {
    match ValidateObjectSetRequest(st, req)
    case Err(e) => SetReply(Err(e), [])
    case Ok(input) =>
      match st.objectsByCondition(IdentityCondition(input))
      case Err(e) => SetReply(Err(e), [])
      case Ok(objs) =>
        if |objs| > 1 then SetReply(Err(MultipleRecordsFound), [])
        else if |objs| == 0 then
          match st.objectCreate(input)
          case Err(e) => SetReply(Err(e), [Created(input)])
          case Ok(changed) => SetReply(Ok(changed.obj), [Created(input)])
        else
          var existing := objs[0];
          var merged := InheritUuid(input, existing);
          if Changed(cmp, existing, merged) then
            match st.objectUpdate(merged)
            case Err(_) => SetReply(Err(Unknown), [Updated(merged)])
            case Ok(changed) => SetReply(Ok(changed.obj), [Updated(merged)])
          else SetReply(Ok(existing.obj), [])
  }

  /**
    Setting the same document again once the store holds what the first call
    created, its properties in whatever order, returns the stored object and
    writes nothing when properties are compared as a map.
   */
  lemma RepeatedSetIsNoOp(st: Store, req: ObjectSetRequest, uuid: string, props: seq<Property>)
    requires ValidateObjectSetRequest(st, req).Ok?
    requires ValidateObjectSetRequest(st, req).value.obj.uuid == ""
    requires var input := ValidateObjectSetRequest(st, req).value;
             && multiset(props) == multiset(input.obj.properties)
             && st.objectsByCondition(IdentityCondition(input))
                == Ok([input.(obj := input.obj.(uuid := uuid, properties := props))])
    ensures var input := ValidateObjectSetRequest(st, req).value;
            ObjectSet(st, req, AsMap) == SetReply(Ok(input.obj.(uuid := uuid, properties := props)), [])
  {
    var input := ValidateObjectSetRequest(st, req).value;
    var stored := input.(obj := input.obj.(uuid := uuid, properties := props));
    var merged := InheritUuid(input, stored);
    AsMapIgnoresPropertyOrder(merged, props);
    assert merged.(obj := merged.obj.(properties := props)) == stored;
  }

  /**
    As written, the same repeat set updates the object whenever the store lists
    its properties in another order than this call iterated them.
   */
  lemma RepeatedSetUpdatesOnReorder(st: Store, req: ObjectSetRequest, uuid: string, props: seq<Property>)
    requires ValidateObjectSetRequest(st, req).Ok?
    requires ValidateObjectSetRequest(st, req).value.obj.uuid == ""
    requires var input := ValidateObjectSetRequest(st, req).value;
             && props != input.obj.properties
             && st.objectsByCondition(IdentityCondition(input))
                == Ok([input.(obj := input.obj.(uuid := uuid, properties := props))])
    ensures var input := ValidateObjectSetRequest(st, req).value;
            ObjectSet(st, req, InOrder).writes == [Updated(input.(obj := input.obj.(uuid := uuid)))]
  {
  }

  /** An update never replaces the identity of the object the lookup found by type and name. */
  lemma UpdateKeepsExistingUuid(st: Store, req: ObjectSetRequest, cmp: PropertyComparison)
    requires ValidateObjectSetRequest(st, req).Ok?
    requires ValidateObjectSetRequest(st, req).value.obj.uuid == ""
    requires |ObjectSet(st, req, cmp).writes| == 1 && ObjectSet(st, req, cmp).writes[0].Updated?
    ensures var input := ValidateObjectSetRequest(st, req).value;
            var found := st.objectsByCondition(IdentityCondition(input));
            found.Ok? && |found.value| == 1 &&
            ObjectSet(st, req, cmp).writes[0].owr.obj.uuid == found.value[0].obj.uuid
  {
  }
}
