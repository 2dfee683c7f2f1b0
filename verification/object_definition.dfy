/**
  Provider object definitions (pkg/metadata/server/object_definition.go):
  lookup and upsert of the definition stored for a (partition, provider type)
  pair. An empty partition or provider type selects the default definition.
 */
module ProviderDefinitions {
  import opened Wrappers
  import opened Errors
  import opened Proto
  import opened Strings
  import opened Store
  import ObjectService

  datatype ProviderDefinitionGetRequest =
    ProviderDefinitionGetRequest(session: Session, partition: string, providerType: string)

  datatype ProviderDefinitionSetRequest = ProviderDefinitionSetRequest(
    session: Session,
    partition: string,
    providerType: string,
    definition: ObjectDefinition
  )

  /** `ProviderDefinitionGet`: the stored definition, with the store's "not found" turned into the service's. */
  function ProviderDefinitionGet(st: Store, req: ProviderDefinitionGetRequest): (r: Result<ObjectDefinition>)
    ensures ObjectService.CheckSession(req.session).Some? ==>
              r == Err(ObjectService.CheckSession(req.session).value)
    ensures ObjectService.CheckSession(req.session).None? ==>
              var got := DefinitionGet(st, DefinitionKey(req.partition, req.providerType));
              && (got.Ok? ==> r == got)
              && (got == Err(StoreNotFound) ==> r == Err(NotFound))
              && (got.Err? && got.error != StoreNotFound ==> r == got)
    ensures r.Ok? ==> st.definitionReadFault.None?
                      && DefinitionKey(req.partition, req.providerType) in st.definitions
                      && r.value == st.definitions[DefinitionKey(req.partition, req.providerType)]
  {
    if ObjectService.CheckSession(req.session).Some? then Err(ObjectService.CheckSession(req.session).value)
    else
      match DefinitionGet(st, DefinitionKey(req.partition, req.providerType))
      case Err(e) => if e == StoreNotFound then Err(NotFound) else Err(e)
      case Ok(def) => Ok(def)
  }

  /**
    `validateObjectDefinitionSetRequest`: a non-empty partition and a non-empty
    provider type must exist. An unknown provider type is reported with the
    request's partition, as the code does.
   */
  function ValidateObjectDefinitionSetRequest(st: Store, req: ProviderDefinitionSetRequest): (r: Option<Error>)
    ensures req.partition == "" && req.providerType == "" ==> r.None?
    ensures req.partition != "" && st.partitionGetByUuid(req.partition) == Err(StoreNotFound) ==>
              r == Some(PartitionNotFound(req.partition))
    ensures req.partition != "" && st.partitionGetByUuid(req.partition).Err? &&
            st.partitionGetByUuid(req.partition).error != StoreNotFound ==>
              r == Some(Unknown)
    ensures (req.partition == "" || st.partitionGetByUuid(req.partition).Ok?) && req.providerType != "" ==>
              var pt := st.providerTypeGet(req.providerType);
              && (pt == Err(StoreNotFound) ==> r == Some(ProviderTypeNotFound(req.partition)))
              && (pt.Err? && pt.error != StoreNotFound ==> r == Some(Unknown))
    ensures r.None? <==>
              && (req.partition == "" || st.partitionGetByUuid(req.partition).Ok?)
              && (req.providerType == "" || st.providerTypeGet(req.providerType).Ok?)
  {
    if req.partition != "" && st.partitionGetByUuid(req.partition).Err? then
      if st.partitionGetByUuid(req.partition).error == StoreNotFound
      then Some(PartitionNotFound(req.partition))
      else Some(Unknown)
    else if req.providerType != "" && st.providerTypeGet(req.providerType).Err? then
      if st.providerTypeGet(req.providerType).error == StoreNotFound
      then Some(ProviderTypeNotFound(req.partition))
      else Some(Unknown)
    else None
  }

  /** The partition segment of the log key. */
  function PartitionSegment(partition: string): (seg: string)
    ensures seg != ""
  {
    if partition == "" then "default" else partition
  }

  /** The key `ProviderDefinitionSet` names the definition by in its log messages. */
  function ProviderDefinitionLogKey(partition: string, providerType: string): (pk: string)
    ensures HasPrefix(pk, "runm.provider:")
    ensures providerType == "" ==> pk == "runm.provider:" + PartitionSegment(partition)
    ensures providerType != "" ==> pk == "runm.provider:" + PartitionSegment(partition) + ":" + providerType
  {
    var objType := "runm.provider";
    var pk := objType + ":" + partition;
    var pk' := if partition == "" then pk + "default" else pk;
    if providerType != "" then pk' + ":" + providerType else pk'
  }

  /** The empty partition and a partition literally named "default" share a log key. */
  lemma LogKeyDefaultCollides(providerType: string)
    ensures ProviderDefinitionLogKey("", providerType) == ProviderDefinitionLogKey("default", providerType)
  {
  }

  /** The log key as the colon-joined list of its segments. */
  lemma LogKeySegments(partition: string, providerType: string)
    ensures ProviderDefinitionLogKey(partition, providerType) ==
              Join(["runm.provider", PartitionSegment(partition)]
                   + (if providerType != "" then [providerType] else []), ':')
  {
    var seg := PartitionSegment(partition);
    var parts := ["runm.provider", seg] + (if providerType != "" then [providerType] else []);
    assert "runm.provider:" == "runm.provider" + [':'];
    if providerType != "" {
      assert parts[1..] == [seg, providerType];
      assert parts[1..][1..] == [providerType];
      assert Join(parts[1..], ':') == seg + [':'] + providerType;
      assert Join(parts, ':') == "runm.provider" + [':'] + (seg + [':'] + providerType);
    } else {
      assert parts[1..] == [seg];
      assert Join(parts, ':') == "runm.provider" + [':'] + seg;
    }
  }

  /**
    Apart from that collision, the log key names its definition unambiguously
    when partition and provider type contain no ':'.
   */
  lemma LogKeyInjective(p1: string, t1: string, p2: string, t2: string)
    requires ':' !in p1 && ':' !in t1 && ':' !in p2 && ':' !in t2
    requires ProviderDefinitionLogKey(p1, t1) == ProviderDefinitionLogKey(p2, t2)
    ensures PartitionSegment(p1) == PartitionSegment(p2) && t1 == t2
  {
    var parts1 := ["runm.provider", PartitionSegment(p1)] + (if t1 != "" then [t1] else []);
    var parts2 := ["runm.provider", PartitionSegment(p2)] + (if t2 != "" then [t2] else []);
    LogKeySegments(p1, t1);
    LogKeySegments(p2, t2);
    assert ':' !in "runm.provider";
    forall i | 0 <= i < |parts1| ensures ':' !in parts1[i] { }
    forall i | 0 <= i < |parts2| ensures ':' !in parts2[i] { }
    SplitJoin(parts1, ':');
    SplitJoin(parts2, ':');
    assert parts1 == parts2;
    assert parts1[1] == parts2[1];
    if t1 != "" || t2 != "" {
      assert |parts1| == |parts2| == 3;
      assert parts1[2] == parts2[2];
    }
  }

  /** The outcome of a set request and the store as it leaves it. */
  datatype SetReply = SetReply(result: Result<ObjectDefinition>, store: Store)

  /** `ProviderDefinitionSet`: validate, look up the existing definition, then always write. */
  function ProviderDefinitionSet(st: Store, req: ProviderDefinitionSetRequest): (r: SetReply)
    ensures ObjectService.CheckSession(req.session).Some? ==>
              r == SetReply(Err(ObjectService.CheckSession(req.session).value), st)
    ensures ObjectService.CheckSession(req.session).None? &&
            ValidateObjectDefinitionSetRequest(st, req).Some? ==>
              r == SetReply(Err(ValidateObjectDefinitionSetRequest(st, req).value), st)
    ensures ObjectService.CheckSession(req.session).None? &&
            ValidateObjectDefinitionSetRequest(st, req).None? ==>
              var key := DefinitionKey(req.partition, req.providerType);
              var existing := DefinitionGet(st, key);
              && (existing.Err? && existing.error != StoreNotFound ==> r == SetReply(Err(Unknown), st))
              && (existing.Ok? || existing == Err(StoreNotFound) ==>
                    && (st.definitionWriteFault.Some? ==>
                          r == SetReply(Err(st.definitionWriteFault.value), st))
                    && (st.definitionWriteFault.None? ==>
                          r == SetReply(Ok(req.definition),
                                        st.(definitions := st.definitions[key := req.definition]))))
    // the store changes only by the requested key, and only on success
    ensures r.result.Err? ==> r.store == st
    ensures r.result.Ok? ==>
              && r.result.value == req.definition
              && r.store == st.(definitions := st.definitions[DefinitionKey(req.partition, req.providerType) := req.definition])
  {
    if ObjectService.CheckSession(req.session).Some? then
      SetReply(Err(ObjectService.CheckSession(req.session).value), st)
    else if ValidateObjectDefinitionSetRequest(st, req).Some? then
      SetReply(Err(ValidateObjectDefinitionSetRequest(st, req).value), st)
    else
      var def := req.definition;
      var key := DefinitionKey(req.partition, req.providerType);
      var existing := DefinitionGet(st, key);
      if existing.Err? && existing.error != StoreNotFound then SetReply(Err(Unknown), st)
      else
        match DefinitionSet(st, key, def)
        case Err(e) => SetReply(Err(e), st)
        case Ok(st') => SetReply(Ok(def), st')
  }

  /** A definition that was set is what a later get for the same key returns. */
  lemma GetAfterSet(st: Store, req: ProviderDefinitionSetRequest, session: Session)
    requires ProviderDefinitionSet(st, req).result.Ok?
    requires ObjectService.CheckSession(session).None?
    requires st.definitionReadFault.None?
    ensures ProviderDefinitionGet(ProviderDefinitionSet(st, req).store,
                                  ProviderDefinitionGetRequest(session, req.partition, req.providerType))
            == Ok(req.definition)
  {
  }

  /** Setting one key leaves what a get returns for every other key as it was. */
  lemma SetLeavesOtherKeys(st: Store, req: ProviderDefinitionSetRequest, get: ProviderDefinitionGetRequest)
    requires DefinitionKey(get.partition, get.providerType) != DefinitionKey(req.partition, req.providerType)
    ensures ProviderDefinitionGet(ProviderDefinitionSet(st, req).store, get) == ProviderDefinitionGet(st, get)
  {
  }
}
