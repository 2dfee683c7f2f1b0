/**
  Filter expansion and normalization: turning caller-supplied object filters
  into concrete `ObjectListFilter`s, consulting the store for the partitions
  and object types they name.

  The model follows pkg/metadata/object_filter.go as written. In particular the
  partitions and object types matched by an explicit partition or type filter
  are bound to fresh local variables that shadow the ones feeding the cross
  product, so an explicit filter is only an existence check: the cross product
  sees no partition (explicit partition filter) and never any object type.
 */
module ObjectFilters {
  import opened Wrappers
  import opened Errors
  import opened Proto
  import opened Store

  /** The list filters an object filter expands to, and the caller's filter as expansion leaves it. */
  datatype Expansion = Expansion(filters: seq<ObjectListFilter>, filter: ObjectFilter)

  /** A list filter scoped to a partition and/or type, with no search terms. */
  function Scoped(p: Option<Partition>, t: Option<ObjectType>): ObjectListFilter {
    ObjectListFilter(p, t, "", "", false)
  }

  // ---------------------------------------------------------------------------
  // Cross product of partitions and object types

  /** The list filters for one partition: one per type, or one for the partition alone. */
  function PartitionRow(p: Partition, ts: seq<ObjectType>): seq<ObjectListFilter> {
    if |ts| == 0 then [Scoped(Some(p), None)]
    else seq(|ts|, j requires 0 <= j < |ts| => Scoped(Some(p), Some(ts[j])))
  }

  function PartitionRows(ps: seq<Partition>, ts: seq<ObjectType>): seq<ObjectListFilter>
    decreases |ps|
  {
    if |ps| == 0 then [] else PartitionRow(ps[0], ts) + PartitionRows(ps[1..], ts)
  }

  /**
    One list filter per (partition, type) pair, partition-major; per partition
    when there are no types; per type when there are no partitions.
   */
  function CrossProduct(ps: seq<Partition>, ts: seq<ObjectType>): seq<ObjectListFilter> {
    if |ps| > 0 then PartitionRows(ps, ts)
    else seq(|ts|, j requires 0 <= j < |ts| => Scoped(None, Some(ts[j])))
  }

  /** The number of list filters is the product of the two counts, an empty side counting as one. */
  lemma {:induction false} PartitionRowsLength(ps: seq<Partition>, ts: seq<ObjectType>)
    ensures |PartitionRows(ps, ts)| == |ps| * (if |ts| == 0 then 1 else |ts|)
    decreases |ps|
  {
    if |ps| > 0 {
      PartitionRowsLength(ps[1..], ts);
      var m := if |ts| == 0 then 1 else |ts|;
      assert |ps| * m == m + (|ps| - 1) * m;
    }
  }

  /** i * m + j indexes an n-by-m table of rows when i < n and j < m. */
  lemma {:induction false} RowMajorBound(n: int, m: int, i: int, j: int)
    requires 0 <= i < n && 0 <= j < m
    ensures i * m + j < n * m
    decreases n
  {
    if i < n - 1 {
      RowMajorBound(n - 1, m, i, j);
      assert n * m == (n - 1) * m + m;
    } else {
      assert n * m == i * m + m;
    }
  }

  /** Position i * |ts| + j holds exactly the pair (ps[i], ts[j]). */
  lemma {:induction false} PartitionRowsAt(ps: seq<Partition>, ts: seq<ObjectType>, i: int, j: int)
    requires 0 <= i < |ps| && 0 <= j < |ts|
    ensures |PartitionRows(ps, ts)| == |ps| * |ts|
    ensures i * |ts| + j < |PartitionRows(ps, ts)|
    ensures PartitionRows(ps, ts)[i * |ts| + j] == Scoped(Some(ps[i]), Some(ts[j]))
    decreases |ps|
  {
    var m := |ts|;
    PartitionRowsLength(ps, ts);
    RowMajorBound(|ps|, m, i, j);
    var row := PartitionRow(ps[0], ts);
    var rest := PartitionRows(ps[1..], ts);
    assert PartitionRows(ps, ts) == row + rest;
    assert |row| == m;
    if i == 0 {
      assert PartitionRows(ps, ts)[j] == row[j];
    } else {
      PartitionRowsAt(ps[1..], ts, i - 1, j);
      var k := (i - 1) * m + j;
      assert i * m + j == m + k;
      assert PartitionRows(ps, ts)[m + k] == rest[k];
      assert ps[1..][i - 1] == ps[i];
    }
  }

  /** Without partitions there is one list filter per type, in order, and nothing else. */
  lemma CrossProductTypesOnly(ts: seq<ObjectType>)
    ensures |CrossProduct([], ts)| == |ts|
    ensures forall j :: 0 <= j < |ts| ==> CrossProduct([], ts)[j] == Scoped(None, Some(ts[j]))
  {
  }

  /** Without types there is one list filter per partition, in order. */
  lemma {:induction false} CrossProductPartitionsOnly(ps: seq<Partition>, i: int)
    requires 0 <= i < |ps|
    ensures |CrossProduct(ps, [])| == |ps|
    ensures CrossProduct(ps, [])[i] == Scoped(Some(ps[i]), None)
    decreases |ps|
  {
    PartitionRowsLength(ps, []);
    if i > 0 {
      CrossProductPartitionsOnly(ps[1..], i - 1);
    }
  }

  // ---------------------------------------------------------------------------
  // Expansion of one filter

  /** Every list filter keeps its scope and takes the given search terms. */
  function WithTerms(res: seq<ObjectListFilter>, project: string, search: string, usePrefix: bool)
    : (r: seq<ObjectListFilter>)
    ensures |r| == |res|
    ensures forall k :: 0 <= k < |r| ==>
              && r[k].partition == res[k].partition
              && r[k].objectType == res[k].objectType
              && r[k].project == project && r[k].search == search && r[k].usePrefix == usePrefix
  {
    seq(|res|, k requires 0 <= k < |res| =>
      res[k].(project := project, search := search, usePrefix := usePrefix))
  }

  /**
    The partitions that reach the cross product. An explicit partition filter
    is looked up only to check that something matches: its matches are
    discarded (line 56 declares a new `partitions`).
   */
  function ResolvePartitions(st: Store, session: Session, filter: ObjectFilter)
    : Result<seq<Partition>>
  {
    if filter.partition.Some? then
      match st.partitionList(filter.partition.value)
      case Err(e) => Err(e)
      case Ok(found) => if |found| == 0 then Err(StoreNotFound) else Ok([])
    else
      match st.partitionGet(session.partition)
      case Err(e) => Err(e)
      case Ok(part) => Ok([part])
  }

  /** The object types that reach the cross product: never any (line 85 declares a new `objTypes`). */
  function ResolveObjectTypes(st: Store, filter: ObjectFilter): Result<seq<ObjectType>> {
    if filter.objectType.Some? then
      match st.objectTypeList(filter.objectType.value)
      case Err(e) => Err(e)
      case Ok(found) => if |found| == 0 then Err(StoreNotFound) else Ok([])
    else Ok([])
  }

  /** The project the expansion filters on: the caller's, or the session's when none was given. */
  function EffectiveProject(session: Session, filter: ObjectFilter): string {
    if filter.project == "" then session.project else filter.project
  }

  /** `expandObjectFilter`. */
  function ExpandObjectFilter(st: Store, session: Session, filter: ObjectFilter): (r: Result<Expansion>)
    // partition stage
    ensures filter.partition.Some? && st.partitionList(filter.partition.value).Err? ==>
              r == Err(st.partitionList(filter.partition.value).error)
    ensures filter.partition.Some? && st.partitionList(filter.partition.value) == Ok([]) ==>
              r == Err(StoreNotFound)
    ensures filter.partition.None? && st.partitionGet(session.partition).Err? ==>
              r == Err(st.partitionGet(session.partition).error)
    // object type stage, reached once the partition stage succeeded
    ensures ResolvePartitions(st, session, filter).Ok? && filter.objectType.Some? &&
            st.objectTypeList(filter.objectType.value).Err? ==>
              r == Err(st.objectTypeList(filter.objectType.value).error)
    ensures ResolvePartitions(st, session, filter).Ok? && filter.objectType.Some? &&
            st.objectTypeList(filter.objectType.value) == Ok([]) ==>
              r == Err(StoreNotFound)
    ensures r.Ok? <==> ResolvePartitions(st, session, filter).Ok? && ResolveObjectTypes(st, filter).Ok?
    // an empty project is replaced by the session's, and nothing else of the filter changes
    ensures r.Ok? ==> r.value.filter == filter.(project := EffectiveProject(session, filter))
    // shape of the result
    ensures r.Ok? ==> forall lf :: lf in r.value.filters ==> lf.objectType.None?
    ensures r.Ok? && filter.partition.None? ==>
              var f := r.value.filter;
              var part := st.partitionGet(session.partition).value;
              r.value.filters ==
                if f.search != "" || f.project != ""
                then [ObjectListFilter(Some(part), None, f.project, f.search, f.usePrefix)]
                else [Scoped(Some(part), None)]
    ensures r.Ok? && filter.partition.Some? ==>
              var f := r.value.filter;
              r.value.filters ==
                if f.search != "" || f.project != ""
                then [ObjectListFilter(None, None, f.project, f.search, f.usePrefix)]
                else []
  {
    var partitions :- ResolvePartitions(st, session, filter);
    var objTypes :- ResolveObjectTypes(st, filter);
    var f := filter.(project := EffectiveProject(session, filter));
    var res := CrossProduct(partitions, objTypes);
    assert objTypes == [];
    assert |partitions| > 0 ==>
      |partitions| == 1 && res == PartitionRow(partitions[0], []) + PartitionRows(partitions[1..], []);
    var res' :=
      if f.search != "" || f.project != "" then
        if |res| > 0 then WithTerms(res, f.project, f.search, f.usePrefix)
        else [ObjectListFilter(None, None, f.project, f.search, f.usePrefix)]
      else res;
    Ok(Expansion(res', f))
  }

  /** As written, an expansion that succeeds yields at most one list filter. */
  lemma ExpansionHasAtMostOneFilter(st: Store, session: Session, filter: ObjectFilter)
    ensures ExpandObjectFilter(st, session, filter).Ok? ==>
              |ExpandObjectFilter(st, session, filter).value.filters| <= 1
  {
  }

  /** The partitions a filter matches: those of an explicit filter, else the session's. */
  function MatchedPartitions(st: Store, session: Session, filter: ObjectFilter): (r: Result<seq<Partition>>)
    ensures r.Ok? ==> |r.value| > 0
    ensures filter.partition.Some? && st.partitionList(filter.partition.value).Ok? &&
            |st.partitionList(filter.partition.value).value| > 0 ==>
              r == st.partitionList(filter.partition.value)
  {
    if filter.partition.Some? then
      match st.partitionList(filter.partition.value)
      case Err(e) => Err(e)
      case Ok(found) => if |found| == 0 then Err(StoreNotFound) else Ok(found)
    else
      match st.partitionGet(session.partition)
      case Err(e) => Err(e)
      case Ok(part) => Ok([part])
  }

  /** The object types an explicit type filter matches; none without one. */
  function MatchedObjectTypes(st: Store, filter: ObjectFilter): (r: Result<seq<ObjectType>>)
    ensures filter.objectType.Some? && r.Ok? ==> |r.value| > 0
    ensures filter.objectType.None? ==> r == Ok([])
  {
    if filter.objectType.Some? then
      match st.objectTypeList(filter.objectType.value)
      case Err(e) => Err(e)
      case Ok(found) => if |found| == 0 then Err(StoreNotFound) else Ok(found)
    else Ok([])
  }

  /**
    The shadowing is the only difference between the two readings: the
    as-written stages fail exactly when the matching ones do, and then throw
    the explicit matches away.
   */
  lemma ResolveDiscardsMatches(st: Store, session: Session, filter: ObjectFilter)
    ensures ResolvePartitions(st, session, filter).Ok? <==> MatchedPartitions(st, session, filter).Ok?
    ensures ResolvePartitions(st, session, filter).Ok? ==>
              ResolvePartitions(st, session, filter).value ==
                if filter.partition.Some? then [] else MatchedPartitions(st, session, filter).value
    ensures ResolveObjectTypes(st, filter).Ok? <==> MatchedObjectTypes(st, filter).Ok?
    ensures ResolveObjectTypes(st, filter).Ok? ==> ResolveObjectTypes(st, filter).value == []
  {
  }

  /**
    `expandObjectFilter` as its comments describe it: the matched partitions
    and object types feed the cross product, which then takes the filter's
    project, search and prefix flag.
   */
  function ExpandObjectFilterIntended(st: Store, session: Session, filter: ObjectFilter)
    : (r: Result<Expansion>)
    ensures r.Ok? <==> ExpandObjectFilter(st, session, filter).Ok?
    ensures r.Ok? ==> r.value.filter == filter.(project := EffectiveProject(session, filter))
    ensures r.Ok? ==>
              var f := r.value.filter;
              var res := CrossProduct(MatchedPartitions(st, session, filter).value,
                                      MatchedObjectTypes(st, filter).value);
              && |res| > 0
              && r.value.filters ==
                   if f.search != "" || f.project != "" then WithTerms(res, f.project, f.search, f.usePrefix)
                   else res
  {
    ResolveDiscardsMatches(st, session, filter);
    var partitions :- MatchedPartitions(st, session, filter);
    var objTypes :- MatchedObjectTypes(st, filter);
    var f := filter.(project := EffectiveProject(session, filter));
    var res := CrossProduct(partitions, objTypes);
    PartitionRowsLength(partitions, objTypes);
    assert |partitions| * (if |objTypes| == 0 then 1 else |objTypes|) > 0;
    var res' := if f.search != "" || f.project != "" then WithTerms(res, f.project, f.search, f.usePrefix) else res;
    Ok(Expansion(res', f))
  }

  /**
    As intended, a filter naming partitions and types yields one list filter
    per matched (partition, type) pair: position i times the type count plus j
    is scoped to partition i and type j.
   */
  lemma IntendedExpansionAt(st: Store, session: Session, filter: ObjectFilter, i: int, j: int)
    requires ExpandObjectFilterIntended(st, session, filter).Ok?
    requires filter.objectType.Some?
    requires 0 <= i < |MatchedPartitions(st, session, filter).value|
    requires 0 <= j < |MatchedObjectTypes(st, filter).value|
    ensures var ps := MatchedPartitions(st, session, filter).value;
            var ts := MatchedObjectTypes(st, filter).value;
            var lfs := ExpandObjectFilterIntended(st, session, filter).value.filters;
            && |lfs| == |ps| * |ts|
            && i * |ts| + j < |lfs|
            && lfs[i * |ts| + j].partition == Some(ps[i])
            && lfs[i * |ts| + j].objectType == Some(ts[j])
  {
    var ps := MatchedPartitions(st, session, filter).value;
    var ts := MatchedObjectTypes(st, filter).value;
    PartitionRowsAt(ps, ts, i, j);
  }

  /**
    The discrepancy: an explicit partition filter matching two or more
    partitions gives at most one list filter as written, but one per partition
    as intended.
   */
  lemma ShadowingDropsMatches(st: Store, session: Session, filter: ObjectFilter)
    requires filter.partition.Some? && filter.objectType.None?
    requires st.partitionList(filter.partition.value).Ok?
    requires |st.partitionList(filter.partition.value).value| >= 2
    ensures ExpandObjectFilter(st, session, filter).Ok?
    ensures |ExpandObjectFilter(st, session, filter).value.filters| <= 1
    ensures |ExpandObjectFilterIntended(st, session, filter).value.filters|
            == |st.partitionList(filter.partition.value).value|
  {
    var ps := st.partitionList(filter.partition.value).value;
    PartitionRowsLength(ps, []);
  }

  /** `defaultObjectFilter`: the session's partition and project, when the partition exists. */
  function DefaultObjectFilter(st: Store, session: Session): (r: Result<ObjectListFilter>)
    ensures st.partitionGet(session.partition).Err? ==> r == Err(st.partitionGet(session.partition).error)
    ensures r.Ok? <==> st.partitionGet(session.partition).Ok?
    ensures r.Ok? ==> r.value.partition == Some(st.partitionGet(session.partition).value)
    ensures r.Ok? ==> r.value == ObjectListFilter(r.value.partition, None, session.project, "", false)
  {
    match st.partitionGet(session.partition)
    case Err(e) => Err(e)
    case Ok(part) => Ok(ObjectListFilter(Some(part), None, session.project, "", false))
  }

  // ---------------------------------------------------------------------------
  // Normalization of a batch of filters

  function Concat<T>(xss: seq<seq<T>>): seq<T>
    decreases |xss|
  {
    if |xss| == 0 then [] else xss[0] + Concat(xss[1..])
  }

  lemma {:induction false} ConcatAllEmpty<T>(xss: seq<seq<T>>)
    requires forall i :: 0 <= i < |xss| ==> xss[i] == []
    ensures Concat(xss) == []
    decreases |xss|
  {
    if |xss| > 0 {
      ConcatAllEmpty(xss[1..]);
    }
  }

  /** What one filter adds to the batch: its list filters, or nothing when it failed to expand. */
  function Contribution(st: Store, session: Session, f: ObjectFilter): seq<ObjectListFilter> {
    match ExpandObjectFilter(st, session, f)
    case Ok(x) => x.filters
    case Err(_) => []
  }

  function Contributions(st: Store, session: Session, any: seq<ObjectFilter>): seq<seq<ObjectListFilter>> {
    seq(|any|, i requires 0 <= i < |any| => Contribution(st, session, any[i]))
  }

  /** A filter whose expansion failed with something other than "not found". */
  predicate HardFailure(st: Store, session: Session, f: ObjectFilter) {
    var e := ExpandObjectFilter(st, session, f);
    e.Err? && e.error != StoreNotFound
  }

  /** The loop of `normalizeObjectFilters`: expand each filter in order, skipping "not found". */
  function ExpandEach(st: Store, session: Session, any: seq<ObjectFilter>): (r: Result<seq<ObjectListFilter>>)
    ensures r.Err? ==> r.error == Unknown
    ensures r.Err? <==> exists i :: 0 <= i < |any| && HardFailure(st, session, any[i])
    ensures r.Ok? ==> r.value == Concat(Contributions(st, session, any))
    decreases |any|
  {
    if |any| == 0 then Ok([])
    else
      var rest := ExpandEach(st, session, any[1..]);
      assert Contributions(st, session, any)
          == [Contribution(st, session, any[0])] + Contributions(st, session, any[1..]);
      assert forall i :: 1 <= i < |any| ==> any[i] == any[1..][i - 1];
      match ExpandObjectFilter(st, session, any[0])
      case Err(e) =>
        if e == StoreNotFound then rest else Err(Unknown)
      case Ok(x) =>
        match rest
        case Err(e) => Err(e)
        case Ok(more) => Ok(x.filters + more)
  }

  /** `normalizeObjectFilters`. */
  function NormalizeObjectFilters(st: Store, session: Session, any: seq<ObjectFilter>)
    : (r: Result<seq<ObjectListFilter>>)
    // no filters: the session default
    ensures |any| == 0 && st.partitionGet(session.partition).Ok? ==>
              r == Ok([ObjectListFilter(Some(st.partitionGet(session.partition).value), None,
                                        session.project, "", false)])
    ensures |any| == 0 && st.partitionGet(session.partition).Err? ==>
              r == Err(FailedExpandObjectFilters)
    // some filters: the union of their expansions, in order
    ensures |any| > 0 ==> (r.Err? <==> exists i :: 0 <= i < |any| && HardFailure(st, session, any[i]))
    ensures |any| > 0 && r.Err? ==> r.error == Unknown
    ensures |any| > 0 && r.Ok? ==> r.value == Concat(Contributions(st, session, any))
  {
    var res :- ExpandEach(st, session, any);
    if |res| == 0 then
      if |any| == 0 then
        match DefaultObjectFilter(st, session)
        case Err(_) => Err(FailedExpandObjectFilters)
        case Ok(def) => Ok([def])
      else Ok([])
    else Ok(res)
  }

  /** Filters that all name unknown partitions or types give an empty answer, not the default. */
  lemma AllNotFoundGivesEmpty(st: Store, session: Session, any: seq<ObjectFilter>)
    requires |any| > 0
    requires forall i :: 0 <= i < |any| ==> ExpandObjectFilter(st, session, any[i]) == Err(StoreNotFound)
    ensures NormalizeObjectFilters(st, session, any) == Ok([])
  {
    var cs := Contributions(st, session, any);
    forall i | 0 <= i < |cs| ensures cs[i] == [] {
      assert Contribution(st, session, any[i]) == [];
    }
    ConcatAllEmpty(cs);
  }
}
