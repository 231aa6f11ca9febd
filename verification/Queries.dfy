/** Queries answered from the indexes give what a plain scan gives, in an order that leaves
    nothing to chance. */
module Queries {
  import opened Text
  import opened Sorting
  import opened Types
  import opened Normalize
  import opened Catalogs
  import opened Integrity
  import opened Indexes
  import opened Stores

  // ---------------------------------------------------------------- candidates

  datatype Filter = Filter(index: Index, value: string)

  /** A blank value does not filter; any other admits the ids of its bucket. */
  predicate Admits(f: Filter, id: string) {
    f.value == "" || id in Bucket(f.index, f.value)
  }

  ghost predicate AllAdmit(filters: seq<Filter>, id: string) {
    forall f :: f in filters ==> Admits(f, id)
  }

  /** A filter only ever admits ids of known entities. */
  ghost predicate AllFit(filters: seq<Filter>, keys: set<string>) {
    forall f :: f in filters ==> Fits(f, keys)
  }

  ghost predicate Fits(f: Filter, keys: set<string>) {
    f.value != "" ==> Bucket(f.index, f.value) <= keys
  }

  lemma AllOf(a: seq<Filter>, b: seq<Filter>, keys: set<string>)
    ensures AllFit(a + b, keys) <==> AllFit(a, keys) && AllFit(b, keys)
    ensures forall id :: AllAdmit(a + b, id) <==> AllAdmit(a, id) && AllAdmit(b, id)
  {
    hide Admits, Fits;
    assert forall f :: f in a + b <==> f in a || f in b;
  }

  lemma AllOfOne(f: Filter, keys: set<string>)
    ensures AllFit([f], keys) <==> Fits(f, keys)
    ensures forall id :: AllAdmit([f], id) <==> Admits(f, id)
  {
    hide Admits, Fits;
    assert f in [f];
  }

  lemma AllOfFive(a: Filter, b: Filter, c: Filter, d: Filter, e: Filter, keys: set<string>)
    ensures AllFit([a, b, c, d, e], keys) <==>
      Fits(a, keys) && Fits(b, keys) && Fits(c, keys) && Fits(d, keys) && Fits(e, keys)
    ensures forall id :: AllAdmit([a, b, c, d, e], id) <==>
      Admits(a, id) && Admits(b, id) && Admits(c, id) && Admits(d, id) && Admits(e, id)
  {
    hide Admits, Fits;
    var all := [a, b, c, d, e];
    assert all[0] in all && all[1] in all && all[2] in all && all[3] in all && all[4] in all;
  }

  /** A value no entity has is not in the index, and filtering by it leaves no candidate at all,
      whatever the other filters are: it empties the answer instead of lifting the filter. */
  lemma UnknownValueAdmitsNothing<T(!new)>(ix: Index, entities: map<string, T>, values: T -> seq<string>, value: string,
                                           filters: seq<Filter>, keys: set<string>)
    requires Exact(ix, entities, values) && value != "" && Filter(ix, value) in filters
    requires forall id :: id in entities ==> value !in values(entities[id])
    ensures value !in ix
    ensures (set id | id in keys && AllAdmit(filters, id)) == {}
  {
    hide Exact;
    ExactBucket(ix, entities, values, value);
    NoBucketLeft(ix, entities, values, value);
    forall id ensures !AllAdmit(filters, id) {
      assert !Admits(Filter(ix, value), id);
    }
  }

  lemma NoBucketLeft<T(!new)>(ix: Index, entities: map<string, T>, values: T -> seq<string>, value: string)
    requires Exact(ix, entities, values) && Bucket(ix, value) == {}
    ensures value !in ix
  {
  }

  method Intersect(candidates: Option<set<string>>, f: Filter) returns (r: Option<set<string>>)
    ensures f.value == "" ==> r == candidates
    ensures f.value != "" ==> r.Some?
    ensures f.value != "" ==>
      r.value == if candidates.None? then Bucket(f.index, f.value) else candidates.value * Bucket(f.index, f.value)
  {
    if f.value == "" { return candidates; }
    var bucket := Bucket(f.index, f.value);
    if candidates.None? { return Some(bucket); }
    var kept, todo := candidates.value, candidates.value;
    while todo != {}
      invariant todo <= kept <= candidates.value
      invariant forall id :: id in candidates.value && id !in todo ==> (id in kept <==> id in bucket)
      decreases todo
    {
      var id :| id in todo;
      todo := todo - {id};
      if id !in bucket { kept := kept - {id}; }
    }
    assert kept == candidates.value * bucket;
    r := Some(kept);
  }

  method Listed(ids: set<string>) returns (list: seq<string>)
    ensures Ranks(Less, ids, list)
  {
    hide Less, Sort;
    list := [];
    var todo := ids;
    while todo != {}
      invariant todo <= ids && Members(list) == ids - todo && Distinct(list)
      decreases todo
    {
      var id :| id in todo;
      assert id !in Members(list);
      todo := todo - {id};
      assert Members(list + [id]) == Members(list) + {id};
      list := list + [id];
    }
    LessOrders(ids);
    SortRanks(Less, list);
    list := Sort(Less, list);
  }

  /** Intersect the buckets of all filters; without any filter, every id is a candidate. */
  method CandidateIDs(keys: set<string>, filters: seq<Filter>) returns (ids: seq<string>)
    requires AllFit(filters, keys)
    ensures Ranks(Less, (set id | id in keys && AllAdmit(filters, id)), ids)
  {
    hide Less, Ranks, Bucket;
    var candidates: Option<set<string>> := None;
    for i := 0 to |filters|
      invariant candidates.None? ==> forall f :: f in filters[..i] ==> f.value == ""
      invariant candidates.Some? ==> candidates.value == set id | id in keys && AllAdmit(filters[..i], id)
    {
      assert filters[..i + 1] == filters[..i] + [filters[i]];
      assert filters[i] in filters && Fits(filters[i], keys);
      AllOf(filters[..i], [filters[i]], keys);
      AllOfOne(filters[i], keys);
      candidates := Intersect(candidates, filters[i]);
    }
    assert filters[..|filters|] == filters;
    ghost var wanted := set id | id in keys && AllAdmit(filters, id);
    if candidates.None? {
      assert wanted == keys;
      ids := Listed(keys);
    } else {
      ids := Listed(candidates.value);
    }
  }

  // ---------------------------------------------------------------- ranking

  /** Lower rank first, equal ranks by id. */
  function By<T>(rank: T -> int, name: T -> string): (T, T) -> bool {
    (a: T, b: T) => if rank(a) == rank(b) then Less(name(a), name(b)) else rank(a) < rank(b)
  }

  lemma ByOrders<T(!new)>(rank: T -> int, name: T -> string, s: set<T>)
    requires forall a, b :: a in s && b in s && a != b ==> name(a) != name(b)
    ensures Orders(By(rank, name), s)
  {
    hide Less;
    var less := By(rank, name);
    forall a | a in s ensures !less(a, a) { LessIrreflexive(name(a)); }
    forall a, b | a in s && b in s && a != b ensures less(a, b) || less(b, a) { LessTotal(name(a), name(b)); }
    forall a, b, c | a in s && b in s && c in s && less(a, b) && less(b, c) ensures less(a, c) {
      if rank(a) == rank(b) == rank(c) { LessTransitive(name(a), name(b), name(c)); }
    }
  }

  /** `out` is the front of the ranking of `of`, cut at the limit. */
  ghost predicate TopOf<T(!new)>(less: (T, T) -> bool, of: set<T>, limit: int, out: seq<T>) {
    exists ranking: seq<T> :: Ranks(less, of, ranking) && out == Limited(ranking, limit)
  }

  /** The answer is determined by the set of matches: no map order can show through. */
  lemma AnswerUnique<T(!new)>(less: (T, T) -> bool, of: set<T>, limit: int, a: seq<T>, b: seq<T>)
    requires Orders(less, of) && TopOf(less, of, limit, a) && TopOf(less, of, limit, b)
    ensures a == b
  {
    hide Ranks, Orders;
    var x: seq<T> :| Ranks(less, of, x) && a == Limited(x, limit);
    var y: seq<T> :| Ranks(less, of, y) && b == Limited(y, limit);
    RankingUnique(less, of, x, y);
  }

  /** What it is to be the top: in order, from the set, and nothing is left out unless the limit
      is reached by what comes before it. */
  lemma TopMeans<T(!new)>(less: (T, T) -> bool, of: set<T>, limit: int, out: seq<T>)
    requires Orders(less, of) && TopOf(less, of, limit, out)
    ensures forall i, j :: 0 <= i < j < |out| ==> less(out[i], out[j])
    ensures forall x :: x in out ==> x in of
    ensures forall x :: x in of && x !in out ==> 0 < limit == |out| && forall y :: y in out ==> less(y, x)
    ensures 0 < limit ==> |out| <= limit
  {
    hide Orders;
    var ranking: seq<T> :| Ranks(less, of, ranking) && out == Limited(ranking, limit);
    assert forall x :: x in ranking <==> x in Members(ranking);
    forall x | x in of && x !in out ensures 0 < limit == |out| && forall y :: y in out ==> less(y, x) {
      var j :| 0 <= j < |ranking| && ranking[j] == x;
      forall y | y in out ensures less(y, x) {
        var i :| 0 <= i < |out| && out[i] == y;
        assert ranking[i] == y && i < j;
      }
    }
  }

  /** A ranking of ids lists each of them once. */
  lemma RankedIDs(ids: set<string>, list: seq<string>)
    requires Ranks(Less, ids, list)
    ensures Members(list) == ids && Distinct(list)
  {
    hide Less;
    LessOrders(ids);
    AscendingDistinct(Less, list);
  }

  lemma SortIsTop<T(!new)>(less: (T, T) -> bool, list: seq<T>, of: set<T>, limit: int)
    requires Orders(less, of) && Distinct(list) && Members(list) == of
    ensures TopOf(less, of, limit, Limited(Sort(less, list), limit))
  {
    hide Orders, Sort;
    SortRanks(less, list);
  }

  /** Look the candidates up, keep those that match, sort, cut. */
  method Answer<T(!new)>(ids: seq<string>, entities: map<string, T>, keep: T -> bool, name: T -> string,
                         rank: T -> int, limit: int) returns (out: seq<T>)
    requires Distinct(ids) && forall id :: id in ids && id in entities ==> name(entities[id]) == id
    ensures TopOf(By(rank, name), Kept(ids, entities, keep), limit, out)
  {
    hide Sort, By, Orders, TopOf;
    var found: seq<T> := [];
    for i := 0 to |ids|
      invariant Members(found) == Kept(ids[..i], entities, keep)
      invariant Distinct(found)
      invariant forall e :: e in found ==> name(e) in ids[..i]
    {
      var id := ids[i];
      KeptSnoc(ids[..i], id, entities, keep);
      assert ids[..i + 1] == ids[..i] + [id];
      if id in entities && keep(entities[id]) {
        assert id !in ids[..i];
        found := found + [entities[id]];
      }
    }
    assert ids[..|ids|] == ids;
    ByOrders(rank, name, Members(found));
    SortIsTop(By(rank, name), found, Members(found), limit);
    out := Limited(Sort(By(rank, name), found), limit);
  }

  ghost function Kept<T(!new)>(ids: seq<string>, entities: map<string, T>, keep: T -> bool): set<T> {
    set id | id in ids && id in entities && keep(entities[id]) :: entities[id]
  }

  lemma KeptSnoc<T(!new)>(ids: seq<string>, id: string, entities: map<string, T>, keep: T -> bool)
    ensures Kept(ids + [id], entities, keep)
         == Kept(ids, entities, keep) + if id in entities && keep(entities[id]) then {entities[id]} else {}
  {
  }

  lemma KeptAll<T(!new)>(ids: seq<string>, all: set<string>, entities: map<string, T>, keep: T -> bool)
    requires Members(ids) == all
    ensures Kept(ids, entities, keep) == set id | id in all && id in entities && keep(entities[id]) :: entities[id]
  {
    assert forall id :: id in ids <==> id in all;
  }

  // ---------------------------------------------------------------- records

  datatype RecordQuery = RecordQuery(
    namespace: string, projectID: string, kind: string, tags: seq<string>, humanID: string, sessionID: string,
    missionID: string, persona: string, includeDeleted: bool, includeAuditIDs: bool, limit: int)

  function NormalizeRecordQuery(q: RecordQuery): RecordQuery {
    q.(namespace := Trim(q.namespace), projectID := Trim(q.projectID), kind := Trim(q.kind), tags := TagsOf(q.tags),
       humanID := Trim(q.humanID), sessionID := Trim(q.sessionID), missionID := Trim(q.missionID),
       persona := Trim(q.persona))
  }

  predicate Wants(value: string, has: string) {
    value == "" || value == has
  }

  /** `recordMatchesQuery`: the plain scan. */
  predicate RecordMatches(r: Record, q: RecordQuery) {
    && Wants(q.namespace, r.namespace) && Wants(q.projectID, r.projectID) && Wants(q.kind, r.kind)
    && Wants(q.humanID, r.humanID) && Wants(q.sessionID, r.sessionID) && Wants(q.missionID, r.missionID)
    && Wants(q.persona, r.persona)
    && forall t :: t in q.tags ==> t in r.tags
  }

  ghost function MatchingRecords(records: map<string, Record>, q: RecordQuery): set<Record> {
    set id | id in records && (q.includeDeleted || !records[id].deleted) && RecordMatches(records[id], q) :: records[id]
  }

  /** Latest update first, then by id. */
  function RecordBefore(): (Record, Record) -> bool {
    By((r: Record) => -(r.stamp.updatedSeq as int), (r: Record) => r.id)
  }

  function TagFilters(ix: Index, tags: seq<string>): (r: seq<Filter>)
    ensures |r| == |tags| && forall i :: 0 <= i < |tags| ==> r[i] == Filter(ix, tags[i])
  {
    seq(|tags|, i requires 0 <= i < |tags| => Filter(ix, tags[i]))
  }

  function RecordFilters(ix: RecordIndexes, q: RecordQuery): seq<Filter> {
    [Filter(ix.namespace, q.namespace), Filter(ix.projectID, q.projectID), Filter(ix.kind, q.kind),
     Filter(ix.humanID, q.humanID), Filter(ix.sessionID, q.sessionID)]
    + [Filter(ix.missionID, q.missionID)] + [Filter(ix.persona, q.persona)] + TagFilters(ix.tag, q.tags)
  }

  /** One exact index admits the ids a scan of the field admits. */
  lemma AdmitsExactly<T(!new)>(ix: Index, entities: map<string, T>, values: T -> seq<string>, value: string)
    requires Exact(ix, entities, values) && "" !in entities
    ensures Fits(Filter(ix, value), entities.Keys)
    ensures forall id :: id in entities ==>
      (Admits(Filter(ix, value), id) <==> value == "" || value in values(entities[id]))
  {
    if value != "" { ExactBucket(ix, entities, values, value); }
  }

  lemma RecordCandidates(ix: RecordIndexes, records: map<string, Record>, q: RecordQuery)
    requires RecordsExact(ix, records) && "" !in records && "" !in q.tags
    ensures AllFit(RecordFilters(ix, q), records.Keys)
    ensures forall id :: id in records ==> (AllAdmit(RecordFilters(ix, q), id) <==> RecordMatches(records[id], q))
  {
    hide Exact, Admits, AllAdmit, AllFit, Fits, TagFilters;
    AdmitsExactly(ix.namespace, records, (r: Record) => [r.namespace], q.namespace);
    AdmitsExactly(ix.projectID, records, (r: Record) => [r.projectID], q.projectID);
    AdmitsExactly(ix.kind, records, (r: Record) => [r.kind], q.kind);
    AdmitsExactly(ix.humanID, records, (r: Record) => [r.humanID], q.humanID);
    AdmitsExactly(ix.sessionID, records, (r: Record) => [r.sessionID], q.sessionID);
    AdmitsExactly(ix.missionID, records, (r: Record) => [r.missionID], q.missionID);
    AdmitsExactly(ix.persona, records, (r: Record) => [r.persona], q.persona);
    var mission, persona := Filter(ix.missionID, q.missionID), Filter(ix.persona, q.persona);
    AllOfFive(Filter(ix.namespace, q.namespace), Filter(ix.projectID, q.projectID), Filter(ix.kind, q.kind),
              Filter(ix.humanID, q.humanID), Filter(ix.sessionID, q.sessionID), records.Keys);
    AllOfOne(mission, records.Keys);
    AllOfOne(persona, records.Keys);
    TagsAdmit(ix.tag, records, q.tags);
    var five := [Filter(ix.namespace, q.namespace), Filter(ix.projectID, q.projectID), Filter(ix.kind, q.kind),
                 Filter(ix.humanID, q.humanID), Filter(ix.sessionID, q.sessionID)];
    assert RecordFilters(ix, q) == five + [mission] + [persona] + TagFilters(ix.tag, q.tags);
    AllOf(five, [mission], records.Keys);
    AllOf(five + [mission], [persona], records.Keys);
    AllOf(five + [mission] + [persona], TagFilters(ix.tag, q.tags), records.Keys);
  }

  lemma TagsAdmit(ix: Index, records: map<string, Record>, tags: seq<string>)
    requires Exact(ix, records, (r: Record) => r.tags) && "" !in records && "" !in tags
    ensures AllFit(TagFilters(ix, tags), records.Keys)
    ensures forall id :: id in records ==>
      (AllAdmit(TagFilters(ix, tags), id) <==> forall t :: t in tags ==> t in records[id].tags)
  {
    hide Exact, Admits, Fits;
    var filters := TagFilters(ix, tags);
    forall t | t in tags
      ensures Fits(Filter(ix, t), records.Keys) && Filter(ix, t) in filters
      ensures forall id :: id in records ==> (Admits(Filter(ix, t), id) <==> t in records[id].tags)
    {
      AdmitsExactly(ix, records, (r: Record) => r.tags, t);
      var i :| 0 <= i < |tags| && tags[i] == t;
      assert filters[i] == Filter(ix, t);
    }
    forall f | f in filters ensures f.index == ix && f.value in tags {
      var i :| 0 <= i < |filters| && filters[i] == f;
      assert f == Filter(ix, tags[i]);
    }
  }

  datatype RecordQueryResult = RecordQueryResult(records: seq<Record>, candidateIDs: seq<string>)

  /** The records that match a query, in plain terms. */
  ghost predicate AskedFor(r: Record, query: RecordQuery) {
    && (Trim(query.namespace) == "" || r.namespace == Trim(query.namespace))
    && (Trim(query.projectID) == "" || r.projectID == Trim(query.projectID))
    && (Trim(query.kind) == "" || r.kind == Trim(query.kind))
    && (Trim(query.humanID) == "" || r.humanID == Trim(query.humanID))
    && (Trim(query.sessionID) == "" || r.sessionID == Trim(query.sessionID))
    && (Trim(query.missionID) == "" || r.missionID == Trim(query.missionID))
    && (Trim(query.persona) == "" || r.persona == Trim(query.persona))
    && (forall t :: t in query.tags && Lower(Trim(t)) != "" ==> Lower(Trim(t)) in r.tags)
  }

  /** An answer in plain terms: matching records of the store, the most recently updated first and
      ties by id; one that is left out is no more recent than any that is in, and then the limit
      is reached. The audit ids are those of all matching records, tombstones included, sorted. */
  ghost predicate RecordAnswer(records: map<string, Record>, query: RecordQuery, r: RecordQueryResult) {
    && (forall i, j :: 0 <= i < j < |r.records| ==>
          || r.records[i].stamp.updatedSeq > r.records[j].stamp.updatedSeq
          || (r.records[i].stamp.updatedSeq == r.records[j].stamp.updatedSeq && Less(r.records[i].id, r.records[j].id)))
    && (forall x :: x in r.records ==>
          && x.id in records && records[x.id] == x && AskedFor(x, query) && (query.includeDeleted || !x.deleted))
    && (forall id :: id in records && AskedFor(records[id], query) && (query.includeDeleted || !records[id].deleted)
                     && records[id] !in r.records ==>
          && 0 < query.limit == |r.records|
          && forall x :: x in r.records ==>
               || x.stamp.updatedSeq > records[id].stamp.updatedSeq
               || (x.stamp.updatedSeq == records[id].stamp.updatedSeq && Less(x.id, id)))
    && (0 < query.limit ==> |r.records| <= query.limit)
    && Members(r.candidateIDs) ==
         (if query.includeAuditIDs then set id | id in records && AskedFor(records[id], query) else {})
    && forall i, j :: 0 <= i < j < |r.candidateIDs| ==> Less(r.candidateIDs[i], r.candidateIDs[j])
  }

  lemma AskedForIff(r: Record, query: RecordQuery)
    ensures RecordMatches(r, NormalizeRecordQuery(query)) <==> AskedFor(r, query)
  {
    hide Trim, Lower;
    var tags := TagsOf(query.tags);
    assert forall t :: t in tags <==> t in Members(tags);
    assert forall t :: t in query.tags && Lower(Trim(t)) != "" ==> Lower(Trim(t)) in tags;
  }

  lemma RecordAnswerIs(records: map<string, Record>, query: RecordQuery, r: RecordQueryResult)
    requires forall id :: id in records ==> records[id].id == id
    requires var q := NormalizeRecordQuery(query);
      && TopOf(RecordBefore(), MatchingRecords(records, q), q.limit, r.records)
      && Ranks(Less, (if q.includeAuditIDs then set id | id in records && RecordMatches(records[id], q) else {}),
               r.candidateIDs)
    ensures RecordAnswer(records, query, r)
  {
    hide Less, Trim, RecordMatches, AskedFor, TopOf, Orders;
    var q := NormalizeRecordQuery(query);
    var of := MatchingRecords(records, q);
    forall id | id in records ensures RecordMatches(records[id], q) <==> AskedFor(records[id], query) {
      AskedForIff(records[id], query);
    }
    ByOrders((x: Record) => -(x.stamp.updatedSeq as int), (x: Record) => x.id, of);
    TopMeans(RecordBefore(), of, q.limit, r.records);
    assert forall id :: id in records && AskedFor(records[id], query) && (q.includeDeleted || !records[id].deleted) ==>
        records[id] in of;
  }

  /** Exactly the matching records, latest update first, cut at the limit; the audit ids are
      those of all matching records, tombstones and what was cut included. */
  method QueryRecords(s: Store, query: RecordQuery) returns (r: RecordQueryResult)
    requires s.Consistent()
    ensures RecordAnswer(s.records, query, r)
    ensures var q := NormalizeRecordQuery(query);
      && TopOf(RecordBefore(), MatchingRecords(s.records, q), q.limit, r.records)
      && (q.includeAuditIDs ==>
            Ranks(Less, (set id | id in s.records && RecordMatches(s.records[id], q)), r.candidateIDs))
  {
    hide RecordAnswer, Less, Ranks, By, RecordMatches, Indexed, Sound, TopOf, RecordFilters, AllAdmit, AllFit, Kept;
    var q := NormalizeRecordQuery(query);
    CleanTagsNotBlank(query.tags);
    StoreIDs(s);
    RecordCandidates(s.indexes, s.records, q);
    var ids := CandidateIDs(s.records.Keys, RecordFilters(s.indexes, q));
    ghost var wanted := set id | id in s.records && RecordMatches(s.records[id], q);
    assert wanted == set id | id in s.records.Keys && AllAdmit(RecordFilters(s.indexes, q), id);
    RankedIDs(wanted, ids);
    var keep := (r: Record) => (q.includeDeleted || !r.deleted) && RecordMatches(r, q);
    KeptAll(ids, wanted, s.records, keep);
    assert Kept(ids, s.records, keep) == MatchingRecords(s.records, q);
    var records := Answer(ids, s.records, keep, (r: Record) => r.id, (r: Record) => -(r.stamp.updatedSeq as int),
                          q.limit);
    r := RecordQueryResult(records, if q.includeAuditIDs then ids else []);
    NothingRanked();
    RecordAnswerIs(s.records, query, r);
  }

  lemma NothingRanked()
    ensures Ranks(Less, {}, [])
  {
  }

  lemma CleanTagsNotBlank(tags: seq<string>)
    ensures "" !in TagsOf(tags)
  {
    hide Trim, Lower;
    assert forall t :: t in TagsOf(tags) ==> t in Members(TagsOf(tags));
  }

  lemma StoreIDs(s: Store)
    requires s.Consistent()
    ensures "" !in s.records && "" !in s.chunks && "" !in s.sourceSpans
    ensures forall id :: id in s.records ==> s.records[id].id == id
    ensures forall id :: id in s.chunks ==> s.chunks[id].id == id
    ensures forall id :: id in s.sourceSpans ==> s.sourceSpans[id].id == id
    ensures forall id :: id in s.nodes ==> s.nodes[id].id == id
    ensures forall id :: id in s.edges ==> s.edges[id].id == id
    ensures RecordsExact(s.indexes, s.records) && ChunksExact(s.chunkIndexes, s.chunks)
    ensures SpansExact(s.spanIndexes, s.sourceSpans) && EdgesExact(s.graph, s.edges)
  {
    hide RecordsExact, ChunksExact, SpansExact, EdgesExact, SpanSound, EdgeSound;
  }

  // ---------------------------------------------------------------- chunks

  datatype ChunkQuery = ChunkQuery(
    namespace: string, projectID: string, sessionID: string, missionID: string, kind: string,
    minSequence: nat, maxSequence: nat, includeCandidates: bool, limit: int)

  function NormalizeChunkQuery(q: ChunkQuery): ChunkQuery {
    q.(namespace := Trim(q.namespace), projectID := Trim(q.projectID), sessionID := Trim(q.sessionID),
       missionID := Trim(q.missionID), kind := Trim(q.kind))
  }

  predicate ChunkFields(k: Chunk, q: ChunkQuery) {
    && Wants(q.namespace, k.namespace) && Wants(q.projectID, k.projectID) && Wants(q.sessionID, k.sessionID)
    && Wants(q.missionID, k.missionID) && Wants(q.kind, k.kind)
  }

  /** `chunkMatchesQuery`. */
  predicate ChunkMatches(k: Chunk, q: ChunkQuery) {
    && ChunkFields(k, q)
    && (q.minSequence > 0 ==> k.sequence >= q.minSequence)
    && (q.maxSequence > 0 ==> k.sequence <= q.maxSequence)
  }

  ghost function MatchingChunks(chunks: map<string, Chunk>, q: ChunkQuery): set<Chunk> {
    set id | id in chunks && ChunkMatches(chunks[id], q) :: chunks[id]
  }

  /** Lowest sequence first, then by id. */
  function ChunkBefore(): (Chunk, Chunk) -> bool {
    By((k: Chunk) => k.sequence as int, (k: Chunk) => k.id)
  }

  function ChunkFilters(ix: ChunkIndexes, q: ChunkQuery): seq<Filter> {
    [Filter(ix.namespace, q.namespace), Filter(ix.projectID, q.projectID), Filter(ix.sessionID, q.sessionID),
     Filter(ix.missionID, q.missionID), Filter(ix.kind, q.kind)]
  }

  lemma ChunkCandidates(ix: ChunkIndexes, chunks: map<string, Chunk>, q: ChunkQuery)
    requires ChunksExact(ix, chunks) && "" !in chunks
    ensures AllFit(ChunkFilters(ix, q), chunks.Keys)
    ensures forall id :: id in chunks ==> (AllAdmit(ChunkFilters(ix, q), id) <==> ChunkFields(chunks[id], q))
  {
    hide Exact, Admits, AllAdmit, AllFit, Fits;
    AdmitsExactly(ix.namespace, chunks, (k: Chunk) => [k.namespace], q.namespace);
    AdmitsExactly(ix.projectID, chunks, (k: Chunk) => [k.projectID], q.projectID);
    AdmitsExactly(ix.sessionID, chunks, (k: Chunk) => [k.sessionID], q.sessionID);
    AdmitsExactly(ix.missionID, chunks, (k: Chunk) => [k.missionID], q.missionID);
    AdmitsExactly(ix.kind, chunks, (k: Chunk) => [k.kind], q.kind);
    AllOfFive(Filter(ix.namespace, q.namespace), Filter(ix.projectID, q.projectID), Filter(ix.sessionID, q.sessionID),
              Filter(ix.missionID, q.missionID), Filter(ix.kind, q.kind), chunks.Keys);
  }

  datatype ChunkQueryResult = ChunkQueryResult(chunks: seq<Chunk>, candidateIDs: seq<string>)

  function ChunkIDs(chunks: seq<Chunk>): (ids: seq<string>)
    ensures |ids| == |chunks| && forall i :: 0 <= i < |chunks| ==> ids[i] == chunks[i].id
  {
    seq(|chunks|, i requires 0 <= i < |chunks| => chunks[i].id)
  }

  /** An answer in plain terms: matching chunks of the store, the lowest sequence first and ties by
      id; one that is left out is no lower than any that is in, and then the limit is reached. */
  ghost predicate ChunkAnswer(chunks: map<string, Chunk>, query: ChunkQuery, r: ChunkQueryResult) {
    && (forall i, j :: 0 <= i < j < |r.chunks| ==>
          || r.chunks[i].sequence < r.chunks[j].sequence
          || (r.chunks[i].sequence == r.chunks[j].sequence && Less(r.chunks[i].id, r.chunks[j].id)))
    && (forall x :: x in r.chunks ==> x.id in chunks && chunks[x.id] == x && ChunkAskedFor(x, query))
    && (forall id :: id in chunks && ChunkAskedFor(chunks[id], query) && chunks[id] !in r.chunks ==>
          && 0 < query.limit == |r.chunks|
          && forall x :: x in r.chunks ==>
               || x.sequence < chunks[id].sequence || (x.sequence == chunks[id].sequence && Less(x.id, id)))
    && (0 < query.limit ==> |r.chunks| <= query.limit)
    && |r.candidateIDs| == (if query.includeCandidates then |r.chunks| else 0)
    && forall i :: 0 <= i < |r.candidateIDs| ==> r.candidateIDs[i] == r.chunks[i].id
  }

  ghost predicate ChunkAskedFor(k: Chunk, query: ChunkQuery) {
    && (Trim(query.namespace) == "" || k.namespace == Trim(query.namespace))
    && (Trim(query.projectID) == "" || k.projectID == Trim(query.projectID))
    && (Trim(query.sessionID) == "" || k.sessionID == Trim(query.sessionID))
    && (Trim(query.missionID) == "" || k.missionID == Trim(query.missionID))
    && (Trim(query.kind) == "" || k.kind == Trim(query.kind))
    && query.minSequence <= k.sequence
    && (query.maxSequence > 0 ==> k.sequence <= query.maxSequence)
  }

  lemma ChunkAskedForIff(k: Chunk, query: ChunkQuery)
    ensures ChunkMatches(k, NormalizeChunkQuery(query)) <==> ChunkAskedFor(k, query)
  {
    hide Trim;
  }

  lemma ChunkAnswerIs(chunks: map<string, Chunk>, query: ChunkQuery, r: ChunkQueryResult)
    requires forall id :: id in chunks ==> chunks[id].id == id
    requires var q := NormalizeChunkQuery(query);
      && TopOf(ChunkBefore(), MatchingChunks(chunks, q), q.limit, r.chunks)
      && r.candidateIDs == if q.includeCandidates then ChunkIDs(r.chunks) else []
    ensures ChunkAnswer(chunks, query, r)
  {
    hide Less, Trim, ChunkMatches, ChunkAskedFor, TopOf, Orders;
    var q := NormalizeChunkQuery(query);
    var of := MatchingChunks(chunks, q);
    forall id | id in chunks ensures ChunkMatches(chunks[id], q) <==> ChunkAskedFor(chunks[id], query) {
      ChunkAskedForIff(chunks[id], query);
    }
    ByOrders((x: Chunk) => x.sequence as int, (x: Chunk) => x.id, of);
    TopMeans(ChunkBefore(), of, q.limit, r.chunks);
    assert forall id :: id in chunks && ChunkAskedFor(chunks[id], query) ==> chunks[id] in of;
  }

  /** Exactly the matching chunks, in sequence order, cut at the limit; the candidate ids are
      those of the answer, in its order. */
  method QueryChunks(s: Store, query: ChunkQuery) returns (r: ChunkQueryResult)
    requires s.Consistent()
    ensures ChunkAnswer(s.chunks, query, r)
    ensures var q := NormalizeChunkQuery(query);
      && TopOf(ChunkBefore(), MatchingChunks(s.chunks, q), q.limit, r.chunks)
      && r.candidateIDs == if q.includeCandidates then ChunkIDs(r.chunks) else []
  {
    hide ChunkAnswer, Less, Ranks, By, ChunkFields, Indexed, Sound, TopOf, ChunkFilters, AllAdmit, AllFit, Kept;
    var q := NormalizeChunkQuery(query);
    StoreIDs(s);
    ChunkCandidates(s.chunkIndexes, s.chunks, q);
    var ids := CandidateIDs(s.chunks.Keys, ChunkFilters(s.chunkIndexes, q));
    ghost var wanted := set id | id in s.chunks && ChunkFields(s.chunks[id], q);
    assert wanted == set id | id in s.chunks.Keys && AllAdmit(ChunkFilters(s.chunkIndexes, q), id);
    RankedIDs(wanted, ids);
    var keep := (k: Chunk) => ChunkMatches(k, q);
    KeptAll(ids, wanted, s.chunks, keep);
    assert Kept(ids, s.chunks, keep) == MatchingChunks(s.chunks, q);
    var chunks := Answer(ids, s.chunks, keep, (k: Chunk) => k.id, (k: Chunk) => k.sequence as int, q.limit);
    var candidates: seq<string> := [];
    if q.includeCandidates {
      for i := 0 to |chunks|
        invariant candidates == ChunkIDs(chunks)[..i]
      {
        candidates := candidates + [chunks[i].id];
      }
    }
    r := ChunkQueryResult(chunks, candidates);
    ChunkAnswerIs(s.chunks, query, r);
  }

  // ---------------------------------------------------------------- source spans

  datatype SpanQuery = SpanQuery(
    namespace: string, projectID: string, sessionID: string, missionID: string, recordID: string,
    includeCandidates: bool, limit: int)

  function NormalizeSpanQuery(q: SpanQuery): SpanQuery {
    q.(namespace := Trim(q.namespace), projectID := Trim(q.projectID), sessionID := Trim(q.sessionID),
       missionID := Trim(q.missionID), recordID := Trim(q.recordID))
  }

  /** `sourceSpanMatchesQuery`. */
  predicate SpanMatches(s: SourceSpan, q: SpanQuery) {
    && Wants(q.namespace, s.namespace) && Wants(q.projectID, s.projectID) && Wants(q.sessionID, s.sessionID)
    && Wants(q.missionID, s.missionID) && Wants(q.recordID, s.recordID)
  }

  ghost function MatchingSpans(spans: map<string, SourceSpan>, q: SpanQuery): set<SourceSpan> {
    set id | id in spans && SpanMatches(spans[id], q) :: spans[id]
  }

  function SpanBefore(): (SourceSpan, SourceSpan) -> bool {
    By((s: SourceSpan) => -(s.stamp.updatedSeq as int), (s: SourceSpan) => s.id)
  }

  function SpanFilters(ix: SpanIndexes, q: SpanQuery): seq<Filter> {
    [Filter(ix.namespace, q.namespace), Filter(ix.projectID, q.projectID), Filter(ix.sessionID, q.sessionID),
     Filter(ix.missionID, q.missionID), Filter(ix.recordID, q.recordID)]
  }

  lemma SpanCandidates(ix: SpanIndexes, spans: map<string, SourceSpan>, q: SpanQuery)
    requires SpansExact(ix, spans) && "" !in spans
    ensures AllFit(SpanFilters(ix, q), spans.Keys)
    ensures forall id :: id in spans ==> (AllAdmit(SpanFilters(ix, q), id) <==> SpanMatches(spans[id], q))
  {
    hide Exact, Admits, AllAdmit, AllFit, Fits;
    AdmitsExactly(ix.namespace, spans, (s: SourceSpan) => [s.namespace], q.namespace);
    AdmitsExactly(ix.projectID, spans, (s: SourceSpan) => [s.projectID], q.projectID);
    AdmitsExactly(ix.sessionID, spans, (s: SourceSpan) => [s.sessionID], q.sessionID);
    AdmitsExactly(ix.missionID, spans, (s: SourceSpan) => [s.missionID], q.missionID);
    AdmitsExactly(ix.recordID, spans, (s: SourceSpan) => [s.recordID], q.recordID);
    AllOfFive(Filter(ix.namespace, q.namespace), Filter(ix.projectID, q.projectID), Filter(ix.sessionID, q.sessionID),
              Filter(ix.missionID, q.missionID), Filter(ix.recordID, q.recordID), spans.Keys);
  }

  datatype SpanQueryResult = SpanQueryResult(spans: seq<SourceSpan>, candidateIDs: seq<string>)

  /** An answer in plain terms, as for records; the candidate ids are those of the answer, sorted. */
  ghost predicate SpanAnswer(spans: map<string, SourceSpan>, query: SpanQuery, r: SpanQueryResult) {
    && (forall i, j :: 0 <= i < j < |r.spans| ==>
          || r.spans[i].stamp.updatedSeq > r.spans[j].stamp.updatedSeq
          || (r.spans[i].stamp.updatedSeq == r.spans[j].stamp.updatedSeq && Less(r.spans[i].id, r.spans[j].id)))
    && (forall x :: x in r.spans ==> x.id in spans && spans[x.id] == x && SpanAskedFor(x, query))
    && (forall id :: id in spans && SpanAskedFor(spans[id], query) && spans[id] !in r.spans ==>
          && 0 < query.limit == |r.spans|
          && forall x :: x in r.spans ==>
               || x.stamp.updatedSeq > spans[id].stamp.updatedSeq
               || (x.stamp.updatedSeq == spans[id].stamp.updatedSeq && Less(x.id, id)))
    && (0 < query.limit ==> |r.spans| <= query.limit)
    && Members(r.candidateIDs) == (if query.includeCandidates then set x | x in r.spans :: x.id else {})
    && forall i, j :: 0 <= i < j < |r.candidateIDs| ==> Less(r.candidateIDs[i], r.candidateIDs[j])
  }

  ghost predicate SpanAskedFor(x: SourceSpan, query: SpanQuery) {
    && (Trim(query.namespace) == "" || x.namespace == Trim(query.namespace))
    && (Trim(query.projectID) == "" || x.projectID == Trim(query.projectID))
    && (Trim(query.sessionID) == "" || x.sessionID == Trim(query.sessionID))
    && (Trim(query.missionID) == "" || x.missionID == Trim(query.missionID))
    && (Trim(query.recordID) == "" || x.recordID == Trim(query.recordID))
  }

  lemma SpanAskedForIff(x: SourceSpan, query: SpanQuery)
    ensures SpanMatches(x, NormalizeSpanQuery(query)) <==> SpanAskedFor(x, query)
  {
    hide Trim;
  }

  lemma SpanAnswerIs(spans: map<string, SourceSpan>, query: SpanQuery, r: SpanQueryResult)
    requires forall id :: id in spans ==> spans[id].id == id
    requires var q := NormalizeSpanQuery(query);
      && TopOf(SpanBefore(), MatchingSpans(spans, q), q.limit, r.spans)
      && Ranks(Less, (if q.includeCandidates then set x | x in r.spans :: x.id else {}), r.candidateIDs)
    ensures SpanAnswer(spans, query, r)
  {
    hide Less, Trim, SpanMatches, SpanAskedFor, TopOf, Orders;
    var q := NormalizeSpanQuery(query);
    var of := MatchingSpans(spans, q);
    forall id | id in spans ensures SpanMatches(spans[id], q) <==> SpanAskedFor(spans[id], query) {
      SpanAskedForIff(spans[id], query);
    }
    ByOrders((x: SourceSpan) => -(x.stamp.updatedSeq as int), (x: SourceSpan) => x.id, of);
    TopMeans(SpanBefore(), of, q.limit, r.spans);
    assert forall id :: id in spans && SpanAskedFor(spans[id], query) ==> spans[id] in of;
  }

  /** Exactly the matching spans, latest first, cut at the limit; the candidate ids are those of
      the answer, sorted. */
  method QuerySourceSpans(s: Store, query: SpanQuery) returns (r: SpanQueryResult)
    requires s.Consistent()
    ensures SpanAnswer(s.sourceSpans, query, r)
    ensures var q := NormalizeSpanQuery(query);
      && TopOf(SpanBefore(), MatchingSpans(s.sourceSpans, q), q.limit, r.spans)
      && if q.includeCandidates then Ranks(Less, (set x | x in r.spans :: x.id), r.candidateIDs)
         else r.candidateIDs == []
  {
    hide SpanAnswer, Less, Ranks, By, SpanMatches, Indexed, Sound, TopOf, SpanFilters, AllAdmit, AllFit, Kept;
    var q := NormalizeSpanQuery(query);
    StoreIDs(s);
    SpanCandidates(s.spanIndexes, s.sourceSpans, q);
    var ids := CandidateIDs(s.sourceSpans.Keys, SpanFilters(s.spanIndexes, q));
    ghost var wanted := set id | id in s.sourceSpans && SpanMatches(s.sourceSpans[id], q);
    assert wanted == set id | id in s.sourceSpans.Keys && AllAdmit(SpanFilters(s.spanIndexes, q), id);
    RankedIDs(wanted, ids);
    var keep := (x: SourceSpan) => SpanMatches(x, q);
    KeptAll(ids, wanted, s.sourceSpans, keep);
    assert Kept(ids, s.sourceSpans, keep) == MatchingSpans(s.sourceSpans, q);
    var spans := Answer(
      ids, s.sourceSpans, keep, (x: SourceSpan) => x.id, (x: SourceSpan) => -(x.stamp.updatedSeq as int), q.limit);
    var candidates: seq<string> := [];
    if q.includeCandidates { candidates := Listed(set x | x in spans :: x.id); }
    r := SpanQueryResult(spans, candidates);
    NothingRanked();
    SpanAnswerIs(s.sourceSpans, query, r);
  }

  datatype SpanRead = SpanRead(span: SourceSpan, chunks: seq<Chunk>)

  /** What a read of span `s` returns: its refs in chunk order again, and the chunk of each. */
  ghost predicate ReadOf(chunks: map<string, Chunk>, s: SourceSpan, r: SpanRead) {
    && r.span == s.(chunkRefs := r.span.chunkRefs)
    && multiset(r.span.chunkRefs) == multiset(s.chunkRefs)
    && RefIDs(r.span.chunkRefs) == RefIDs(s.chunkRefs)
    && |r.chunks| == |s.chunkRefs|
    && forall i :: 0 <= i < |r.chunks| ==>
         s.chunkRefs[i].chunkID in chunks && r.chunks[i] == chunks[s.chunkRefs[i].chunkID]
  }

  /** Reading a stored span never fails, and sorting its refs again changes at most the order of
      refs to one and the same chunk. */
  method ReadSpan(s: Store, span: SourceSpan) returns (r: Result<SpanRead>)
    requires SpanSound(s.Data(), span)
    ensures r.Ok? && ReadOf(s.chunks, span, r.value)
  {
    hide Less, RefLess, Ordered, SortRefs, Sort, SequenceOf;
    var refs := SortRefs(s.chunks, span.chunkRefs);
    SortRefsSorts(s.chunks, span.chunkRefs);
    SortedRefsAgree(s.chunks, refs, span.chunkRefs);
    var chunks := [];
    for i := 0 to |refs|
      invariant |chunks| == i
      invariant forall j :: 0 <= j < i ==> refs[j].chunkID in s.chunks && chunks[j] == s.chunks[refs[j].chunkID]
    {
      assert refs[i] in refs && RefSound(s.chunks, refs[i]);
      if refs[i].chunkID !in s.chunks { return Err(NotFound); }
      chunks := chunks + [s.chunks[refs[i].chunkID]];
    }
    assert forall i :: 0 <= i < |refs| ==> RefIDs(refs)[i] == RefIDs(span.chunkRefs)[i];
    r := Ok(SpanRead(span.(chunkRefs := refs), chunks));
  }

  method ReadSourceSpan(s: Store, id: string) returns (r: Option<Result<SpanRead>>)
    requires s.Consistent()
    ensures r.Some? <==> Trim(id) in s.sourceSpans
    ensures r.Some? ==> r.value.Ok? && ReadOf(s.chunks, s.sourceSpans[Trim(id)], r.value.value)
  {
    hide Trim, Indexed, Filed, SpanSound, ReadOf;
    if Trim(id) !in s.sourceSpans { return None; }
    var read := ReadSpan(s, s.sourceSpans[Trim(id)]);
    r := Some(read);
  }
}
