/** Laws over all six entity maps and over whole histories: conservation of revisions,
    distinct sequence numbers, optimistic concurrency, permanence of tombstones, and the
    idempotency table. */
module Laws {
  import opened Types
  import opened Text
  import opened Normalize
  import opened Catalogs

  datatype Sort = RecordSort | ChunkSort | SpanSort | NodeSort | EdgeSort | PurgeSort

  /** The name of one entity across the six maps. */
  datatype Key = Key(sort: Sort, id: string)

  ghost predicate Holds(c: Catalog, k: Key) {
    match k.sort
    case RecordSort => k.id in c.records
    case ChunkSort => k.id in c.chunks
    case SpanSort => k.id in c.sourceSpans
    case NodeSort => k.id in c.nodes
    case EdgeSort => k.id in c.edges
    case PurgeSort => k.id in c.purgeRequests
  }

  ghost function StampOf(c: Catalog, k: Key): Stamp
    requires Holds(c, k)
  {
    match k.sort
    case RecordSort => c.records[k.id].stamp
    case ChunkSort => c.chunks[k.id].stamp
    case SpanSort => c.sourceSpans[k.id].stamp
    case NodeSort => c.nodes[k.id].stamp
    case EdgeSort => c.edges[k.id].stamp
    case PurgeSort => c.purgeRequests[k.id].stamp
  }

  ghost function Keys(c: Catalog): (s: set<Key>)
    ensures forall k :: k in s <==> Holds(c, k)
  {
    (set id | id in c.records :: Key(RecordSort, id))
    + (set id | id in c.chunks :: Key(ChunkSort, id))
    + (set id | id in c.sourceSpans :: Key(SpanSort, id))
    + (set id | id in c.nodes :: Key(NodeSort, id))
    + (set id | id in c.edges :: Key(EdgeSort, id))
    + (set id | id in c.purgeRequests :: Key(PurgeSort, id))
  }

  /** Every stamp of the catalog, in one map. */
  ghost function Stamps(c: Catalog): (s: map<Key, Stamp>)
    ensures forall k :: k in s <==> Holds(c, k)
    ensures forall k :: k in s ==> s[k] == StampOf(c, k)
  {
    map k | k in Keys(c) :: StampOf(c, k)
  }

  /** The entity a mutation is about. */
  function Target(m: Mutation): Key {
    match m.kind
    case CreateRecord => Key(RecordSort, m.record.id)
    case UpdateRecord => Key(RecordSort, m.record.id)
    case DeleteRecord => Key(RecordSort, m.record.id)
    case CreateChunk => Key(ChunkSort, m.chunk.id)
    case CreateSourceSpan => Key(SpanSort, m.sourceSpan.id)
    case CreateNode => Key(NodeSort, m.node.id)
    case UpdateNode => Key(NodeSort, m.node.id)
    case DeleteNode => Key(NodeSort, m.node.id)
    case CreateEdge => Key(EdgeSort, m.edge.id)
    case DeleteEdge => Key(EdgeSort, m.edge.id)
    case CreatePurgeRequest => Key(PurgeSort, m.purgeRequest.id)
    case Unknown => Key(RecordSort, "")
  }

  predicate Revises(k: MutationType) {
    k == UpdateRecord || k == DeleteRecord || k == UpdateNode || k == DeleteNode || k == DeleteEdge
  }

  /** Entities that can be deleted are stored under their own id. */
  ghost predicate Keyed(c: Catalog) {
    && (forall id :: id in c.records ==> c.records[id].id == id)
    && (forall id :: id in c.nodes ==> c.nodes[id].id == id)
    && (forall id :: id in c.edges ==> c.edges[id].id == id)
  }

  /** The stamp the target has after an accepted mutation. */
  ghost function NextStamp(s: map<Key, Stamp>, n: nat, m: Mutation, clock: Time): Stamp {
    var k := Target(m);
    if k in s then Bumped(s[k], n, AtOr(m, clock)) else Born(n, AtOr(m, clock))
  }

  function KeyOf(e: Entity): Key {
    match e
    case RecordEntity(r) => Key(RecordSort, r.id)
    case ChunkEntity(k) => Key(ChunkSort, k.id)
    case SpanEntity(s) => Key(SpanSort, s.id)
    case NodeEntity(v) => Key(NodeSort, v.id)
    case EdgeEntity(g) => Key(EdgeSort, g.id)
    case PurgeEntity(p) => Key(PurgeSort, p.id)
  }

  function EntityStamp(e: Entity): Stamp {
    match e
    case RecordEntity(r) => r.stamp
    case ChunkEntity(k) => k.stamp
    case SpanEntity(s) => s.stamp
    case NodeEntity(v) => v.stamp
    case EdgeEntity(g) => g.stamp
    case PurgeEntity(p) => p.stamp
  }

  // ---------------------------------------------------------------- one step, all kinds

  lemma StampsSet(c: Catalog, d: Catalog, k: Key, v: Stamp)
    requires Holds(d, k) && StampOf(d, k) == v
    requires forall j :: j != k ==> (Holds(d, j) <==> Holds(c, j))
    requires forall j :: j != k && Holds(d, j) ==> StampOf(d, j) == StampOf(c, j)
    ensures Stamps(d) == Stamps(c)[k := v]
  {
    hide Holds, StampOf, Keys, Stamps;
    var s := Stamps(c)[k := v];
    assert forall j :: j in Stamps(d) <==> j in s;
    assert forall j :: j in s ==> Stamps(d)[j] == s[j];
  }

  lemma PutFields(c: Catalog, e: Entity)
    ensures var d := Put(c, e);
      && d.records == (if e.RecordEntity? then c.records[e.record.id := e.record] else c.records)
      && d.chunks == (if e.ChunkEntity? then c.chunks[e.chunk.id := e.chunk] else c.chunks)
      && d.sourceSpans == (if e.SpanEntity? then c.sourceSpans[e.span.id := e.span] else c.sourceSpans)
      && d.nodes == (if e.NodeEntity? then c.nodes[e.node.id := e.node] else c.nodes)
      && d.edges == (if e.EdgeEntity? then c.edges[e.edge.id := e.edge] else c.edges)
      && d.purgeRequests == (if e.PurgeEntity? then c.purgeRequests[e.purge.id := e.purge] else c.purgeRequests)
      && d.idempotency == c.idempotency && d.durableSeq == c.durableSeq
  {
    match e {
      case RecordEntity(_) => case ChunkEntity(_) => case SpanEntity(_) =>
      case NodeEntity(_) => case EdgeEntity(_) => case PurgeEntity(_) =>
    }
  }

  lemma PutHolds(c: Catalog, e: Entity, j: Key)
    ensures Holds(Put(c, e), j) <==> j == KeyOf(e) || Holds(c, j)
    ensures Holds(Put(c, e), j) ==>
      StampOf(Put(c, e), j) == if j == KeyOf(e) then EntityStamp(e) else StampOf(c, j)
  {
    hide Put;
    PutFields(c, e);
    match j.sort {
      case RecordSort => case ChunkSort => case SpanSort => case NodeSort => case EdgeSort => case PurgeSort =>
    }
  }

  /** Storing an entity sets its stamp and no other. */
  lemma PutStamps(c: Catalog, e: Entity)
    ensures Stamps(Put(c, e)) == Stamps(c)[KeyOf(e) := EntityStamp(e)]
  {
    hide Stamps, Put, Holds, StampOf, KeyOf, EntityStamp;
    forall j
      ensures Holds(Put(c, e), j) <==> j == KeyOf(e) || Holds(c, j)
      ensures Holds(Put(c, e), j) ==>
        StampOf(Put(c, e), j) == if j == KeyOf(e) then EntityStamp(e) else StampOf(c, j)
    {
      PutHolds(c, e, j);
    }
    StampsSet(c, Put(c, e), KeyOf(e), EntityStamp(e));
  }

  lemma RecordedStamps(c: Catalog, n: nat, m: Mutation, r: ApplyResult)
    ensures Stamps(Recorded(c, n, m, r)) == Stamps(c)
  {
    hide Stamps;
    var d := Recorded(c, n, m, r);
    assert forall j :: Holds(d, j) <==> Holds(c, j);
    assert forall j :: j in Stamps(d) <==> j in Stamps(c);
    assert forall j :: j in Stamps(d) ==> Stamps(d)[j] == Stamps(c)[j];
  }

  /** The entity made from `m` is its target: new under a creating mutation, and otherwise the
      live one that is there, found at the revision the mutation names. */
  ghost predicate Targets(c: Catalog, n: nat, m: Mutation, clock: Time, e: Entity) {
    && KeyOf(e) == Target(m)
    && (Revises(m.kind) <==> Holds(c, Target(m)))
    && (Revises(m.kind) ==> EntityStamp(e) == Bumped(StampOf(c, Target(m)), n, AtOr(m, clock)))
    && (!Revises(m.kind) ==> EntityStamp(e) == Born(n, AtOr(m, clock)))
    && (Revises(m.kind) && m.expectedRevision > 0 ==> StampOf(c, Target(m)).revision == m.expectedRevision)
  }

  lemma MaterializeTargets(c: Catalog, n: nat, m: Mutation, clock: Time)
    requires Keyed(c) && Normalized(m) && Materialize(c, n, m, clock).Ok?
    ensures Targets(c, n, m, clock, Materialize(c, n, m, clock).value)
  {
    hide Trim, Trimmed, ValidateSpanReferences, SortRefs, ValidateEdgeEndpoints, Born, Bumped, AtOr;
    hide ValidateRecord, ValidateChunk, ValidateSpan, ValidateNode, ValidateEdge, ValidatePurge;
    TrimFixes(m.record.id);
    TrimFixes(m.node.id);
    TrimFixes(m.edge.id);
    match m.kind {
      case CreateRecord => case UpdateRecord => case DeleteRecord =>
      case CreateChunk => case CreateSourceSpan => case CreatePurgeRequest =>
      case CreateNode => case UpdateNode => case DeleteNode =>
      case CreateEdge => case DeleteEdge =>
    }
  }

  lemma PutKeyed(c: Catalog, e: Entity)
    requires Keyed(c)
    ensures Keyed(Put(c, e))
  {
  }

  /** Every one of the eleven mutations touches exactly one stamp: a create puts a first
      stamp where there was none, an update or delete raises the one that is there. */
  lemma StepTouchesOne(c: Catalog, n: nat, m: Mutation, clock: Time)
    requires Keyed(c) && Normalized(m) && !KnownKey(c, m) && Step(c, n, m, clock).Ok?
    ensures Stamps(Step(c, n, m, clock).value.catalog)
         == Stamps(c)[Target(m) := NextStamp(Stamps(c), n, m, clock)]
    ensures Revises(m.kind) <==> Target(m) in Stamps(c)
    ensures Keyed(Step(c, n, m, clock).value.catalog)
    ensures Revises(m.kind) && m.expectedRevision > 0 ==> Stamps(c)[Target(m)].revision == m.expectedRevision
  {
    hide Materialize, Stamps, Normalized, Holds, StampOf, Put, Target, Revises, KeyOf, EntityStamp, Born, Bumped;
    MaterializeTargets(c, n, m, clock);
    var e := Materialize(c, n, m, clock).value;
    PutStamps(c, e);
    PutKeyed(c, e);
    RecordedStamps(Put(c, e), n, m, ApplyResult(n, e, false));
  }

  // ---------------------------------------------------------------- conservation

  ghost function Total(s: map<Key, Stamp>): nat {
    if s == map[] then 0
    else
      var k :| k in s;
      s[k].revision + Total(s - {k})
  }

  lemma {:induction false} TotalWithout(s: map<Key, Stamp>, k: Key)
    requires k in s
    ensures Total(s) == s[k].revision + Total(s - {k})
    decreases |s|
  {
    var j :| j in s && Total(s) == s[j].revision + Total(s - {j});
    if j != k {
      TotalWithout(s - {j}, k);
      TotalWithout(s - {k}, j);
      assert s - {j} - {k} == s - {k} - {j};
    }
  }

  lemma TotalUpdate(s: map<Key, Stamp>, k: Key, v: Stamp)
    ensures Total(s[k := v]) == Total(s) - (if k in s then s[k].revision else 0) + v.revision
  {
    var t := s[k := v];
    TotalWithout(t, k);
    assert t - {k} == s - {k};
    if k in s { TotalWithout(s, k); } else { assert s - {k} == s; }
  }

  /** Every step that is not an idempotent hit adds exactly one revision to the store. */
  lemma StepAddsOneRevision(c: Catalog, n: nat, m: Mutation, clock: Time)
    requires Keyed(c) && Normalized(m) && Step(c, n, m, clock).Ok?
    ensures Keyed(Step(c, n, m, clock).value.catalog)
    ensures Total(Stamps(Step(c, n, m, clock).value.catalog))
         == Total(Stamps(c)) + if KnownKey(c, m) then 0 else 1
  {
    if !KnownKey(c, m) {
      hide Materialize, Stamps, Normalized, Keyed, Step, Total;
      StepTouchesOne(c, n, m, clock);
      TotalUpdate(Stamps(c), Target(m), NextStamp(Stamps(c), n, m, clock));
    }
  }

  /** The sum of all revisions is the watermark, no two entities were last written by the same
      mutation, and creation never follows the last update. */
  ghost predicate Conserved(s: map<Key, Stamp>, d: nat) {
    && Total(s) == d
    && (forall k :: k in s ==> 1 <= s[k].createdSeq <= s[k].updatedSeq <= d)
    && (forall k :: k in s ==> 1 <= s[k].revision <= s[k].updatedSeq - s[k].createdSeq + 1)
    && (forall j, k :: j in s && k in s && j != k ==> s[j].updatedSeq != s[k].updatedSeq)
    && (forall j, k :: j in s && k in s && j != k ==> s[j].createdSeq != s[k].createdSeq)
  }

  lemma ConservedStep(s: map<Key, Stamp>, d: nat, m: Mutation, clock: Time)
    requires Conserved(s, d)
    ensures Conserved(s[Target(m) := NextStamp(s, d + 1, m, clock)], d + 1)
  {
    hide Total, Target;
    TotalUpdate(s, Target(m), NextStamp(s, d + 1, m, clock));
  }

  lemma {:induction false} HistoryConserves(h: History)
    requires Legal(h)
    ensures Keyed(Fold(h)) && Conserved(Stamps(Fold(h)), |h|)
  {
    if h == [] {
      assert Stamps(EMPTY_CATALOG) == map[];
    } else {
      hide Accepts, Legal, Step, Fold, Stamps, Keyed, Conserved;
      var n := |h| - 1;
      LegalPrefix(h, n);
      HistoryConserves(h[..n]);
      LegalStep(h, n);
      assert h[..n + 1] == h;
      AcceptedFacts(Fold(h[..n]), h[n]);
      StepTouchesOne(Fold(h[..n]), n + 1, h[n], 0);
      ConservedStep(Stamps(Fold(h[..n])), n, h[n], 0);
    }
  }

  lemma AcceptedFacts(c: Catalog, m: Mutation)
    requires Accepts(c, m)
    ensures Normalized(m) && !KnownKey(c, m) && m.at > 0
  {
    hide Normalized, Preflight;
  }

  /** One step of a legal history, as its stamps see it. */
  lemma HistoryTouchesOne(h: History, i: nat)
    requires Legal(h) && i < |h|
    ensures var before, after := Stamps(Fold(h[..i])), Stamps(Fold(h[..i + 1]));
      && after == before[Target(h[i]) := NextStamp(before, i + 1, h[i], 0)]
      && (Revises(h[i].kind) <==> Target(h[i]) in before)
      && (Revises(h[i].kind) && h[i].expectedRevision > 0 ==>
            before[Target(h[i])].revision == h[i].expectedRevision)
  {
    hide Accepts, Legal, Step, Fold, Stamps, Keyed, Conserved, Target, NextStamp, Revises;
    LegalPrefix(h, i);
    HistoryConserves(h[..i]);
    LegalStep(h, i);
    AcceptedFacts(Fold(h[..i]), h[i]);
    StepTouchesOne(Fold(h[..i]), i + 1, h[i], 0);
  }

  // ---------------------------------------------------------------- concurrency

  /** No entity ever leaves its map, and its revision only grows. */
  lemma {:induction false} RevisionsGrow(h: History, i: nat, j: nat, k: Key)
    requires Legal(h) && i <= j <= |h| && k in Stamps(Fold(h[..i]))
    ensures k in Stamps(Fold(h[..j]))
    ensures Stamps(Fold(h[..i]))[k].revision <= Stamps(Fold(h[..j]))[k].revision
    ensures Stamps(Fold(h[..i]))[k].createdSeq == Stamps(Fold(h[..j]))[k].createdSeq
    decreases j - i
  {
    hide Accepts, Legal, Step, Fold, Stamps, Target, Revises, Holds, StampOf;
    if i < j {
      RevisionsGrow(h, i, j - 1, k);
      HistoryTouchesOne(h, j - 1);
    }
  }

  /** Optimistic concurrency over a whole history: of all updates and deletes of one entity
      that name the same expected revision, at most one was ever accepted. */
  lemma OneWriterPerRevision(h: History, i: nat, j: nat)
    requires Legal(h) && i < j < |h|
    requires Revises(h[i].kind) && Revises(h[j].kind) && Target(h[i]) == Target(h[j])
    requires h[i].expectedRevision > 0 && h[j].expectedRevision > 0
    ensures h[i].expectedRevision < h[j].expectedRevision
  {
    hide Accepts, Legal, Step, Fold, Stamps, Target, Revises;
    HistoryTouchesOne(h, i);
    HistoryTouchesOne(h, j);
    RevisionsGrow(h, i + 1, j, Target(h[i]));
  }

  // ---------------------------------------------------------------- tombstones

  /** Every tombstone of `c` is in `d`, unchanged, and nothing `c` holds is missing in `d`. */
  ghost predicate KeepsTombstones(c: Catalog, d: Catalog) {
    && (forall id :: id in c.records && c.records[id].deleted ==> id in d.records && d.records[id] == c.records[id])
    && (forall id :: id in c.nodes && c.nodes[id].deleted ==> id in d.nodes && d.nodes[id] == c.nodes[id])
    && (forall id :: id in c.edges && c.edges[id].deleted ==> id in d.edges && d.edges[id] == c.edges[id])
  }

  /** Chunks, spans and purge requests never change once created. */
  ghost predicate KeepsImmutable(c: Catalog, d: Catalog) {
    && (forall id :: id in c.chunks ==> id in d.chunks && d.chunks[id] == c.chunks[id])
    && (forall id :: id in c.sourceSpans ==> id in d.sourceSpans && d.sourceSpans[id] == c.sourceSpans[id])
    && (forall id :: id in c.purgeRequests ==> id in d.purgeRequests && d.purgeRequests[id] == c.purgeRequests[id])
  }

  /** An entity is only ever written over a live one, and chunks, spans and purge requests
      over nothing. */
  ghost predicate NewOrLive(c: Catalog, e: Entity) {
    match e
    case RecordEntity(r) => r.id in c.records ==> !c.records[r.id].deleted
    case ChunkEntity(k) => k.id !in c.chunks
    case SpanEntity(s) => s.id !in c.sourceSpans
    case NodeEntity(v) => v.id in c.nodes ==> !c.nodes[v.id].deleted
    case EdgeEntity(g) => g.id in c.edges ==> !c.edges[g.id].deleted
    case PurgeEntity(p) => p.id !in c.purgeRequests
  }

  lemma MaterializeNewOrLive(c: Catalog, n: nat, m: Mutation, clock: Time)
    requires Keyed(c) && Materialize(c, n, m, clock).Ok?
    ensures NewOrLive(c, Materialize(c, n, m, clock).value)
  {
    hide Trim, ValidateSpanReferences, SortRefs, ValidateEdgeEndpoints, Born, Bumped, AtOr;
    match m.kind {
      case CreateRecord => case UpdateRecord => case DeleteRecord =>
      case CreateChunk => case CreateSourceSpan => case CreatePurgeRequest =>
      case CreateNode => case UpdateNode => case DeleteNode =>
      case CreateEdge => case DeleteEdge =>
      case Unknown =>
    }
  }

  lemma PutKeeps(c: Catalog, e: Entity)
    requires NewOrLive(c, e)
    ensures KeepsTombstones(c, Put(c, e)) && KeepsImmutable(c, Put(c, e))
  {
  }

  lemma KeepsTransitively(c: Catalog, d: Catalog, e: Catalog)
    requires KeepsTombstones(c, d) && KeepsTombstones(d, e) && KeepsImmutable(c, d) && KeepsImmutable(d, e)
    ensures KeepsTombstones(c, e) && KeepsImmutable(c, e)
  {
  }

  lemma StepKeeps(c: Catalog, n: nat, m: Mutation, clock: Time)
    requires Keyed(c) && Step(c, n, m, clock).Ok?
    ensures KeepsTombstones(c, Step(c, n, m, clock).value.catalog)
    ensures KeepsImmutable(c, Step(c, n, m, clock).value.catalog)
  {
    hide Materialize, Keyed, NewOrLive;
    if !KnownKey(c, m) {
      MaterializeNewOrLive(c, n, m, clock);
      PutKeeps(c, Materialize(c, n, m, clock).value);
    }
  }

  /** A deleted record, node or edge is never live again and never written again. */
  lemma {:induction false} TombstonesArePermanent(h: History, i: nat, j: nat)
    requires Legal(h) && i <= j <= |h|
    ensures KeepsTombstones(Fold(h[..i]), Fold(h[..j]))
    ensures KeepsImmutable(Fold(h[..i]), Fold(h[..j]))
    decreases j - i
  {
    hide Accepts, Legal, Step, Fold, Keyed, Stamps, Conserved;
    if i < j {
      hide KeepsTombstones, KeepsImmutable;
      TombstonesArePermanent(h, i, j - 1);
      LegalPrefix(h, j - 1);
      HistoryConserves(h[..j - 1]);
      LegalStep(h, j - 1);
      StepKeeps(Fold(h[..j - 1]), j, h[j - 1], 0);
      KeepsTransitively(Fold(h[..i]), Fold(h[..j - 1]), Fold(h[..j]));
    }
  }

  // ---------------------------------------------------------------- idempotency keys

  /** The result mutation `i` of a legal history produced. */
  ghost function ResultAt(h: History, i: nat): ApplyResult
    requires Legal(h) && i < |h|
  {
    LegalStep(h, i);
    Step(Fold(h[..i]), i + 1, h[i], 0).value.result
  }

  lemma StepRecordsKey(c: Catalog, n: nat, m: Mutation, clock: Time)
    requires !KnownKey(c, m) && Step(c, n, m, clock).Ok?
    ensures var o := Step(c, n, m, clock).value;
      o.catalog.idempotency == if m.idempotencyKey == "" then c.idempotency
                               else c.idempotency[m.idempotencyKey := o.result]
    ensures Step(c, n, m, clock).value.result.seqNo == n
  {
    hide Materialize, Put;
    PutFields(c, Materialize(c, n, m, clock).value);
  }

  ghost predicate KeyTable(h: History)
    requires Legal(h)
  {
    && (forall i :: 0 <= i < |h| && h[i].idempotencyKey != "" ==>
          && h[i].idempotencyKey in Fold(h).idempotency
          && Fold(h).idempotency[h[i].idempotencyKey] == ResultAt(h, i)
          && ResultAt(h, i).seqNo == i + 1)
    && (forall key :: key in Fold(h).idempotency ==>
          exists i :: 0 <= i < |h| && h[i].idempotencyKey == key && key != "")
  }

  ghost predicate NoSharedKey(h: History) {
    forall i, j :: 0 <= i < j < |h| && h[i].idempotencyKey != "" ==> h[i].idempotencyKey != h[j].idempotencyKey
  }

  lemma ResultAtPrefix(h: History, n: nat, i: nat)
    requires Legal(h) && i < n <= |h|
    ensures Legal(h[..n]) && ResultAt(h[..n], i) == ResultAt(h, i)
  {
    hide Accepts, Legal, Step, Fold;
    LegalPrefix(h, n);
    assert h[..n][..i] == h[..i];
  }

  /** The idempotency table holds, for every key ever used, the result of the one mutation that
      used it; no two mutations of a history share a non-empty key. */
  lemma {:induction false} KeysAreUsedOnce(h: History)
    requires Legal(h)
    ensures KeyTable(h)
    ensures NoSharedKey(h)
  {
    if h != [] {
      hide Accepts, Legal, Step, Fold;
      var n := |h| - 1;
      LegalPrefix(h, n);
      KeysAreUsedOnce(h[..n]);
      LegalStep(h, n);
      assert h[..n + 1] == h;
      AcceptedFacts(Fold(h[..n]), h[n]);
      StepRecordsKey(Fold(h[..n]), n + 1, h[n], 0);
      KeysOfPrefix(h);
      NewKeyIsNotShared(h);
    } else {
      assert Fold(h) == EMPTY_CATALOG;
    }
  }

  lemma KeysOfPrefix(h: History)
    requires Legal(h) && h != [] && Legal(h[..|h| - 1]) && KeyTable(h[..|h| - 1])
    requires !KnownKey(Fold(h[..|h| - 1]), h[|h| - 1])
    requires ResultAt(h, |h| - 1).seqNo == |h|
    requires Fold(h).idempotency ==
      if h[|h| - 1].idempotencyKey == "" then Fold(h[..|h| - 1]).idempotency
      else Fold(h[..|h| - 1]).idempotency[h[|h| - 1].idempotencyKey := ResultAt(h, |h| - 1)]
    ensures KeyTable(h)
  {
    hide Accepts, Legal, Step, Fold, ResultAt;
    var p := h[..|h| - 1];
    forall i | 0 <= i < |p| ensures h[i] == p[i] && ResultAt(h, i) == ResultAt(p, i) {
      ResultAtPrefix(h, |p|, i);
    }
    forall key | key in Fold(h).idempotency
      ensures exists i :: 0 <= i < |h| && h[i].idempotencyKey == key && key != ""
    {
      if key in Fold(p).idempotency {
        var i :| 0 <= i < |p| && p[i].idempotencyKey == key && key != "";
        assert h[i].idempotencyKey == key;
      } else {
        assert h[|h| - 1].idempotencyKey == key;
      }
    }
  }

  lemma NewKeyIsNotShared(h: History)
    requires Legal(h) && h != [] && Legal(h[..|h| - 1]) && KeyTable(h[..|h| - 1])
    requires !KnownKey(Fold(h[..|h| - 1]), h[|h| - 1]) && NoSharedKey(h[..|h| - 1])
    ensures NoSharedKey(h)
  {
    hide Accepts, Legal, Step, Fold, ResultAt;
    var p := h[..|h| - 1];
    forall i, j | 0 <= i < j < |h| && h[i].idempotencyKey != "" ensures h[i].idempotencyKey != h[j].idempotencyKey {
      assert h[i] == p[i];
      if j < |p| { assert h[j] == p[j]; }
    }
  }
}
