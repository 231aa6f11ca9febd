/** `preflightLocked`, the eleven apply functions and `applyLocked`, as functions on the
    catalog; and the catalog a history of mutations folds to. The methods of `Stores.Store`
    are proved against these functions. */
module Catalogs {
  import opened Text
  import opened Sorting
  import opened Types
  import opened Normalize

  // ---------------------------------------------------------------- checks

  /** An update or delete needs a live target and, when asked for, its exact revision. */
  function CheckLive(found: bool, deleted: bool, revision: nat, expected: nat): Option<Error> {
    if !found || deleted then Some(NotFound)
    else if expected > 0 && expected != revision then Some(Conflict)
    else None
  }

  function CheckRecord(c: Catalog, id: string, expected: nat): Option<Error> {
    if id in c.records then CheckLive(true, c.records[id].deleted, c.records[id].stamp.revision, expected)
    else CheckLive(false, false, 0, expected)
  }

  function CheckNode(c: Catalog, id: string, expected: nat): Option<Error> {
    if id in c.nodes then CheckLive(true, c.nodes[id].deleted, c.nodes[id].stamp.revision, expected)
    else CheckLive(false, false, 0, expected)
  }

  function CheckEdge(c: Catalog, id: string, expected: nat): Option<Error> {
    if id in c.edges then CheckLive(true, c.edges[id].deleted, c.edges[id].stamp.revision, expected)
    else CheckLive(false, false, 0, expected)
  }

  function CheckRefs(chunks: map<string, Chunk>, refs: seq<ChunkRef>): Option<Error> {
    if refs == [] then None
    else
      var ref := refs[0];
      if ref.chunkID !in chunks then Some(NotFound)
      else if ref.startOffset > chunks[ref.chunkID].contentLength then Some(Conflict)
      else if ref.endOffset > 0 && ref.endOffset > chunks[ref.chunkID].contentLength then Some(Conflict)
      else CheckRefs(chunks, refs[1..])
  }

  function ValidateSpanReferences(c: Catalog, s: SourceSpan): Option<Error> {
    if s.recordID !in c.records || c.records[s.recordID].deleted then Some(NotFound)
    else CheckRefs(c.chunks, s.chunkRefs)
  }

  function ValidateEdgeEndpoints(c: Catalog, e: Edge): Option<Error> {
    if e.fromNodeID !in c.nodes || c.nodes[e.fromNodeID].deleted then Some(NotFound)
    else if e.toNodeID !in c.nodes || c.nodes[e.toNodeID].deleted then Some(NotFound)
    else None
  }

  function Preflight(c: Catalog, m: Mutation): Option<Error> {
    match m.kind
    case CreateRecord => if m.record.id in c.records then Some(Conflict) else None
    case UpdateRecord => CheckRecord(c, m.record.id, m.expectedRevision)
    case DeleteRecord => CheckRecord(c, m.record.id, m.expectedRevision)
    case CreateChunk => if m.chunk.id in c.chunks then Some(Conflict) else None
    case CreateSourceSpan =>
      if m.sourceSpan.id in c.sourceSpans then Some(Conflict) else ValidateSpanReferences(c, m.sourceSpan)
    case CreateNode => if m.node.id in c.nodes then Some(Conflict) else None
    case UpdateNode => CheckNode(c, m.node.id, m.expectedRevision)
    case DeleteNode => CheckNode(c, m.node.id, m.expectedRevision)
    case CreateEdge =>
      if m.edge.id in c.edges then Some(Conflict) else ValidateEdgeEndpoints(c, m.edge)
    case DeleteEdge => CheckEdge(c, m.edge.id, m.expectedRevision)
    case CreatePurgeRequest => if m.purgeRequest.id in c.purgeRequests then Some(Conflict) else None
    case Unknown => None
  }

  // ---------------------------------------------------------------- materializing

  /** Store an entity in its map, under its own id. */
  function Put(c: Catalog, e: Entity): Catalog {
    match e
    case RecordEntity(r) => c.(records := c.records[r.id := r])
    case ChunkEntity(k) => c.(chunks := c.chunks[k.id := k])
    case SpanEntity(s) => c.(sourceSpans := c.sourceSpans[s.id := s])
    case NodeEntity(v) => c.(nodes := c.nodes[v.id := v])
    case EdgeEntity(g) => c.(edges := c.edges[g.id := g])
    case PurgeEntity(p) => c.(purgeRequests := c.purgeRequests[p.id := p])
  }

  /** A mutation without a time takes the clock's; a logged mutation always has one. */
  function AtOr(m: Mutation, clock: Time): Time {
    if m.at == 0 then clock else m.at
  }

  function Born(seqNo: nat, at: Time): Stamp {
    Stamp(1, at, at, seqNo, seqNo)
  }

  function Bumped(s: Stamp, seqNo: nat, at: Time): Stamp {
    s.(revision := s.revision + 1, updatedAt := at, updatedSeq := seqNo)
  }

  function SequenceOf(chunks: map<string, Chunk>, id: string): nat {
    if id in chunks then chunks[id].sequence else 0
  }

  /** The comparison of `sortSourceSpanRefsLocked`. */
  function RefLess(chunks: map<string, Chunk>): (ChunkRef, ChunkRef) -> bool {
    (a: ChunkRef, b: ChunkRef) =>
      if SequenceOf(chunks, a.chunkID) == SequenceOf(chunks, b.chunkID) then Less(a.chunkID, b.chunkID)
      else SequenceOf(chunks, a.chunkID) < SequenceOf(chunks, b.chunkID)
  }

  function SortRefs(chunks: map<string, Chunk>, refs: seq<ChunkRef>): seq<ChunkRef> {
    Sort(RefLess(chunks), refs)
  }

  function ApplyCreate(c: Catalog, n: nat, m: Mutation, clock: Time): Result<Entity> {
    if m.record.id in c.records then Err(Conflict)
    else
      var r := m.record.(deleted := false, stamp := Born(n, AtOr(m, clock)));
      Ok(RecordEntity(r))
  }

  function ApplyUpdate(c: Catalog, n: nat, m: Mutation, clock: Time): Result<Entity> {
    match CheckRecord(c, m.record.id, m.expectedRevision)
    case Some(e) => Err(e)
    case None =>
      var r := m.record.(deleted := false, stamp := Bumped(c.records[m.record.id].stamp, n, AtOr(m, clock)));
      Ok(RecordEntity(r))
  }

  function ApplyDelete(c: Catalog, n: nat, m: Mutation, clock: Time): Result<Entity> {
    var id := Trim(m.record.id);
    match CheckRecord(c, id, m.expectedRevision)
    case Some(e) => Err(e)
    case None =>
      var r := c.records[id].(deleted := true, stamp := Bumped(c.records[id].stamp, n, AtOr(m, clock)));
      Ok(RecordEntity(r))
  }

  function ApplyCreateChunk(c: Catalog, n: nat, m: Mutation, clock: Time): Result<Entity> {
    if m.chunk.id in c.chunks then Err(Conflict)
    else
      var k := m.chunk.(stamp := Born(n, AtOr(m, clock)));
      Ok(ChunkEntity(k))
  }

  function ApplyCreateSourceSpan(c: Catalog, n: nat, m: Mutation, clock: Time): Result<Entity> {
    if m.sourceSpan.id in c.sourceSpans then Err(Conflict)
    else
      match ValidateSpanReferences(c, m.sourceSpan)
      case Some(e) => Err(e)
      case None =>
        var s := m.sourceSpan.(chunkRefs := SortRefs(c.chunks, m.sourceSpan.chunkRefs),
                                 stamp := Born(n, AtOr(m, clock)));
        Ok(SpanEntity(s))
  }

  function ApplyCreateNode(c: Catalog, n: nat, m: Mutation, clock: Time): Result<Entity> {
    if m.node.id in c.nodes then Err(Conflict)
    else
      var v := m.node.(deleted := false, stamp := Born(n, AtOr(m, clock)));
      Ok(NodeEntity(v))
  }

  function ApplyUpdateNode(c: Catalog, n: nat, m: Mutation, clock: Time): Result<Entity> {
    match CheckNode(c, m.node.id, m.expectedRevision)
    case Some(e) => Err(e)
    case None =>
      var v := m.node.(deleted := false, stamp := Bumped(c.nodes[m.node.id].stamp, n, AtOr(m, clock)));
      Ok(NodeEntity(v))
  }

  function ApplyDeleteNode(c: Catalog, n: nat, m: Mutation, clock: Time): Result<Entity> {
    var id := Trim(m.node.id);
    match CheckNode(c, id, m.expectedRevision)
    case Some(e) => Err(e)
    case None =>
      var v := c.nodes[id].(deleted := true, stamp := Bumped(c.nodes[id].stamp, n, AtOr(m, clock)));
      Ok(NodeEntity(v))
  }

  function ApplyCreateEdge(c: Catalog, n: nat, m: Mutation, clock: Time): Result<Entity> {
    if m.edge.id in c.edges then Err(Conflict)
    else
      match ValidateEdgeEndpoints(c, m.edge)
      case Some(e) => Err(e)
      case None =>
        var g := m.edge.(deleted := false, stamp := Born(n, AtOr(m, clock)));
        Ok(EdgeEntity(g))
  }

  function ApplyDeleteEdge(c: Catalog, n: nat, m: Mutation, clock: Time): Result<Entity> {
    var id := Trim(m.edge.id);
    match CheckEdge(c, id, m.expectedRevision)
    case Some(e) => Err(e)
    case None =>
      var g := c.edges[id].(deleted := true, stamp := Bumped(c.edges[id].stamp, n, AtOr(m, clock)));
      Ok(EdgeEntity(g))
  }

  function ApplyCreatePurgeRequest(c: Catalog, n: nat, m: Mutation, clock: Time): Result<Entity> {
    if m.purgeRequest.id in c.purgeRequests then Err(Conflict)
    else
      var p := m.purgeRequest.(stamp := Born(n, AtOr(m, clock)));
      Ok(PurgeEntity(p))
  }

  /** The `switch` of `applyLocked`. */
  function Materialize(c: Catalog, n: nat, m: Mutation, clock: Time): Result<Entity> {
    match m.kind
    case CreateRecord => ApplyCreate(c, n, m, clock)
    case UpdateRecord => ApplyUpdate(c, n, m, clock)
    case DeleteRecord => ApplyDelete(c, n, m, clock)
    case CreateChunk => ApplyCreateChunk(c, n, m, clock)
    case CreateSourceSpan => ApplyCreateSourceSpan(c, n, m, clock)
    case CreateNode => ApplyCreateNode(c, n, m, clock)
    case UpdateNode => ApplyUpdateNode(c, n, m, clock)
    case DeleteNode => ApplyDeleteNode(c, n, m, clock)
    case CreateEdge => ApplyCreateEdge(c, n, m, clock)
    case DeleteEdge => ApplyDeleteEdge(c, n, m, clock)
    case CreatePurgeRequest => ApplyCreatePurgeRequest(c, n, m, clock)
    case Unknown => Err(Unsupported)
  }

  datatype Outcome = Outcome(catalog: Catalog, result: ApplyResult)

  predicate KnownKey(c: Catalog, m: Mutation) {
    m.idempotencyKey != "" && m.idempotencyKey in c.idempotency
  }

  function Remembered(c: Catalog, m: Mutation): ApplyResult
    requires KnownKey(c, m)
  {
    c.idempotency[m.idempotencyKey].(idempotent := true)
  }

  /** Advance the watermark and remember the result under its key. */
  function Recorded(c: Catalog, n: nat, m: Mutation, r: ApplyResult): Catalog {
    c.(durableSeq := n,
       idempotency := if m.idempotencyKey == "" then c.idempotency else c.idempotency[m.idempotencyKey := r])
  }

  /** `applyLocked`. */
  function Step(c: Catalog, n: nat, m: Mutation, clock: Time): Result<Outcome> {
    if KnownKey(c, m) then Ok(Outcome(c, Remembered(c, m)))
    else
      match Materialize(c, n, m, clock)
      case Err(e) => Err(e)
      case Ok(entity) =>
        var r := ApplyResult(n, entity, false);
        Ok(Outcome(Recorded(Put(c, entity), n, m, r), r))
  }

  function ErrorOf<T>(r: Result<T>): Option<Error> {
    match r case Ok(_) => None case Err(e) => Some(e)
  }

  /** Preflight is exact: for a normalized mutation it rejects precisely what the apply
      function would reject, with the same error, for all eleven kinds. The delete functions
      trim the id once more, preflight does not: normalized ids make the two agree. */
  lemma PreflightExact(c: Catalog, n: nat, m: Mutation, clock: Time)
    requires Normalized(m)
    ensures Preflight(c, m) == ErrorOf(Materialize(c, n, m, clock))
  {
    hide Trim, Trimmed, CheckRefs, SortRefs;
    TrimFixes(m.record.id);
    TrimFixes(m.node.id);
    TrimFixes(m.edge.id);
  }

  /** Without normalization the two can disagree: a padded id fails preflight and applies. */
  lemma PreflightNeedsTrimmedIDs(c: Catalog, n: nat, m: Mutation, clock: Time)
    requires m.kind == DeleteRecord && m.expectedRevision == 0
    requires Trim(m.record.id) in c.records && !c.records[Trim(m.record.id)].deleted
    requires m.record.id !in c.records
    ensures Preflight(c, m) == Some(NotFound) && Materialize(c, n, m, clock).Ok?
  {
  }

  /** A mutation that carries its time applies the same way whatever the clock says. */
  lemma ReplayIgnoresClock(c: Catalog, n: nat, m: Mutation, clock1: Time, clock2: Time)
    requires m.at != 0
    ensures Step(c, n, m, clock1) == Step(c, n, m, clock2)
  {
    hide Trim, CheckRefs, SortRefs;
    assert AtOr(m, clock1) == AtOr(m, clock2);
  }

  // ---------------------------------------------------------------- histories

  /** The mutations ever appended to the log; `h[i]` has sequence number `i + 1`. */
  type History = seq<Mutation>

  /** What the catalog must look like after every mutation of `h` was applied in order. */
  function Fold(h: History): Catalog {
    if h == [] then EMPTY_CATALOG
    else
      var before := Fold(h[..|h| - 1]);
      match Step(before, |h|, h[|h| - 1], 0)
      case Ok(o) => o.catalog
      case Err(_) => before
  }

  /** `m` is what `Apply` would append in state `c`: normalized, stamped with a time, its body
      stripped, its key new, and past preflight. */
  predicate Accepts(c: Catalog, m: Mutation) {
    && Normalized(m)
    && m.at > 0
    && m.chunkContent == []
    && !KnownKey(c, m)
    && Preflight(c, m) == None
  }

  /** Every mutation of `h` was accepted by the state before it. */
  ghost predicate Legal(h: History) {
    forall i :: 0 <= i < |h| ==> Accepts(Fold(h[..i]), h[i])
  }

  lemma AcceptedSteps(c: Catalog, n: nat, m: Mutation, clock: Time)
    requires Accepts(c, m)
    ensures Materialize(c, n, m, clock).Ok?
    ensures Step(c, n, m, clock).Ok?
    ensures !Step(c, n, m, clock).value.result.idempotent
    ensures Step(c, n, m, clock).value.catalog.durableSeq == n
    ensures Step(c, n, m, clock).value.result.seqNo == n
  {
    PreflightExact(c, n, m, clock);
  }

  lemma FoldSnoc(h: History, m: Mutation)
    ensures Fold(h + [m]) == match Step(Fold(h), |h| + 1, m, 0) case Ok(o) => o.catalog case Err(_) => Fold(h)
  {
    var all := h + [m];
    assert all[..|all| - 1] == h;
  }

  lemma LegalSnoc(h: History, m: Mutation)
    requires Legal(h) && Accepts(Fold(h), m)
    ensures Legal(h + [m])
    ensures Fold(h + [m]).durableSeq == |h| + 1
    ensures Step(Fold(h), |h| + 1, m, 0).Ok?
    ensures Fold(h + [m]) == Step(Fold(h), |h| + 1, m, 0).value.catalog
  {
    hide Accepts, Step, Fold;
    var all := h + [m];
    forall i | 0 <= i < |all| ensures Accepts(Fold(all[..i]), all[i]) {
      if i < |h| { assert all[..i] == h[..i]; } else { assert all[..i] == h; }
    }
    AcceptedSteps(Fold(h), |h| + 1, m, 0);
    FoldSnoc(h, m);
  }

  lemma LegalPrefix(h: History, n: nat)
    requires Legal(h) && n <= |h|
    ensures Legal(h[..n])
  {
    hide Accepts, Fold;
    forall i | 0 <= i < n ensures Accepts(Fold(h[..n][..i]), h[..n][i]) {
      assert h[..n][..i] == h[..i];
    }
  }

  /** One step of a legal history. */
  lemma LegalStep(h: History, i: nat)
    requires Legal(h) && i < |h|
    ensures Accepts(Fold(h[..i]), h[i])
    ensures Step(Fold(h[..i]), i + 1, h[i], 0).Ok?
    ensures Fold(h[..i + 1]) == Step(Fold(h[..i]), i + 1, h[i], 0).value.catalog
    ensures !Step(Fold(h[..i]), i + 1, h[i], 0).value.result.idempotent
    ensures Fold(h[..i + 1]).durableSeq == i + 1
  {
    hide Accepts, Step, Fold;
    AcceptedSteps(Fold(h[..i]), i + 1, h[i], 0);
    FoldSnoc(h[..i], h[i]);
    assert h[..i] + [h[i]] == h[..i + 1];
  }

  lemma FoldSeq(h: History)
    requires Legal(h)
    ensures Fold(h).durableSeq == |h|
  {
    if h != [] {
      hide Accepts, Step, Fold;
      LegalStep(h, |h| - 1);
      assert h[..|h|] == h;
    }
  }
}
