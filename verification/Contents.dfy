/** What mutations do to what the entities say. One step, for all eleven kinds: when it is
    accepted, with which error it is refused, the entity it leaves, field by field, and that
    nothing else changes. And whole histories: every entity says what the last mutation that
    wrote it said. */
module Contents {
  import opened Text
  import opened Types
  import opened Normalize
  import opened Catalogs
  import opened Laws
  import opened Integrity

  // ---------------------------------------------------------------- one step

  /** The key table after a mutation: its result under its key, if it has one. */
  ghost function Remembering(c: Catalog, m: Mutation, r: ApplyResult): map<string, ApplyResult> {
    if m.idempotencyKey == "" then c.idempotency else c.idempotency[m.idempotencyKey := r]
  }

  /** An entity that materializes is stored under its id, returned, and remembered under the key. */
  lemma Stored(c: Catalog, n: nat, m: Mutation, clock: Time)
    requires m.idempotencyKey == "" || m.idempotencyKey !in c.idempotency
    ensures Materialize(c, n, m, clock).Err? ==> Step(c, n, m, clock) == Err(Materialize(c, n, m, clock).error)
    ensures Materialize(c, n, m, clock).Ok? ==>
      && Step(c, n, m, clock).Ok?
      && var e, o := Materialize(c, n, m, clock).value, Step(c, n, m, clock).value;
         var d := o.catalog;
         && o.result == ApplyResult(n, e, false) && d.durableSeq == n
         && d.idempotency == Remembering(c, m, o.result)
         && d.records == (if e.RecordEntity? then c.records[e.record.id := e.record] else c.records)
         && d.chunks == (if e.ChunkEntity? then c.chunks[e.chunk.id := e.chunk] else c.chunks)
         && d.sourceSpans == (if e.SpanEntity? then c.sourceSpans[e.span.id := e.span] else c.sourceSpans)
         && d.nodes == (if e.NodeEntity? then c.nodes[e.node.id := e.node] else c.nodes)
         && d.edges == (if e.EdgeEntity? then c.edges[e.edge.id := e.edge] else c.edges)
         && d.purgeRequests == if e.PurgeEntity? then c.purgeRequests[e.purge.id := e.purge] else c.purgeRequests
  {
    hide Materialize, Put;
    if Materialize(c, n, m, clock).Ok? { PutFields(c, Materialize(c, n, m, clock).value); }
  }

  lemma RecordMade(c: Catalog, n: nat, m: Mutation, clock: Time)
    requires m.kind == CreateRecord || m.kind == UpdateRecord || m.kind == DeleteRecord
    requires Normalized(m)
    ensures var id, at, out := m.record.id, (if m.at == 0 then clock else m.at), Materialize(c, n, m, clock);
      if m.kind == CreateRecord then
        if id in c.records then out == Err(Conflict)
        else out == Ok(RecordEntity(m.record.(deleted := false, stamp := Stamp(1, at, at, n, n))))
      else if id !in c.records || c.records[id].deleted then out == Err(NotFound)
      else
        var was := c.records[id].stamp;
        var stamp := Stamp(was.revision + 1, was.createdAt, at, was.createdSeq, n);
        if m.expectedRevision != 0 && m.expectedRevision != was.revision then out == Err(Conflict)
        else if m.kind == UpdateRecord then out == Ok(RecordEntity(m.record.(deleted := false, stamp := stamp)))
        else out == Ok(RecordEntity(c.records[id].(deleted := true, stamp := stamp)))
  {
    hide Trim, Trimmed;
    TrimFixes(m.record.id);
  }

  /** Records. A create needs a new id; an update or delete needs a live record and, if it names
      a revision, that one. A create or update leaves what the mutation says, a delete leaves
      what was there, marked deleted. */
  lemma RecordStep(c: Catalog, n: nat, m: Mutation, clock: Time)
    requires m.kind == CreateRecord || m.kind == UpdateRecord || m.kind == DeleteRecord
    requires Keyed(c)
    requires Normalized(m) && (m.idempotencyKey == "" || m.idempotencyKey !in c.idempotency)
    ensures var id, out := m.record.id, Step(c, n, m, clock);
      if m.kind == CreateRecord then
        (out.Ok? <==> id !in c.records) && (out.Err? ==> out == Err(Conflict))
      else if id !in c.records || c.records[id].deleted then out == Err(NotFound)
      else if m.expectedRevision != 0 && m.expectedRevision != c.records[id].stamp.revision then out == Err(Conflict)
      else out.Ok?
    ensures Step(c, n, m, clock).Ok? ==>
      var id, at, o := m.record.id, (if m.at == 0 then clock else m.at), Step(c, n, m, clock).value;
      var d := o.catalog;
      && id in d.records
      && d == c.(durableSeq := n, records := c.records[id := d.records[id]], idempotency := d.idempotency)
      && d.idempotency == Remembering(c, m, o.result)
      && o.result == ApplyResult(n, RecordEntity(d.records[id]), false)
      && d.records[id] == (if m.kind == DeleteRecord then c.records[id].(deleted := true, stamp := d.records[id].stamp)
                           else m.record.(deleted := false, stamp := d.records[id].stamp))
      && d.records[id].stamp ==
           if m.kind == CreateRecord then Stamp(1, at, at, n, n)
           else var was := c.records[id].stamp; Stamp(was.revision + 1, was.createdAt, at, was.createdSeq, n)
  {
    hide Step, Normalized, Trim;
    Stored(c, n, m, clock);
    RecordMade(c, n, m, clock);
  }

  lemma NodeMade(c: Catalog, n: nat, m: Mutation, clock: Time)
    requires m.kind == CreateNode || m.kind == UpdateNode || m.kind == DeleteNode
    requires Normalized(m)
    ensures var id, at, out := m.node.id, (if m.at == 0 then clock else m.at), Materialize(c, n, m, clock);
      if m.kind == CreateNode then
        if id in c.nodes then out == Err(Conflict)
        else out == Ok(NodeEntity(m.node.(deleted := false, stamp := Stamp(1, at, at, n, n))))
      else if id !in c.nodes || c.nodes[id].deleted then out == Err(NotFound)
      else
        var was := c.nodes[id].stamp;
        var stamp := Stamp(was.revision + 1, was.createdAt, at, was.createdSeq, n);
        if m.expectedRevision != 0 && m.expectedRevision != was.revision then out == Err(Conflict)
        else if m.kind == UpdateNode then out == Ok(NodeEntity(m.node.(deleted := false, stamp := stamp)))
        else out == Ok(NodeEntity(c.nodes[id].(deleted := true, stamp := stamp)))
  {
    hide Trim, Trimmed;
    TrimFixes(m.node.id);
  }

  /** Nodes, by the same rules. */
  lemma NodeStep(c: Catalog, n: nat, m: Mutation, clock: Time)
    requires m.kind == CreateNode || m.kind == UpdateNode || m.kind == DeleteNode
    requires Keyed(c)
    requires Normalized(m) && (m.idempotencyKey == "" || m.idempotencyKey !in c.idempotency)
    ensures var id, out := m.node.id, Step(c, n, m, clock);
      if m.kind == CreateNode then
        (out.Ok? <==> id !in c.nodes) && (out.Err? ==> out == Err(Conflict))
      else if id !in c.nodes || c.nodes[id].deleted then out == Err(NotFound)
      else if m.expectedRevision != 0 && m.expectedRevision != c.nodes[id].stamp.revision then out == Err(Conflict)
      else out.Ok?
    ensures Step(c, n, m, clock).Ok? ==>
      var id, at, o := m.node.id, (if m.at == 0 then clock else m.at), Step(c, n, m, clock).value;
      var d := o.catalog;
      && id in d.nodes && d == c.(durableSeq := n, nodes := c.nodes[id := d.nodes[id]], idempotency := d.idempotency)
      && d.idempotency == Remembering(c, m, o.result)
      && o.result == ApplyResult(n, NodeEntity(d.nodes[id]), false)
      && d.nodes[id] == (if m.kind == DeleteNode then c.nodes[id].(deleted := true, stamp := d.nodes[id].stamp)
                         else m.node.(deleted := false, stamp := d.nodes[id].stamp))
      && d.nodes[id].stamp ==
           if m.kind == CreateNode then Stamp(1, at, at, n, n)
           else var was := c.nodes[id].stamp; Stamp(was.revision + 1, was.createdAt, at, was.createdSeq, n)
  {
    hide Step, Normalized, Trim;
    Stored(c, n, m, clock);
    NodeMade(c, n, m, clock);
  }

  lemma EdgeMade(c: Catalog, n: nat, m: Mutation, clock: Time)
    requires m.kind == CreateEdge || m.kind == DeleteEdge
    requires Normalized(m)
    ensures var id, at, out := m.edge.id, (if m.at == 0 then clock else m.at), Materialize(c, n, m, clock);
      if m.kind == CreateEdge then
        if id in c.edges then out == Err(Conflict)
        else if m.edge.fromNodeID in c.nodes && !c.nodes[m.edge.fromNodeID].deleted
          && m.edge.toNodeID in c.nodes && !c.nodes[m.edge.toNodeID].deleted then
          out == Ok(EdgeEntity(m.edge.(deleted := false, stamp := Stamp(1, at, at, n, n))))
        else out == Err(NotFound)
      else if id !in c.edges || c.edges[id].deleted then out == Err(NotFound)
      else
        var was := c.edges[id].stamp;
        var stamp := Stamp(was.revision + 1, was.createdAt, at, was.createdSeq, n);
        if m.expectedRevision != 0 && m.expectedRevision != was.revision then out == Err(Conflict)
        else out == Ok(EdgeEntity(c.edges[id].(deleted := true, stamp := stamp)))
  {
    hide Trim, Trimmed;
    TrimFixes(m.edge.id);
  }

  /** Edges. A create needs a new id and two live endpoints. */
  lemma EdgeStep(c: Catalog, n: nat, m: Mutation, clock: Time)
    requires m.kind == CreateEdge || m.kind == DeleteEdge
    requires Keyed(c)
    requires Normalized(m) && (m.idempotencyKey == "" || m.idempotencyKey !in c.idempotency)
    ensures var g, out := m.edge, Step(c, n, m, clock);
      if m.kind == CreateEdge then
        if g.id in c.edges then out == Err(Conflict)
        else if g.fromNodeID in c.nodes && !c.nodes[g.fromNodeID].deleted
          && g.toNodeID in c.nodes && !c.nodes[g.toNodeID].deleted then out.Ok?
        else out == Err(NotFound)
      else if g.id !in c.edges || c.edges[g.id].deleted then out == Err(NotFound)
      else if m.expectedRevision != 0 && m.expectedRevision != c.edges[g.id].stamp.revision then out == Err(Conflict)
      else out.Ok?
    ensures Step(c, n, m, clock).Ok? ==>
      var id, at, o := m.edge.id, (if m.at == 0 then clock else m.at), Step(c, n, m, clock).value;
      var d := o.catalog;
      && id in d.edges && d == c.(durableSeq := n, edges := c.edges[id := d.edges[id]], idempotency := d.idempotency)
      && d.idempotency == Remembering(c, m, o.result)
      && o.result == ApplyResult(n, EdgeEntity(d.edges[id]), false)
      && d.edges[id] == (if m.kind == DeleteEdge then c.edges[id].(deleted := true, stamp := d.edges[id].stamp)
                         else m.edge.(deleted := false, stamp := d.edges[id].stamp))
      && d.edges[id].stamp ==
           if m.kind == CreateEdge then Stamp(1, at, at, n, n)
           else var was := c.edges[id].stamp; Stamp(was.revision + 1, was.createdAt, at, was.createdSeq, n)
  {
    hide Step, Normalized, Trim;
    Stored(c, n, m, clock);
    EdgeMade(c, n, m, clock);
  }

  /** Chunks and purge requests are created once, as they are. */
  lemma ChunkStep(c: Catalog, n: nat, m: Mutation, clock: Time)
    requires m.kind == CreateChunk && (m.idempotencyKey == "" || m.idempotencyKey !in c.idempotency)
    ensures var id, at, out := m.chunk.id, (if m.at == 0 then clock else m.at), Step(c, n, m, clock);
      if id in c.chunks then out == Err(Conflict)
      else
        var k := m.chunk.(stamp := Stamp(1, at, at, n, n));
        var r := ApplyResult(n, ChunkEntity(k), false);
        var keys := if m.idempotencyKey == "" then c.idempotency else c.idempotency[m.idempotencyKey := r];
        out == Ok(Outcome(c.(durableSeq := n, chunks := c.chunks[id := k], idempotency := keys), r))
  {
  }

  lemma PurgeStep(c: Catalog, n: nat, m: Mutation, clock: Time)
    requires m.kind == CreatePurgeRequest && (m.idempotencyKey == "" || m.idempotencyKey !in c.idempotency)
    ensures var id, at, out := m.purgeRequest.id, (if m.at == 0 then clock else m.at), Step(c, n, m, clock);
      if id in c.purgeRequests then out == Err(Conflict)
      else
        var p := m.purgeRequest.(stamp := Stamp(1, at, at, n, n));
        var r := ApplyResult(n, PurgeEntity(p), false);
        var keys := if m.idempotencyKey == "" then c.idempotency else c.idempotency[m.idempotencyKey := r];
        out == Ok(Outcome(c.(durableSeq := n, purgeRequests := c.purgeRequests[id := p], idempotency := keys), r))
  {
  }

  /** A ref fits if its chunk exists and neither offset lies past its end. */
  predicate RefFits(chunks: map<string, Chunk>, r: ChunkRef) {
    && r.chunkID in chunks && r.startOffset <= chunks[r.chunkID].contentLength
    && (r.endOffset > 0 ==> r.endOffset <= chunks[r.chunkID].contentLength)
  }

  lemma {:induction false} RefsFit(chunks: map<string, Chunk>, refs: seq<ChunkRef>)
    ensures CheckRefs(chunks, refs).None? <==> forall r :: r in refs ==> RefFits(chunks, r)
    ensures CheckRefs(chunks, refs).Some? ==> CheckRefs(chunks, refs).value in {NotFound, Conflict}
  {
    if refs != [] {
      RefsFit(chunks, refs[1..]);
      assert refs[0] in refs && forall r :: r in refs <==> r == refs[0] || r in refs[1..];
      if CheckRefs(chunks, refs[1..]).Some? {
        var r :| r in refs[1..] && !RefFits(chunks, r);
        assert r in refs;
      }
    }
  }

  /** The refs are in the order of their chunks' sequence numbers, equal ones by chunk id. */
  ghost predicate InChunkOrder(chunks: map<string, Chunk>, refs: seq<ChunkRef>) {
    forall i, j :: 0 <= i < j < |refs| && refs[i].chunkID in chunks && refs[j].chunkID in chunks ==>
      var a, b := chunks[refs[i].chunkID].sequence, chunks[refs[j].chunkID].sequence;
      a < b || (a == b && !Less(refs[j].chunkID, refs[i].chunkID))
  }

  /** A span needs a new id, a live record, and refs that fit; it is stored as it is, its refs
      brought into chunk order. */
  lemma SpanStep(c: Catalog, n: nat, m: Mutation, clock: Time)
    requires m.kind == CreateSourceSpan && (m.idempotencyKey == "" || m.idempotencyKey !in c.idempotency)
    ensures var s, out := m.sourceSpan, Step(c, n, m, clock);
      if s.id in c.sourceSpans then out == Err(Conflict)
      else if s.recordID !in c.records || c.records[s.recordID].deleted then out == Err(NotFound)
      else
        (out.Ok? <==> forall r :: r in s.chunkRefs ==> RefFits(c.chunks, r))
        && (out.Err? ==> out.error in {NotFound, Conflict})
    ensures Step(c, n, m, clock).Ok? ==>
      var id, at, o := m.sourceSpan.id, (if m.at == 0 then clock else m.at), Step(c, n, m, clock).value;
      var d := o.catalog;
      && id in d.sourceSpans
      && d == c.(durableSeq := n, sourceSpans := c.sourceSpans[id := d.sourceSpans[id]], idempotency := d.idempotency)
      && d.idempotency == Remembering(c, m, o.result)
      && o.result == ApplyResult(n, SpanEntity(d.sourceSpans[id]), false)
      && d.sourceSpans[id] == m.sourceSpan.(chunkRefs := d.sourceSpans[id].chunkRefs, stamp := Stamp(1, at, at, n, n))
      && multiset(d.sourceSpans[id].chunkRefs) == multiset(m.sourceSpan.chunkRefs)
      && InChunkOrder(c.chunks, d.sourceSpans[id].chunkRefs)
  {
    hide CheckRefs, RefFits, SortRefs, InChunkOrder;
    RefsFit(c.chunks, m.sourceSpan.chunkRefs);
    SortRefsSorts(c.chunks, m.sourceSpan.chunkRefs);
    SortedInChunkOrder(c.chunks, m.sourceSpan.chunkRefs);
  }

  lemma SortedInChunkOrder(chunks: map<string, Chunk>, refs: seq<ChunkRef>)
    ensures InChunkOrder(chunks, SortRefs(chunks, refs))
  {
    hide Less, SortRefs;
    SortRefsSorts(chunks, refs);
    var out := SortRefs(chunks, refs);
    forall i, j | 0 <= i < j < |out| && out[i].chunkID in chunks && out[j].chunkID in chunks
      ensures var a, b := chunks[out[i].chunkID].sequence, chunks[out[j].chunkID].sequence;
        a < b || (a == b && !Less(out[j].chunkID, out[i].chunkID))
    {
      assert !RefLess(chunks)(out[j], out[i]);
    }
  }

  // ---------------------------------------------------------------- whole histories

  predicate Deletes(k: MutationType) {
    k == DeleteRecord || k == DeleteNode || k == DeleteEdge
  }

  /** Mutation `i` is the last create or update of the entity. */
  ghost predicate LastWrite(h: History, i: int, k: Key) {
    && 0 <= i < |h| && Target(h[i]) == k && !Deletes(h[i].kind)
    && forall j :: i < j < |h| ==> Target(h[j]) != k || Deletes(h[j].kind)
  }

  ghost predicate DeletedAfter(h: History, i: int, k: Key) {
    exists j :: 0 <= j < |h| && i < j && Target(h[j]) == k && Deletes(h[j].kind)
  }

  /** One more mutation: it becomes the last write of its target, or deletes it, and leaves the
      others alone. */
  lemma OneMore(h: History, m: Mutation, k: Key)
    ensures var written := Target(m) == k && !Deletes(m.kind);
      forall i :: LastWrite(h + [m], i, k) <==> if written then i == |h| else LastWrite(h, i, k)
    ensures forall i :: LastWrite(h, i, k) ==> (h + [m])[i] == h[i]
    ensures forall i :: LastWrite(h, i, k) ==>
      (DeletedAfter(h + [m], i, k) <==> DeletedAfter(h, i, k) || (Target(m) == k && Deletes(m.kind)))
    ensures (h + [m])[|h|] == m && !DeletedAfter(h + [m], |h|, k)
  {
    hide Target, Deletes;
    var all := h + [m];
    assert all[|h|] == m && forall j :: 0 <= j < |h| ==> all[j] == h[j];
    forall i | LastWrite(h, i, k)
      ensures DeletedAfter(all, i, k) <==> DeletedAfter(h, i, k) || (Target(m) == k && Deletes(m.kind))
    {
      if DeletedAfter(h, i, k) {
        var j :| i < j < |h| && Target(h[j]) == k && Deletes(h[j].kind);
        assert Target(all[j]) == k && Deletes(all[j].kind);
      }
    }
  }

  /** What the entities of one kind say after `h`: there is one exactly if one was written, it is
      what its last create or update said, and it is deleted exactly if a delete followed. */
  ghost predicate RecordSays(h: History, c: Catalog, id: string) {
    var k := Key(RecordSort, id);
    && (id in c.records <==> exists i :: LastWrite(h, i, k))
    && forall i :: LastWrite(h, i, k) ==>
         && id in c.records
         && c.records[id] == h[i].record.(deleted := DeletedAfter(h, i, k), stamp := c.records[id].stamp)
  }

  ghost predicate NodeSays(h: History, c: Catalog, id: string) {
    var k := Key(NodeSort, id);
    && (id in c.nodes <==> exists i :: LastWrite(h, i, k))
    && forall i :: LastWrite(h, i, k) ==>
         && id in c.nodes
         && c.nodes[id] == h[i].node.(deleted := DeletedAfter(h, i, k), stamp := c.nodes[id].stamp)
  }

  ghost predicate EdgeSays(h: History, c: Catalog, id: string) {
    var k := Key(EdgeSort, id);
    && (id in c.edges <==> exists i :: LastWrite(h, i, k))
    && forall i :: LastWrite(h, i, k) ==>
         && id in c.edges
         && c.edges[id] == h[i].edge.(deleted := DeletedAfter(h, i, k), stamp := c.edges[id].stamp)
  }

  ghost predicate ChunkSays(h: History, c: Catalog, id: string) {
    var k := Key(ChunkSort, id);
    && (id in c.chunks <==> exists i :: LastWrite(h, i, k))
    && forall i :: LastWrite(h, i, k) ==>
         && id in c.chunks
         && c.chunks[id] == h[i].chunk.(stamp := c.chunks[id].stamp)
  }

  ghost predicate SpanSays(h: History, c: Catalog, id: string) {
    var k := Key(SpanSort, id);
    && (id in c.sourceSpans <==> exists i :: LastWrite(h, i, k))
    && forall i :: LastWrite(h, i, k) ==>
         && id in c.sourceSpans
         && c.sourceSpans[id] ==
              h[i].sourceSpan.(chunkRefs := c.sourceSpans[id].chunkRefs, stamp := c.sourceSpans[id].stamp)
         && multiset(c.sourceSpans[id].chunkRefs) == multiset(h[i].sourceSpan.chunkRefs)
  }

  ghost predicate PurgeSays(h: History, c: Catalog, id: string) {
    var k := Key(PurgeSort, id);
    && (id in c.purgeRequests <==> exists i :: LastWrite(h, i, k))
    && forall i :: LastWrite(h, i, k) ==>
         && id in c.purgeRequests
         && c.purgeRequests[id] == h[i].purgeRequest.(stamp := c.purgeRequests[id].stamp)
  }

  ghost predicate AllSay(h: History, c: Catalog, id: string) {
    && RecordSays(h, c, id) && NodeSays(h, c, id) && EdgeSays(h, c, id)
    && ChunkSays(h, c, id) && SpanSays(h, c, id) && PurgeSays(h, c, id)
  }

  lemma {:induction false} HistorySays(h: History, id: string)
    requires Legal(h)
    ensures AllSay(h, Fold(h), id)
  {
    hide Fold, AllSay, Legal;
    if h == [] {
      NothingSaid(id);
    } else {
      var n := |h| - 1;
      LegalPrefix(h, n);
      HistorySays(h[..n], id);
      SaysNext(h, n, id);
      assert h[..n + 1] == h;
    }
  }

  lemma SaysNext(h: History, n: nat, id: string)
    requires Legal(h) && n < |h| && AllSay(h[..n], Fold(h[..n]), id)
    ensures AllSay(h[..n + 1], Fold(h[..n + 1]), id)
  {
    hide Accepts, Legal, Step, Fold, AllSay, Normalized, KnownKey;
    LegalPrefix(h, n);
    LegalStep(h, n);
    AcceptedFacts(Fold(h[..n]), h[n]);
    assert Keyed(Fold(h[..n])) by { HistoryConserves(h[..n]); }
    AllSayAfter(h[..n], Fold(h[..n]), h[n], id);
    assert h[..n] + [h[n]] == h[..n + 1];
  }

  lemma AllSayAfter(h: History, c: Catalog, m: Mutation, id: string)
    requires Keyed(c) && Normalized(m) && !KnownKey(c, m) && Step(c, |h| + 1, m, 0).Ok? && AllSay(h, c, id)
    ensures AllSay(h + [m], Step(c, |h| + 1, m, 0).value.catalog, id)
  {
    hide Keyed, Step, Normalized, RecordSays, NodeSays, EdgeSays, ChunkSays, SpanSays, PurgeSays;
    RecordSaysAfter(h, c, m, id);
    ChunkSaysAfter(h, c, m, id);
    SpanSaysAfter(h, c, m, id);
    NodeSaysAfter(h, c, m, id);
    EdgeSaysAfter(h, c, m, id);
    PurgeSaysAfter(h, c, m, id);
  }

  lemma NothingSaid(id: string)
    ensures AllSay([], EMPTY_CATALOG, id) && Fold([]) == EMPTY_CATALOG
  {
  }

  /** A mutation changes one of the six maps at most. */
  lemma Untouched(c: Catalog, n: nat, m: Mutation)
    requires Keyed(c)
    requires Normalized(m) && !KnownKey(c, m) && Step(c, n, m, 0).Ok?
    ensures var d, sort := Step(c, n, m, 0).value.catalog, Target(m).sort;
      && (sort != RecordSort ==> d.records == c.records)
      && (sort != ChunkSort ==> d.chunks == c.chunks)
      && (sort != SpanSort ==> d.sourceSpans == c.sourceSpans)
      && (sort != NodeSort ==> d.nodes == c.nodes)
      && (sort != EdgeSort ==> d.edges == c.edges)
      && (sort != PurgeSort ==> d.purgeRequests == c.purgeRequests)
  {
    hide Step, Normalized, Keyed, Materialize, Target, Revises, Holds, StampOf, EntityStamp, Born, Bumped;
    Stored(c, n, m, 0);
    MaterializeTargets(c, n, m, 0);
    match Materialize(c, n, m, 0).value {
      case RecordEntity(_) => case ChunkEntity(_) => case SpanEntity(_) =>
      case NodeEntity(_) => case EdgeEntity(_) => case PurgeEntity(_) =>
    }
  }

  lemma RecordSaysAfter(h: History, c: Catalog, m: Mutation, id: string)
    requires Keyed(c)
    requires Normalized(m) && !KnownKey(c, m) && Step(c, |h| + 1, m, 0).Ok? && RecordSays(h, c, id)
    ensures RecordSays(h + [m], Step(c, |h| + 1, m, 0).value.catalog, id)
  {
    hide Step, Normalized, RecordSays;
    NoUnknown(c, |h| + 1, m);
    Untouched(c, |h| + 1, m);
    if Target(m).sort == RecordSort { RecordStep(c, |h| + 1, m, 0); }
    RecordAfter(h, c, m, Step(c, |h| + 1, m, 0).value.catalog, id);
  }

  lemma ChunkSaysAfter(h: History, c: Catalog, m: Mutation, id: string)
    requires Keyed(c)
    requires Normalized(m) && !KnownKey(c, m) && Step(c, |h| + 1, m, 0).Ok? && ChunkSays(h, c, id)
    ensures ChunkSays(h + [m], Step(c, |h| + 1, m, 0).value.catalog, id)
  {
    hide Step, Normalized, ChunkSays;
    NoUnknown(c, |h| + 1, m);
    Untouched(c, |h| + 1, m);
    if Target(m).sort == ChunkSort { ChunkStep(c, |h| + 1, m, 0); }
    ChunkAfter(h, c, m, Step(c, |h| + 1, m, 0).value.catalog, id);
  }

  lemma SpanSaysAfter(h: History, c: Catalog, m: Mutation, id: string)
    requires Keyed(c)
    requires Normalized(m) && !KnownKey(c, m) && Step(c, |h| + 1, m, 0).Ok? && SpanSays(h, c, id)
    ensures SpanSays(h + [m], Step(c, |h| + 1, m, 0).value.catalog, id)
  {
    hide Step, Normalized, SpanSays;
    NoUnknown(c, |h| + 1, m);
    Untouched(c, |h| + 1, m);
    if Target(m).sort == SpanSort { SpanStep(c, |h| + 1, m, 0); }
    SpanAfter(h, c, m, Step(c, |h| + 1, m, 0).value.catalog, id);
  }

  lemma NodeSaysAfter(h: History, c: Catalog, m: Mutation, id: string)
    requires Keyed(c)
    requires Normalized(m) && !KnownKey(c, m) && Step(c, |h| + 1, m, 0).Ok? && NodeSays(h, c, id)
    ensures NodeSays(h + [m], Step(c, |h| + 1, m, 0).value.catalog, id)
  {
    hide Step, Normalized, NodeSays;
    NoUnknown(c, |h| + 1, m);
    Untouched(c, |h| + 1, m);
    if Target(m).sort == NodeSort { NodeStep(c, |h| + 1, m, 0); }
    NodeAfter(h, c, m, Step(c, |h| + 1, m, 0).value.catalog, id);
  }

  lemma EdgeSaysAfter(h: History, c: Catalog, m: Mutation, id: string)
    requires Keyed(c)
    requires Normalized(m) && !KnownKey(c, m) && Step(c, |h| + 1, m, 0).Ok? && EdgeSays(h, c, id)
    ensures EdgeSays(h + [m], Step(c, |h| + 1, m, 0).value.catalog, id)
  {
    hide Step, Normalized, EdgeSays;
    NoUnknown(c, |h| + 1, m);
    Untouched(c, |h| + 1, m);
    if Target(m).sort == EdgeSort { EdgeStep(c, |h| + 1, m, 0); }
    EdgeAfter(h, c, m, Step(c, |h| + 1, m, 0).value.catalog, id);
  }

  lemma PurgeSaysAfter(h: History, c: Catalog, m: Mutation, id: string)
    requires Keyed(c)
    requires Normalized(m) && !KnownKey(c, m) && Step(c, |h| + 1, m, 0).Ok? && PurgeSays(h, c, id)
    ensures PurgeSays(h + [m], Step(c, |h| + 1, m, 0).value.catalog, id)
  {
    hide Step, Normalized, PurgeSays;
    NoUnknown(c, |h| + 1, m);
    Untouched(c, |h| + 1, m);
    if Target(m).sort == PurgeSort { PurgeStep(c, |h| + 1, m, 0); }
    PurgeAfter(h, c, m, Step(c, |h| + 1, m, 0).value.catalog, id);
  }

  lemma NoUnknown(c: Catalog, n: nat, m: Mutation)
    requires Normalized(m)
    ensures m.kind != Unknown
  {
  }

  lemma RecordAfter(h: History, c: Catalog, m: Mutation, d: Catalog, id: string)
    requires RecordSays(h, c, id)
    requires Target(m) != Key(RecordSort, id) ==> (id in d.records <==> id in c.records)
    requires Target(m) != Key(RecordSort, id) && id in c.records ==> d.records[id] == c.records[id]
    requires Target(m) == Key(RecordSort, id) ==>
      && id in d.records && (Deletes(m.kind) ==> id in c.records)
      && d.records[id] == if Deletes(m.kind) then c.records[id].(deleted := true, stamp := d.records[id].stamp)
                     else m.record.(deleted := false, stamp := d.records[id].stamp)
    ensures RecordSays(h + [m], d, id)
  {
    hide Target, Deletes, LastWrite, DeletedAfter;
    OneMore(h, m, Key(RecordSort, id));
  }

  lemma NodeAfter(h: History, c: Catalog, m: Mutation, d: Catalog, id: string)
    requires NodeSays(h, c, id)
    requires Target(m) != Key(NodeSort, id) ==> (id in d.nodes <==> id in c.nodes)
    requires Target(m) != Key(NodeSort, id) && id in c.nodes ==> d.nodes[id] == c.nodes[id]
    requires Target(m) == Key(NodeSort, id) ==>
      && id in d.nodes && (Deletes(m.kind) ==> id in c.nodes)
      && d.nodes[id] == if Deletes(m.kind) then c.nodes[id].(deleted := true, stamp := d.nodes[id].stamp)
                     else m.node.(deleted := false, stamp := d.nodes[id].stamp)
    ensures NodeSays(h + [m], d, id)
  {
    hide Target, Deletes, LastWrite, DeletedAfter;
    OneMore(h, m, Key(NodeSort, id));
  }

  lemma EdgeAfter(h: History, c: Catalog, m: Mutation, d: Catalog, id: string)
    requires EdgeSays(h, c, id)
    requires Target(m) != Key(EdgeSort, id) ==> (id in d.edges <==> id in c.edges)
    requires Target(m) != Key(EdgeSort, id) && id in c.edges ==> d.edges[id] == c.edges[id]
    requires Target(m) == Key(EdgeSort, id) ==>
      && id in d.edges && (Deletes(m.kind) ==> id in c.edges)
      && d.edges[id] == if Deletes(m.kind) then c.edges[id].(deleted := true, stamp := d.edges[id].stamp)
                     else m.edge.(deleted := false, stamp := d.edges[id].stamp)
    ensures EdgeSays(h + [m], d, id)
  {
    hide Target, Deletes, LastWrite, DeletedAfter;
    OneMore(h, m, Key(EdgeSort, id));
  }

  lemma ChunkAfter(h: History, c: Catalog, m: Mutation, d: Catalog, id: string)
    requires ChunkSays(h, c, id)
    requires Target(m) != Key(ChunkSort, id) ==> (id in d.chunks <==> id in c.chunks)
    requires Target(m) != Key(ChunkSort, id) && id in c.chunks ==> d.chunks[id] == c.chunks[id]
    requires Target(m) == Key(ChunkSort, id) ==>
      id in d.chunks && !Deletes(m.kind) && d.chunks[id] == m.chunk.(stamp := d.chunks[id].stamp)
    ensures ChunkSays(h + [m], d, id)
  {
    hide Target, Deletes, LastWrite, DeletedAfter;
    OneMore(h, m, Key(ChunkSort, id));
  }

  lemma SpanAfter(h: History, c: Catalog, m: Mutation, d: Catalog, id: string)
    requires SpanSays(h, c, id)
    requires Target(m) != Key(SpanSort, id) ==> (id in d.sourceSpans <==> id in c.sourceSpans)
    requires Target(m) != Key(SpanSort, id) && id in c.sourceSpans ==> d.sourceSpans[id] == c.sourceSpans[id]
    requires Target(m) == Key(SpanSort, id) ==>
      && id in d.sourceSpans && !Deletes(m.kind)
      && d.sourceSpans[id] ==
           m.sourceSpan.(chunkRefs := d.sourceSpans[id].chunkRefs, stamp := d.sourceSpans[id].stamp)
      && multiset(d.sourceSpans[id].chunkRefs) == multiset(m.sourceSpan.chunkRefs)
    ensures SpanSays(h + [m], d, id)
  {
    hide Target, Deletes, LastWrite, DeletedAfter;
    OneMore(h, m, Key(SpanSort, id));
  }

  lemma PurgeAfter(h: History, c: Catalog, m: Mutation, d: Catalog, id: string)
    requires PurgeSays(h, c, id)
    requires Target(m) != Key(PurgeSort, id) ==> (id in d.purgeRequests <==> id in c.purgeRequests)
    requires Target(m) != Key(PurgeSort, id) && id in c.purgeRequests ==> d.purgeRequests[id] == c.purgeRequests[id]
    requires Target(m) == Key(PurgeSort, id) ==>
      && id in d.purgeRequests && !Deletes(m.kind)
      && d.purgeRequests[id] == m.purgeRequest.(stamp := d.purgeRequests[id].stamp)
    ensures PurgeSays(h + [m], d, id)
  {
    hide Target, Deletes, LastWrite, DeletedAfter;
    OneMore(h, m, Key(PurgeSort, id));
  }
}
