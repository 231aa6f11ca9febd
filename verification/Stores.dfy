/** The store in the form its source has: an object whose methods update maps and indexes in
    place. Every method is proved against the functions of `Catalogs`, `Disks` and
    `Operations`, and keeps the catalog sound and every index exact. */
module Stores {
  import opened Text
  import opened Types
  import opened Normalize
  import opened Catalogs
  import opened Laws
  import opened Integrity
  import opened Indexes
  import opened Disks
  import opened Recovery
  import opened System
  import opened Operations
  import opened Logs

  /** The files hold what a store wrote. A store opens on others, too, if their checksums are
      right; but then nothing is promised about its indexes. */
  ghost predicate Trusted(d: Disk) {
    && (d.snapshot.Some? ==> Sound(d.snapshot.value))
    && AllNormalized(d.segment.entries)
  }

  ghost predicate AllNormalized(entries: seq<Entry>) {
    forall i :: 0 <= i < |entries| ==> Normalized(entries[i].mutation)
  }

  function Only<T>(m: map<string, T>, ids: set<string>): map<string, T> {
    map id | id in ids && id in m :: m[id]
  }

  class Store {
    const hash: Hash
    const log: Log
    var durableSeq: nat
    var snapshotSeq: nat
    var compactionSeq: nat
    var projectionEvents: seq<Event>
    var projectorCheckpoints: map<string, nat>
    /** The running workers, each with the error of its last turn. */
    var projectors: map<string, Option<Error>>
    var records: map<string, Record>
    var chunks: map<string, Chunk>
    var sourceSpans: map<string, SourceSpan>
    var nodes: map<string, Node>
    var edges: map<string, Edge>
    var purgeRequests: map<string, PurgeRequest>
    var indexes: RecordIndexes
    var chunkIndexes: ChunkIndexes
    var spanIndexes: SpanIndexes
    var graph: GraphIndexes
    var idempotency: map<string, ApplyResult>
    var closed: bool

    function Data(): Catalog
      reads this
    {
      Catalog(durableSeq, records, chunks, sourceSpans, nodes, edges, purgeRequests, idempotency)
    }

    function Viewed(): View
      reads this, log
    {
      View(Data(), log.nextSeq, snapshotSeq, compactionSeq, projectionEvents, projectorCheckpoints)
    }

    /** Every index agrees with a scan of its map. */
    ghost predicate IndexesExact()
      reads this
    {
      Indexed(Data(), indexes, chunkIndexes, spanIndexes, graph)
    }

    ghost predicate Consistent()
      reads this
    {
      Sound(Data()) && IndexesExact()
    }

    ghost predicate Valid()
      reads this, log, log.device
    {
      Consistent() && log.Valid() && log.isOpen == !closed
    }

    // -------------------------------------------------------------- opening

    /** A store over an opened log, before the snapshot is loaded. */
    constructor (log: Log, hash: Hash)
      ensures this.log == log && this.hash == hash && fresh(this)
      ensures Data() == EMPTY_CATALOG && Consistent() && !closed && projectors == map[]
      ensures snapshotSeq == 0 && compactionSeq == 0 && projectionEvents == [] && projectorCheckpoints == map[]
    {
      this.log, this.hash := log, hash;
      durableSeq, snapshotSeq, compactionSeq := 0, 0, 0;
      projectionEvents, projectorCheckpoints, projectors := [], map[], map[];
      records, chunks, sourceSpans, nodes, edges, purgeRequests := map[], map[], map[], map[], map[], map[];
      indexes, chunkIndexes, spanIndexes := NO_RECORD_INDEXES, NO_CHUNK_INDEXES, NO_SPAN_INDEXES;
      graph, idempotency, closed := NO_GRAPH_INDEXES, map[], false;
      new;
      hide RecordsExact, ChunksExact, SpansExact, EdgesExact, Sound;
      NoIndexesExact();
      EmptySound();
    }

    method IndexRecord(r: Record)
      modifies `indexes
      ensures indexes == RecordFiled(old(indexes), r)
    {
      var tag := indexes.tag;
      for i := 0 to |r.tags|
        invariant tag == AddAll(indexes.tag, r.tags[..i], r.id)
      {
        assert r.tags[..i + 1][..i] == r.tags[..i];
        tag := Add(tag, r.tags[i], r.id);
      }
      assert r.tags[..|r.tags|] == r.tags;
      indexes := RecordIndexes(
        Single(indexes.namespace, r.namespace, r.id), Single(indexes.projectID, r.projectID, r.id),
        Single(indexes.kind, r.kind, r.id), tag, Single(indexes.humanID, r.humanID, r.id),
        Single(indexes.sessionID, r.sessionID, r.id), Single(indexes.missionID, r.missionID, r.id),
        Single(indexes.persona, r.persona, r.id));
    }

    method RemoveRecordIndex(r: Record)
      modifies `indexes
      ensures indexes == RecordUnfiled(old(indexes), r)
    {
      var tag := indexes.tag;
      for i := 0 to |r.tags|
        invariant tag == RemoveAll(indexes.tag, r.tags[..i], r.id)
      {
        assert r.tags[..i + 1][..i] == r.tags[..i];
        tag := Remove(tag, r.tags[i], r.id);
      }
      assert r.tags[..|r.tags|] == r.tags;
      indexes := RecordIndexes(
        Unsingle(indexes.namespace, r.namespace, r.id), Unsingle(indexes.projectID, r.projectID, r.id),
        Unsingle(indexes.kind, r.kind, r.id), tag, Unsingle(indexes.humanID, r.humanID, r.id),
        Unsingle(indexes.sessionID, r.sessionID, r.id), Unsingle(indexes.missionID, r.missionID, r.id),
        Unsingle(indexes.persona, r.persona, r.id));
    }

    method IndexChunk(k: Chunk)
      modifies `chunkIndexes
      ensures chunkIndexes == ChunkFiled(old(chunkIndexes), k)
    {
      chunkIndexes := ChunkIndexes(
        Add(chunkIndexes.namespace, k.namespace, k.id), Add(chunkIndexes.projectID, k.projectID, k.id),
        Add(chunkIndexes.sessionID, k.sessionID, k.id), Add(chunkIndexes.missionID, k.missionID, k.id),
        Add(chunkIndexes.kind, k.kind, k.id));
    }

    method IndexSourceSpan(s: SourceSpan)
      modifies `spanIndexes
      ensures spanIndexes == SpanFiled(old(spanIndexes), s)
    {
      spanIndexes := SpanIndexes(
        Add(spanIndexes.namespace, s.namespace, s.id), Add(spanIndexes.projectID, s.projectID, s.id),
        Add(spanIndexes.sessionID, s.sessionID, s.id), Add(spanIndexes.missionID, s.missionID, s.id),
        Add(spanIndexes.recordID, s.recordID, s.id));
    }

    method IndexEdge(e: Edge)
      modifies `graph
      ensures graph == EdgeFiled(old(graph), e)
    {
      graph := GraphIndexes(Add(graph.outgoing, e.fromNodeID, e.id), Add(graph.incoming, e.toNodeID, e.id));
    }

    /** Load a snapshot: take over its maps and rebuild every index, in any order. */
    method InstallCatalogSnapshot(data: Catalog)
      modifies `durableSeq, `snapshotSeq, `records, `chunks, `sourceSpans, `nodes, `edges, `purgeRequests,
        `idempotency, `indexes, `chunkIndexes, `spanIndexes, `graph
      ensures Data() == data && snapshotSeq == data.durableSeq && (Sound(data) ==> Consistent())
    {
      hide Indexed, Sound;
      durableSeq, snapshotSeq := data.durableSeq, data.durableSeq;
      records, chunks, sourceSpans := data.records, data.chunks, data.sourceSpans;
      nodes, edges, purgeRequests := data.nodes, data.edges, data.purgeRequests;
      idempotency := data.idempotency;
      RebuildIndexes();
    }

    method RebuildIndexes()
      modifies `indexes, `chunkIndexes, `spanIndexes, `graph
      ensures Sound(Data()) ==> IndexesExact()
    {
      hide RecordsExact, ChunksExact, SpansExact, EdgesExact, Sound;
      if Sound(Data()) { SoundKeys(Data()); }
      RebuildRecordIndexes();
      RebuildChunkIndexes();
      RebuildSpanIndexes();
      RebuildGraphIndexes();
    }

    method RebuildRecordIndexes()
      modifies `indexes
      ensures (forall id :: id in records ==> records[id].id == id) ==> RecordsExact(indexes, records)
    {
      hide RecordFiled;
      NoIndexesExact();
      indexes := NO_RECORD_INDEXES;
      var todo := records.Keys;
      ghost var keyed := forall id :: id in records ==> records[id].id == id;
      ghost var done: set<string> := {};
      assert Only(records, {}) == map[];
      while todo != {}
        invariant done + todo == records.Keys && done !! todo
        invariant keyed ==> RecordsExact(indexes, Only(records, done))
        decreases todo
      {
        hide RecordsExact;
        var id :| id in todo;
        todo := todo - {id};
        if keyed { RecordsExactAdd(indexes, Only(records, done), records[id]); }
        IndexRecord(records[id]);
        assert Only(records, done)[id := records[id]] == Only(records, done + {id});
        done := done + {id};
      }
      assert Only(records, records.Keys) == records;
    }

    method RebuildChunkIndexes()
      modifies `chunkIndexes
      ensures (forall id :: id in chunks ==> chunks[id].id == id) ==> ChunksExact(chunkIndexes, chunks)
    {
      NoIndexesExact();
      chunkIndexes := NO_CHUNK_INDEXES;
      var todo := chunks.Keys;
      ghost var keyed := forall id :: id in chunks ==> chunks[id].id == id;
      ghost var done: set<string> := {};
      assert Only(chunks, {}) == map[];
      while todo != {}
        invariant done + todo == chunks.Keys && done !! todo
        invariant keyed ==> ChunksExact(chunkIndexes, Only(chunks, done))
        decreases todo
      {
        var id :| id in todo;
        todo := todo - {id};
        if keyed { ChunksExactAdd(chunkIndexes, Only(chunks, done), chunks[id]); }
        IndexChunk(chunks[id]);
        assert Only(chunks, done)[id := chunks[id]] == Only(chunks, done + {id});
        done := done + {id};
      }
      assert Only(chunks, chunks.Keys) == chunks;
    }

    method RebuildSpanIndexes()
      modifies `spanIndexes
      ensures (forall id :: id in sourceSpans ==> sourceSpans[id].id == id) ==> SpansExact(spanIndexes, sourceSpans)
    {
      NoIndexesExact();
      spanIndexes := NO_SPAN_INDEXES;
      var todo := sourceSpans.Keys;
      ghost var keyed := forall id :: id in sourceSpans ==> sourceSpans[id].id == id;
      ghost var done: set<string> := {};
      assert Only(sourceSpans, {}) == map[];
      while todo != {}
        invariant done + todo == sourceSpans.Keys && done !! todo
        invariant keyed ==> SpansExact(spanIndexes, Only(sourceSpans, done))
        decreases todo
      {
        var id :| id in todo;
        todo := todo - {id};
        if keyed { SpansExactAdd(spanIndexes, Only(sourceSpans, done), sourceSpans[id]); }
        IndexSourceSpan(sourceSpans[id]);
        assert Only(sourceSpans, done)[id := sourceSpans[id]] == Only(sourceSpans, done + {id});
        done := done + {id};
      }
      assert Only(sourceSpans, sourceSpans.Keys) == sourceSpans;
    }

    method RebuildGraphIndexes()
      modifies `graph
      ensures (forall id :: id in edges ==> edges[id].id == id) ==> EdgesExact(graph, edges)
    {
      NoIndexesExact();
      graph := NO_GRAPH_INDEXES;
      var todo := edges.Keys;
      ghost var keyed := forall id :: id in edges ==> edges[id].id == id;
      ghost var done: set<string> := {};
      assert Only(edges, {}) == map[];
      while todo != {}
        invariant done + todo == edges.Keys && done !! todo
        invariant keyed ==> EdgesExact(graph, Only(edges, done))
        decreases todo
      {
        var id :| id in todo;
        todo := todo - {id};
        if keyed { EdgesExactAdd(graph, Only(edges, done), edges[id]); }
        IndexEdge(edges[id]);
        assert Only(edges, done)[id := edges[id]] == Only(edges, done + {id});
        done := done + {id};
      }
      assert Only(edges, edges.Keys) == edges;
    }

    // -------------------------------------------------------------- applying

    method ApplyCreate(n: nat, m: Mutation, now: Time) returns (r: Result<Entity>)
      modifies `records, `indexes
      ensures r == Catalogs.ApplyCreate(old(Data()), n, m, now)
      ensures Data() == if r.Ok? then Put(old(Data()), r.value) else old(Data())
      ensures old(Consistent()) ==> IndexesExact()
    {
      hide RecordsExact, ChunksExact, SpansExact, EdgesExact, Sound, RecordFiled;
      if m.record.id in records { return Err(Conflict); }
      var at := if m.at == 0 then now else m.at;
      var record := m.record.(deleted := false, stamp := Stamp(1, at, at, n, n));
      if Consistent() { RecordsExactAdd(indexes, records, record); }
      records := records[record.id := record];
      IndexRecord(record);
      r := Ok(RecordEntity(record));
    }

    method ApplyUpdate(n: nat, m: Mutation, now: Time) returns (r: Result<Entity>)
      modifies `records, `indexes
      ensures r == Catalogs.ApplyUpdate(old(Data()), n, m, now)
      ensures Data() == if r.Ok? then Put(old(Data()), r.value) else old(Data())
      ensures old(Consistent()) ==> IndexesExact()
    {
      hide RecordsExact, ChunksExact, SpansExact, EdgesExact, Sound, RecordFiled, RecordUnfiled;
      if m.record.id !in records || records[m.record.id].deleted { return Err(NotFound); }
      var existing := records[m.record.id];
      if m.expectedRevision > 0 && m.expectedRevision != existing.stamp.revision { return Err(Conflict); }
      var updated := m.record.(deleted := false, stamp := Stamp(
        existing.stamp.revision + 1, existing.stamp.createdAt, if m.at == 0 then now else m.at,
        existing.stamp.createdSeq, n));
      if Consistent() {
        SoundKeys(Data());
        RecordsExactReplace(indexes, records, updated);
      }
      RemoveRecordIndex(existing);
      records := records[updated.id := updated];
      IndexRecord(updated);
      r := Ok(RecordEntity(updated));
    }

    method ApplyDelete(n: nat, m: Mutation, now: Time) returns (r: Result<Entity>)
      modifies `records, `indexes
      ensures r == Catalogs.ApplyDelete(old(Data()), n, m, now)
      ensures Data() == if r.Ok? then Put(old(Data()), r.value) else old(Data())
      ensures old(Consistent()) ==> IndexesExact()
    {
      hide RecordsExact, ChunksExact, SpansExact, EdgesExact, Sound, RecordFiled, RecordUnfiled, Trim;
      var id := Trim(m.record.id);
      if id !in records || records[id].deleted { return Err(NotFound); }
      var existing := records[id];
      if m.expectedRevision > 0 && m.expectedRevision != existing.stamp.revision { return Err(Conflict); }
      var deleted := existing.(deleted := true, stamp := existing.stamp.(
        revision := existing.stamp.revision + 1, updatedAt := if m.at == 0 then now else m.at, updatedSeq := n));
      if Consistent() {
        SoundKeys(Data());
        RecordsExactReplace(indexes, records, deleted);
      }
      RemoveRecordIndex(existing);
      records := records[deleted.id := deleted];
      IndexRecord(deleted);
      r := Ok(RecordEntity(deleted));
    }

    method ApplyCreateChunk(n: nat, m: Mutation, now: Time) returns (r: Result<Entity>)
      modifies `chunks, `chunkIndexes
      ensures r == Catalogs.ApplyCreateChunk(old(Data()), n, m, now)
      ensures Data() == if r.Ok? then Put(old(Data()), r.value) else old(Data())
      ensures old(Consistent()) ==> IndexesExact()
    {
      hide RecordsExact, ChunksExact, SpansExact, EdgesExact, Sound, ChunkFiled;
      if m.chunk.id in chunks { return Err(Conflict); }
      var at := if m.at == 0 then now else m.at;
      var chunk := m.chunk.(stamp := Stamp(1, at, at, n, n));
      if Consistent() { ChunksExactAdd(chunkIndexes, chunks, chunk); }
      chunks := chunks[chunk.id := chunk];
      IndexChunk(chunk);
      r := Ok(ChunkEntity(chunk));
    }

    /** The record must be live, and every cited part must lie inside its chunk. */
    method ValidateSourceSpanReferences(s: SourceSpan) returns (failure: Option<Error>)
      ensures failure == Catalogs.ValidateSpanReferences(Data(), s)
    {
      if s.recordID !in records || records[s.recordID].deleted { return Some(NotFound); }
      for i := 0 to |s.chunkRefs|
        invariant CheckRefs(chunks, s.chunkRefs) == CheckRefs(chunks, s.chunkRefs[i..])
      {
        var ref := s.chunkRefs[i];
        assert s.chunkRefs[i..][1..] == s.chunkRefs[i + 1..];
        if ref.chunkID !in chunks { return Some(NotFound); }
        if ref.startOffset > chunks[ref.chunkID].contentLength { return Some(Conflict); }
        if ref.endOffset > 0 && ref.endOffset > chunks[ref.chunkID].contentLength { return Some(Conflict); }
      }
      failure := None;
    }

    method ApplyCreateSourceSpan(n: nat, m: Mutation, now: Time) returns (r: Result<Entity>)
      modifies `sourceSpans, `spanIndexes
      ensures r == Catalogs.ApplyCreateSourceSpan(old(Data()), n, m, now)
      ensures Data() == if r.Ok? then Put(old(Data()), r.value) else old(Data())
      ensures old(Consistent()) ==> IndexesExact()
    {
      hide RecordsExact, ChunksExact, SpansExact, EdgesExact, Sound, SpanFiled, Catalogs.ValidateSpanReferences,
        SortRefs;
      if m.sourceSpan.id in sourceSpans { return Err(Conflict); }
      var failure := ValidateSourceSpanReferences(m.sourceSpan);
      if failure.Some? { return Err(failure.value); }
      var at := if m.at == 0 then now else m.at;
      var span := m.sourceSpan.(chunkRefs := SortRefs(chunks, m.sourceSpan.chunkRefs), stamp := Stamp(1, at, at, n, n));
      if Consistent() { SpansExactAdd(spanIndexes, sourceSpans, span); }
      sourceSpans := sourceSpans[span.id := span];
      IndexSourceSpan(span);
      r := Ok(SpanEntity(span));
    }

    method ApplyCreateNode(n: nat, m: Mutation, now: Time) returns (r: Result<Entity>)
      modifies `nodes
      ensures r == Catalogs.ApplyCreateNode(old(Data()), n, m, now)
      ensures Data() == if r.Ok? then Put(old(Data()), r.value) else old(Data())
      ensures old(Consistent()) ==> IndexesExact()
    {
      hide RecordsExact, ChunksExact, SpansExact, EdgesExact, Sound;
      if m.node.id in nodes { return Err(Conflict); }
      var at := if m.at == 0 then now else m.at;
      var node := m.node.(deleted := false, stamp := Stamp(1, at, at, n, n));
      nodes := nodes[node.id := node];
      r := Ok(NodeEntity(node));
    }

    method ApplyUpdateNode(n: nat, m: Mutation, now: Time) returns (r: Result<Entity>)
      modifies `nodes
      ensures r == Catalogs.ApplyUpdateNode(old(Data()), n, m, now)
      ensures Data() == if r.Ok? then Put(old(Data()), r.value) else old(Data())
      ensures old(Consistent()) ==> IndexesExact()
    {
      hide RecordsExact, ChunksExact, SpansExact, EdgesExact, Sound;
      if m.node.id !in nodes || nodes[m.node.id].deleted { return Err(NotFound); }
      var existing := nodes[m.node.id];
      if m.expectedRevision > 0 && m.expectedRevision != existing.stamp.revision { return Err(Conflict); }
      var updated := m.node.(deleted := false, stamp := Stamp(
        existing.stamp.revision + 1, existing.stamp.createdAt, if m.at == 0 then now else m.at,
        existing.stamp.createdSeq, n));
      nodes := nodes[updated.id := updated];
      r := Ok(NodeEntity(updated));
    }

    method ApplyDeleteNode(n: nat, m: Mutation, now: Time) returns (r: Result<Entity>)
      modifies `nodes
      ensures r == Catalogs.ApplyDeleteNode(old(Data()), n, m, now)
      ensures Data() == if r.Ok? then Put(old(Data()), r.value) else old(Data())
      ensures old(Consistent()) ==> IndexesExact()
    {
      hide RecordsExact, ChunksExact, SpansExact, EdgesExact, Sound, Trim;
      var id := Trim(m.node.id);
      if id !in nodes || nodes[id].deleted { return Err(NotFound); }
      var existing := nodes[id];
      if m.expectedRevision > 0 && m.expectedRevision != existing.stamp.revision { return Err(Conflict); }
      var deleted := existing.(deleted := true, stamp := existing.stamp.(
        revision := existing.stamp.revision + 1, updatedAt := if m.at == 0 then now else m.at, updatedSeq := n));
      nodes := nodes[deleted.id := deleted];
      r := Ok(NodeEntity(deleted));
    }

    method ApplyCreateEdge(n: nat, m: Mutation, now: Time) returns (r: Result<Entity>)
      modifies `edges, `graph
      ensures r == Catalogs.ApplyCreateEdge(old(Data()), n, m, now)
      ensures Data() == if r.Ok? then Put(old(Data()), r.value) else old(Data())
      ensures old(Consistent()) ==> IndexesExact()
    {
      hide RecordsExact, ChunksExact, SpansExact, EdgesExact, Sound, EdgeFiled;
      if m.edge.id in edges { return Err(Conflict); }
      if m.edge.fromNodeID !in nodes || nodes[m.edge.fromNodeID].deleted { return Err(NotFound); }
      if m.edge.toNodeID !in nodes || nodes[m.edge.toNodeID].deleted { return Err(NotFound); }
      var at := if m.at == 0 then now else m.at;
      var edge := m.edge.(deleted := false, stamp := Stamp(1, at, at, n, n));
      if Consistent() { EdgesExactAdd(graph, edges, edge); }
      edges := edges[edge.id := edge];
      IndexEdge(edge);
      r := Ok(EdgeEntity(edge));
    }

    method ApplyDeleteEdge(n: nat, m: Mutation, now: Time) returns (r: Result<Entity>)
      modifies `edges
      ensures r == Catalogs.ApplyDeleteEdge(old(Data()), n, m, now)
      ensures Data() == if r.Ok? then Put(old(Data()), r.value) else old(Data())
      ensures old(Consistent()) ==> IndexesExact()
    {
      hide RecordsExact, ChunksExact, SpansExact, EdgesExact, Sound, Trim;
      var id := Trim(m.edge.id);
      if id !in edges || edges[id].deleted { return Err(NotFound); }
      var existing := edges[id];
      if m.expectedRevision > 0 && m.expectedRevision != existing.stamp.revision { return Err(Conflict); }
      var deleted := existing.(deleted := true, stamp := existing.stamp.(
        revision := existing.stamp.revision + 1, updatedAt := if m.at == 0 then now else m.at, updatedSeq := n));
      if Consistent() {
        SoundKeys(Data());
        EdgesExactSame(graph, edges, deleted);
      }
      edges := edges[deleted.id := deleted];
      r := Ok(EdgeEntity(deleted));
    }

    method ApplyCreatePurgeRequest(n: nat, m: Mutation, now: Time) returns (r: Result<Entity>)
      modifies `purgeRequests
      ensures r == Catalogs.ApplyCreatePurgeRequest(old(Data()), n, m, now)
      ensures Data() == if r.Ok? then Put(old(Data()), r.value) else old(Data())
      ensures old(Consistent()) ==> IndexesExact()
    {
      hide RecordsExact, ChunksExact, SpansExact, EdgesExact, Sound;
      if m.purgeRequest.id in purgeRequests { return Err(Conflict); }
      var at := if m.at == 0 then now else m.at;
      var request := m.purgeRequest.(stamp := Stamp(1, at, at, n, n));
      purgeRequests := purgeRequests[request.id := request];
      r := Ok(PurgeEntity(request));
    }

    /** The switch over the eleven mutation types. */
    method Dispatch(n: nat, m: Mutation, now: Time) returns (r: Result<Entity>)
      modifies `records, `chunks, `sourceSpans, `nodes, `edges, `purgeRequests,
        `indexes, `chunkIndexes, `spanIndexes, `graph
      ensures r == Materialize(old(Data()), n, m, now)
      ensures Data() == if r.Ok? then Put(old(Data()), r.value) else old(Data())
      ensures old(Consistent()) ==> IndexesExact()
    {
      hide Indexed, Sound, Put, Catalogs.ApplyCreate, Catalogs.ApplyUpdate, Catalogs.ApplyDelete,
        Catalogs.ApplyCreateChunk, Catalogs.ApplyCreateSourceSpan, Catalogs.ApplyCreateNode, Catalogs.ApplyUpdateNode,
        Catalogs.ApplyDeleteNode, Catalogs.ApplyCreateEdge, Catalogs.ApplyDeleteEdge, Catalogs.ApplyCreatePurgeRequest;
      match m.kind {
        case CreateRecord => r := ApplyCreate(n, m, now);
        case UpdateRecord => r := ApplyUpdate(n, m, now);
        case DeleteRecord => r := ApplyDelete(n, m, now);
        case CreateChunk => r := ApplyCreateChunk(n, m, now);
        case CreateSourceSpan => r := ApplyCreateSourceSpan(n, m, now);
        case CreateNode => r := ApplyCreateNode(n, m, now);
        case UpdateNode => r := ApplyUpdateNode(n, m, now);
        case DeleteNode => r := ApplyDeleteNode(n, m, now);
        case CreateEdge => r := ApplyCreateEdge(n, m, now);
        case DeleteEdge => r := ApplyDeleteEdge(n, m, now);
        case CreatePurgeRequest => r := ApplyCreatePurgeRequest(n, m, now);
        case Unknown => r := Err(Unsupported);
      }
    }

    method ApplyLocked(n: nat, m: Mutation, now: Time) returns (r: Result<ApplyResult>)
      modifies `durableSeq, `records, `chunks, `sourceSpans, `nodes, `edges, `purgeRequests,
        `indexes, `chunkIndexes, `spanIndexes, `graph, `idempotency, `projectionEvents
      ensures old(Consistent()) && Normalized(m) ==> Consistent()
      ensures match Step(old(Data()), n, m, now)
        case Err(e) => r == Err(e) && Data() == old(Data()) && projectionEvents == old(projectionEvents)
        case Ok(o) =>
          && r == Ok(o.result) && Data() == o.catalog
          && projectionEvents == old(projectionEvents) + if o.result.idempotent then [] else [EventOf(n, m)]
    {
      hide Indexed, Sound, Materialize, Put, Normalized;
      if m.idempotencyKey != "" && m.idempotencyKey in idempotency {
        return Ok(idempotency[m.idempotencyKey].(idempotent := true));
      }
      ghost var before, kept := Data(), Consistent() && Normalized(m);
      var entity := Dispatch(n, m, now);
      if entity.Err? { return Err(entity.error); }
      var result := ApplyResult(n, entity.value, false);
      ghost var put := Data();
      PutFields(before, entity.value);
      durableSeq := n;
      if m.idempotencyKey != "" {
        idempotency := idempotency[m.idempotencyKey := result];
      }
      projectionEvents := projectionEvents + [EventOf(n, m)];
      r := Ok(result);
      if kept {
        StepSound(before, n, m, now);
        IndexedFrame(put, Data(), indexes, chunkIndexes, spanIndexes, graph);
      }
    }

    // -------------------------------------------------------------- the public operations

    /** The manifest with the highest sequence, if any. */
    static method LatestManifest(manifests: set<nat>) returns (latest: Option<nat>)
      ensures latest.None? <==> manifests == {}
      ensures latest.Some? ==> latest.value == Latest(manifests)
    {
      latest := None;
      var todo := manifests;
      while todo != {}
        invariant todo <= manifests
        invariant if latest.None? then todo == manifests else latest.value in manifests - todo
        invariant latest.Some? ==> forall n :: n in manifests - todo ==> n <= latest.value
        decreases todo
      {
        var n :| n in todo;
        assert forall x :: x in manifests - (todo - {n}) ==> x == n || x in manifests - todo;
        todo := todo - {n};
        if latest.None? || n > latest.value { latest := Some(n); }
      }
      assert manifests - todo == manifests;
      assert latest.Some? ==> IsLatest(manifests, latest.value) && IsLatest(manifests, Latest(manifests));
    }

    /** Snapshot, checkpoints and manifest, before the segment is replayed. */
    method Load(d: Disk) returns (failure: Option<Error>)
      requires Consistent() && Data() == EMPTY_CATALOG && snapshotSeq == 0 && compactionSeq == 0
      requires projectionEvents == [] && log.nextSeq == NextSeq(d.segment)
      modifies this
      ensures (d.snapshot.Some? ==> Sound(d.snapshot.value)) ==> Consistent()
      ensures projectors == old(projectors) && closed == old(closed)
      ensures var v := Loaded(d);
        if d.manifests != {} && v.snapshotSeq < v.compactionSeq then failure == Some(Behind(v.compactionSeq))
        else failure.None? && Viewed() == v
    {
      hide Indexed, Sound, Latest, NextSeq;
      projectorCheckpoints := d.checkpoints;
      if d.snapshot.Some? {
        InstallCatalogSnapshot(d.snapshot.value);
      }
      var manifest := LatestManifest(d.manifests);
      assert IsLatest({}, Latest({}));
      if manifest.Some? {
        compactionSeq := manifest.value;
        if snapshotSeq < compactionSeq { return Some(Behind(compactionSeq)); }
      }
      failure := None;
    }

    /** Any directory may be opened. One with an unreadable file or a gap in its segment is
        refused; what any other opens to is exactly what recovery specifies. */
    static method Open(device: Device, hash: Hash, now: Time) returns (r: Result<Store>)
      ensures if !device.Readable() then r == Err(Corrupt)
        else
          match Recover(device.state, now)
          case Err(e) => r == Err(e)
          case Ok(v) =>
            && r.Ok? && fresh(r.value) && fresh(r.value.log) && r.value.log.device == device
            && r.value.Viewed() == v && r.value.log.Valid() && r.value.hash == hash
            && r.value.projectors == map[] && !r.value.closed
            && (Trusted(device.state) ==> r.value.Valid())
    {
      hide Indexed, Sound, ReplayAll, Loaded, AllNormalized, NextSeq, Device.Readable;
      var opening := Log.Open(device);
      if opening.Err? { return Err(Corrupt); }
      var s := new Store(opening.value, hash);
      var failure := s.Load(device.state);
      if failure.Some? { return Err(failure.value); }
      failure := s.ReplayTail(device.state.segment.entries, now);
      if failure.Some? { return Err(failure.value); }
      r := Ok(s);
    }

    /** An entry the snapshot covers is only queued for projectors; any other is applied. */
    method ReplayEntry(entry: Entry, now: Time) returns (failure: Option<Error>)
      modifies `durableSeq, `records, `chunks, `sourceSpans, `nodes, `edges, `purgeRequests,
        `indexes, `chunkIndexes, `spanIndexes, `graph, `idempotency, `projectionEvents
      ensures old(Consistent()) && Normalized(entry.mutation) ==> Consistent()
      ensures match ReplayOne(old(Viewed()), entry, now)
        case Err(e) => failure == Some(e)
        case Ok(v) => failure.None? && Viewed() == v
    {
      hide Indexed, Sound, Step, Normalized, EventOf;
      failure := None;
      if entry.seqNo <= durableSeq {
        projectionEvents := projectionEvents + [EventOf(entry.seqNo, entry.mutation)];
      } else {
        var applied := ApplyLocked(entry.seqNo, entry.mutation, now);
        if applied.Err? { failure := Some(applied.error); }
      }
    }

    method ReplayTail(entries: seq<Entry>, now: Time) returns (failure: Option<Error>)
      modifies `durableSeq, `records, `chunks, `sourceSpans, `nodes, `edges, `purgeRequests,
        `indexes, `chunkIndexes, `spanIndexes, `graph, `idempotency, `projectionEvents
      ensures old(Consistent()) && AllNormalized(entries) ==> Consistent()
      ensures match ReplayAll(old(Viewed()), entries, now)
        case Err(e) => failure == Some(e)
        case Ok(v) => failure.None? && Viewed() == v
    {
      hide Consistent, ReplayOne, Normalized;
      for i := 0 to |entries|
        invariant old(Consistent()) && AllNormalized(entries) ==> Consistent()
        invariant ReplayAll(old(Viewed()), entries[..i], now) == Ok(Viewed())
      {
        assert entries[..i + 1][..i] == entries[..i];
        failure := ReplayEntry(entries[i], now);
        if failure.Some? {
          ReplayStops(old(Viewed()), entries, i + 1, now);
          return;
        }
      }
      assert entries[..|entries|] == entries;
      failure := None;
    }

    /** The durable half of an accepted `Apply`: the body first, then the frame. */
    method AppendMutation(seqNo: nat, p: Mutation, content: seq<Byte>) returns (failure: Option<Error>)
      requires log.Valid() && log.isOpen
      modifies log`nextSeq, log.device
      ensures log.Valid()
      ensures var d := old(log.device.state);
        var bodies := if p.kind == CreateChunk then [WithBody(d, p.chunk.id, content)] else [];
        var steps := if failure.None? then bodies + [WithEntry(LastOf(d, bodies), seqNo, p)] else bodies;
        log.device.state == LastOf(d, steps) && log.device.trace == old(log.device.trace) + steps
      ensures failure == if seqNo == old(log.nextSeq) then None else Some(Refused)
      ensures log.nextSeq == if failure.None? then seqNo + 1 else old(log.nextSeq)
    {
      hide Contiguous, NextSeq, WithEntry;
      if p.kind == CreateChunk {
        SameSegment(log.device.state, WithBody(log.device.state, p.chunk.id, content));
        log.device.Write(WithBody(log.device.state, p.chunk.id, content));
      }
      failure := log.Append(seqNo, p);
    }

    /** Body, frame, memory, in this order. */
    method CommitMutation(p: Mutation, content: seq<Byte>, now: Time) returns (r: Result<ApplyResult>)
      requires Valid() && Normalized(p) && !closed && !KnownKey(Data(), p)
      modifies `durableSeq, `records, `chunks, `sourceSpans, `nodes, `edges, `purgeRequests,
        `indexes, `chunkIndexes, `spanIndexes, `graph, `idempotency, `projectionEvents, log`nextSeq, log.device
      ensures Valid()
      ensures var done := Commit(old(log.device.state), old(Viewed()), p, content, now);
        && r == done.result && Viewed() == done.view
        && log.device.trace == old(log.device.trace) + done.steps
        && log.device.state == LastOf(old(log.device.state), done.steps)
    {
      hide Consistent, Step, Normalized, EventOf, Contiguous, NextSeq, LastOf, WithEntry, WithBody, KnownKey;
      NewKeyApplies(Data(), durableSeq + 1, p, now);
      var seqNo := durableSeq + 1;
      var failure := AppendMutation(seqNo, p, content);
      if failure.Some? { return Err(failure.value); }
      r := ApplyLocked(seqNo, p, now);
    }

    method Apply(m: Mutation, now: Time) returns (r: Result<ApplyResult>)
      requires Valid() && now > 0
      modifies `durableSeq, `records, `chunks, `sourceSpans, `nodes, `edges, `purgeRequests,
        `indexes, `chunkIndexes, `spanIndexes, `graph, `idempotency, `projectionEvents, log`nextSeq, log.device
      ensures Valid()
      ensures if closed then
          (r.Err? && Viewed() == old(Viewed()) && log.device.trace == old(log.device.trace))
        else
          var done := ApplyOn(hash, old(log.device.state), old(Viewed()), m, now);
          && r == done.result && Viewed() == done.view
          && log.device.trace == old(log.device.trace) + done.steps
          && log.device.state == LastOf(old(log.device.state), done.steps)
    {
      hide Consistent, Commit, Normalized, NormalizeMutation, Preflight, Prepared;
      NormalizeEstablishes(m, hash);
      var normalized := NormalizeMutation(m, hash);
      if normalized.Err? { return Err(normalized.error); }
      var n := normalized.value;
      if closed { return Err(Closed); }
      if n.idempotencyKey != "" && n.idempotencyKey in idempotency {
        return Ok(idempotency[n.idempotencyKey].(idempotent := true));
      }
      var p := Prepared(n, now);
      StampedStaysNormalized(n, now);
      var failure := Preflight(Data(), p);
      if failure.Some? { return Err(failure.value); }
      r := CommitMutation(p, n.chunkContent, now);
    }

    method WriteSnapshot() returns (r: Result<nat>)
      requires Valid()
      modifies `snapshotSeq, log.device
      ensures Valid()
      ensures if closed then
          (r == Err(Closed) && Viewed() == old(Viewed()) && log.device.trace == old(log.device.trace))
        else
          var done := SnapshotOn(old(log.device.state), old(Viewed()));
          && r == done.result && Viewed() == done.view
          && log.device.trace == old(log.device.trace) + done.steps
          && log.device.state == LastOf(old(log.device.state), done.steps)
    {
      hide Indexed, Sound;
      if closed { return Err(Closed); }
      var data := Data();
      log.device.Write(WithSnapshot(log.device.state, data));
      if data.durableSeq > snapshotSeq { snapshotSeq := data.durableSeq; }
      r := Ok(data.durableSeq);
    }

    method EnsureProjectorsReady(n: nat) returns (ready: bool)
      ensures ready <==> ProjectorsReady(projectorCheckpoints, n)
    {
      var todo := projectorCheckpoints.Keys;
      while todo != {}
        invariant todo <= projectorCheckpoints.Keys
        invariant forall name :: name in projectorCheckpoints.Keys - todo ==> n <= projectorCheckpoints[name]
        decreases todo
      {
        var name :| name in todo;
        if projectorCheckpoints[name] < n { return false; }
        todo := todo - {name};
      }
      ready := true;
    }

    method ProjectionEventsAfter(n: nat) returns (out: seq<Event>)
      ensures out == EventsAfter(projectionEvents, n)
    {
      out := [];
      for i := 0 to |projectionEvents|
        invariant out == EventsAfter(projectionEvents[..i], n)
      {
        assert projectionEvents[..i + 1][..i] == projectionEvents[..i];
        if projectionEvents[i].seqNo > n { out := out + [projectionEvents[i]]; }
      }
      assert projectionEvents[..|projectionEvents|] == projectionEvents;
    }

    /** The durable half of `Compact`: snapshot, archive, swap, manifest, in this order. */
    method CompactFiles(data: Catalog) returns (failure: Option<Error>)
      requires log.Valid() && log.isOpen
      modifies log, log.device
      ensures log.Valid() && log.isOpen
      ensures var n, d := data.durableSeq, old(log.device.state);
        var steps := if failure.None? then CompactionSteps(d, data) else [WithSnapshot(d, data)];
        log.device.state == LastOf(d, steps) && log.device.trace == old(log.device.trace) + steps
      ensures failure ==
        if 0 < data.durableSeq < old(log.nextSeq) && HasFrames(old(log.device.state.segment), data.durableSeq) then None
        else Some(Refused)
      ensures log.nextSeq == if failure.None? then NextSeq(log.device.state.segment) else old(log.nextSeq)
    {
      hide After, HasFrames, Contiguous, NextSeq;
      SameSegment(log.device.state, WithSnapshot(log.device.state, data));
      log.device.Write(WithSnapshot(log.device.state, data));
      failure := log.CompactThrough(data.durableSeq);
      if failure.Some? { return; }
      SameSegment(log.device.state, WithManifest(log.device.state, data.durableSeq));
      log.device.Write(WithManifest(log.device.state, data.durableSeq));
    }

    /** The files first, then memory. */
    method Compact() returns (r: Result<nat>)
      requires Valid()
      modifies `snapshotSeq, `compactionSeq, `projectionEvents, log, log.device
      ensures Valid()
      ensures if closed then
          (r == Err(Closed) && Viewed() == old(Viewed()) && log.device.trace == old(log.device.trace))
        else
          var done := CompactOn(old(log.device.state), old(Viewed()));
          && r == done.result && Viewed() == done.view
          && log.device.trace == old(log.device.trace) + done.steps
          && log.device.state == LastOf(old(log.device.state), done.steps)
    {
      hide Indexed, Sound, HasFrames, EventsAfter, ProjectorsReady, Contiguous, NextSeq, CompactionSteps, Swapped;
      if closed { return Err(Closed); }
      if durableSeq == 0 { return Err(Refused); }
      var ready := EnsureProjectorsReady(durableSeq);
      if !ready { return Err(Refused); }
      var data := Data();
      var failure := CompactFiles(data);
      StepsEndSwapped(old(log.device.state), data);
      if failure.Some? { return Err(failure.value); }
      snapshotSeq := data.durableSeq;
      compactionSeq := data.durableSeq;
      var kept := ProjectionEventsAfter(data.durableSeq);
      projectionEvents := kept;
      r := Ok(data.durableSeq);
    }

    method Close()
      requires Valid()
      modifies `closed, `projectors, log
      ensures Valid() && closed && projectors == map[] && Viewed() == old(Viewed())
    {
      hide Indexed, Sound;
      closed := true;
      projectors := map[];
      log.isOpen := false;
    }

    // -------------------------------------------------------------- projectors

    method RegisterProjector(rawName: string) returns (failure: Option<Error>)
      requires Valid()
      modifies `projectors, `projectorCheckpoints
      ensures Valid()
      ensures var name := Trim(rawName);
        && (failure.None? <==>
              name != "" && !closed && name !in old(projectors) && MayRegister(old(Viewed()), name))
        && (failure.Some? ==> projectors == old(projectors) && Viewed() == old(Viewed()))
        && (failure.None? ==>
              && projectors == old(projectors)[name := None]
              && RegisterOn(old(Viewed()), old(projectors).Keys, name) == Some(Viewed()))
    {
      hide Indexed, Sound, Trim;
      var name := Trim(rawName);
      if name == "" { return Some(Invalid("projector name is required")); }
      if closed { return Some(Closed); }
      if name in projectors { return Some(Conflict); }
      if compactionSeq > 0 && (name !in projectorCheckpoints || projectorCheckpoints[name] < compactionSeq) {
        return Some(Refused);
      }
      if name !in projectorCheckpoints {
        projectorCheckpoints := projectorCheckpoints[name := 0];
      }
      assert old(projectorCheckpoints)[name := CheckpointOf(old(projectorCheckpoints), name)] == projectorCheckpoints;
      projectors := projectors[name := None];
      failure := None;
    }

    /** The scan a worker makes when it is woken. */
    method NextEvent(name: string) returns (event: Option<Event>)
      ensures event == if closed then None
                       else Disks.NextEvent(projectionEvents, CheckpointOf(projectorCheckpoints, name))
    {
      if closed { return None; }
      var indexed := if name in projectorCheckpoints then projectorCheckpoints[name] else 0;
      for i := 0 to |projectionEvents|
        invariant Disks.NextEvent(projectionEvents, indexed) == Disks.NextEvent(projectionEvents[i..], indexed)
      {
        assert projectionEvents[i..][1..] == projectionEvents[i + 1..];
        if projectionEvents[i].seqNo > indexed { return Some(projectionEvents[i]); }
      }
      event := None;
    }

    /** Write the checkpoint file, then publish it; a checkpoint never goes back. */
    method AdvanceProjectorCheckpoint(name: string, indexed: nat)
      requires Valid()
      modifies `projectorCheckpoints, log.device
      ensures Valid()
      ensures var done := AdvanceOn(old(log.device.state), old(Viewed()), name, indexed);
        && Viewed() == done.view
        && log.device.state == LastOf(old(log.device.state), done.steps)
        && log.device.trace == old(log.device.trace) + done.steps
    {
      hide Indexed, Sound;
      var current := if name in projectorCheckpoints then projectorCheckpoints[name] else 0;
      if current >= indexed { return; }
      log.device.Write(WithCheckpoint(log.device.state, name, indexed));
      projectorCheckpoints := projectorCheckpoints[name := indexed];
    }

    // -------------------------------------------------------------- reading

    /** The body of a chunk, checked against the recorded length and hash. */
    method ReadChunkContent(id: string) returns (r: Option<Result<seq<Byte>>>)
      requires Valid()
      ensures r.None? <==> Trim(id) !in chunks
      ensures r.Some? && BodyMatches(hash, log.device.state.bodies, chunks[Trim(id)]) ==>
        r.value == Ok(log.device.state.bodies[Trim(id)])
      ensures r.Some? && !BodyMatches(hash, log.device.state.bodies, chunks[Trim(id)]) ==> r.value.Err?
      ensures r.Some? ==>
        var k, bodies := chunks[Trim(id)], log.device.state.bodies;
        if k.id in bodies && |bodies[k.id]| == k.contentLength && hash(bodies[k.id]) == k.contentHash then
          r.value == Ok(bodies[k.id])
        else r.value.Err?
    {
      hide Indexed, Trim, SpanSound, EdgeSound;
      var key := Trim(id);
      if key !in chunks { return None; }
      var chunk := chunks[key];
      if chunk.id !in log.device.state.bodies { return Some(Err(NotFound)); }
      var body := log.device.state.bodies[chunk.id];
      if |body| != chunk.contentLength { return Some(Err(Corrupt)); }
      if hash(body) != chunk.contentHash { return Some(Err(Corrupt)); }
      r := Some(Ok(body));
    }
  }

  lemma {:induction false} ReplayStops(v: View, entries: seq<Entry>, n: nat, clock: Time)
    requires n <= |entries| && ReplayAll(v, entries[..n], clock).Err?
    ensures ReplayAll(v, entries, clock) == ReplayAll(v, entries[..n], clock)
    decreases |entries| - n
  {
    hide ReplayOne;
    if n == |entries| {
      assert entries[..n] == entries;
    } else {
      assert entries[..n + 1][..n] == entries[..n];
      ReplayStops(v, entries, n + 1, clock);
    }
  }

  lemma StepsEndSwapped(d: Disk, c: Catalog)
    ensures LastOf(d, CompactionSteps(d, c)).segment == Swapped(d, c.durableSeq).segment
  {
    hide After;
  }

  lemma SameSegment(d: Disk, e: Disk)
    requires e.segment == d.segment
    ensures NextSeq(e.segment) == NextSeq(d.segment)
  {
  }

  lemma StampedStaysNormalized(n: Mutation, now: Time)
    requires Normalized(n)
    ensures Normalized(Prepared(n, now)) && Prepared(n, now).idempotencyKey == n.idempotencyKey
  {
    hide ValidateRecord, ValidateChunk, ValidateSpan, ValidateNode, ValidateEdge, ValidatePurge;
    var p := Prepared(n, now);
    assert p.record == n.record && p.node == n.node && p.edge == n.edge && p.kind == n.kind;
  }

  lemma NewKeyApplies(c: Catalog, n: nat, m: Mutation, clock: Time)
    requires !KnownKey(c, m)
    ensures Step(c, n, m, clock).Ok? ==> !Step(c, n, m, clock).value.result.idempotent
  {
    hide Materialize, Put;
  }

  lemma IndexedFrame(c: Catalog, d: Catalog, records: RecordIndexes, chunks: ChunkIndexes, spans: SpanIndexes,
                     graph: GraphIndexes)
    requires Indexed(c, records, chunks, spans, graph)
    requires d.records == c.records && d.chunks == c.chunks && d.sourceSpans == c.sourceSpans && d.edges == c.edges
    ensures Indexed(d, records, chunks, spans, graph)
  {
    hide RecordsExact, ChunksExact, SpansExact, EdgesExact;
  }

  lemma EmptySound()
    ensures Sound(EMPTY_CATALOG)
  {
  }

  /** Entities are stored under their own ids. */
  lemma SoundKeys(c: Catalog)
    requires Sound(c)
    ensures forall id :: id in c.records ==> c.records[id].id == id
    ensures forall id :: id in c.chunks ==> c.chunks[id].id == id
    ensures forall id :: id in c.sourceSpans ==> c.sourceSpans[id].id == id
    ensures forall id :: id in c.edges ==> c.edges[id].id == id
    ensures Keyed(c)
  {
    hide SpanSound, EdgeSound;
  }

  lemma NoIndexesExact()
    ensures RecordsExact(NO_RECORD_INDEXES, map[]) && ChunksExact(NO_CHUNK_INDEXES, map[])
    ensures SpansExact(NO_SPAN_INDEXES, map[]) && EdgesExact(NO_GRAPH_INDEXES, map[])
  {
  }

  /** Two stores with the same catalog have the same indexes: loading a snapshot and replaying
      the tail gives what applying every mutation gave. */
  lemma SameCatalogSameIndexes(a: Store, b: Store)
    requires a.Consistent() && b.Consistent() && a.Data() == b.Data()
    ensures a.indexes == b.indexes && a.chunkIndexes == b.chunkIndexes
    ensures a.spanIndexes == b.spanIndexes && a.graph == b.graph
  {
    hide RecordsExact, ChunksExact, SpansExact, EdgesExact, Sound;
    IndexesUnique(a.Data(), a.indexes, a.chunkIndexes, a.spanIndexes, a.graph,
                  b.indexes, b.chunkIndexes, b.spanIndexes, b.graph);
  }

  /** What the state machine leaves on disk can always be opened as far as trust goes. */
  lemma JournalTrusted(d: Disk, h: History)
    requires Journal(d, h)
    ensures Trusted(d)
  {
    hide Legal, Fold, Sound, Normalized, Accepts;
    LegalPrefix(h, SnapshotSeq(d));
    HistorySound(h[..SnapshotSeq(d)]);
    forall i | 0 <= i < |d.segment.entries| ensures Normalized(d.segment.entries[i].mutation) {
      LegalStep(h, d.segment.base - 1 + i);
      AcceptedFacts(Fold(h[..d.segment.base - 1 + i]), h[d.segment.base - 1 + i]);
    }
  }
}
