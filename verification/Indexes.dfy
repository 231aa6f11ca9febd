/** Inverted indexes: from a field value to the ids of the entities that have it. The store
    maintains them incrementally and rebuilds them after loading a snapshot. */
module Indexes {
  import opened Types

  type Index = map<string, set<string>>

  predicate Has(ix: Index, value: string, id: string) {
    value in ix && id in ix[value]
  }

  function Bucket(ix: Index, value: string): set<string> {
    if value in ix then ix[value] else {}
  }

  /** `addIndexValue`. */
  function Add(ix: Index, value: string, id: string): Index {
    if value == "" || id == "" then ix else ix[value := Bucket(ix, value) + {id}]
  }

  /** `removeIndexValue`: a bucket that becomes empty is dropped. */
  function Remove(ix: Index, value: string, id: string): Index {
    if value == "" || id == "" || value !in ix then ix
    else
      var bucket := ix[value] - {id};
      if bucket == {} then ix - {value} else ix[value := bucket]
  }

  function AddAll(ix: Index, values: seq<string>, id: string): Index {
    if values == [] then ix
    else Add(AddAll(ix, values[..|values| - 1], id), values[|values| - 1], id)
  }

  function RemoveAll(ix: Index, values: seq<string>, id: string): Index {
    if values == [] then ix
    else Remove(RemoveAll(ix, values[..|values| - 1], id), values[|values| - 1], id)
  }

  ghost predicate NoEmptyBucket(ix: Index) {
    forall v :: v in ix ==> ix[v] != {}
  }

  /** `id` is filed under `v` exactly when the stored entity has the non-empty value `v`. */
  ghost predicate Exact<T(!new)>(ix: Index, entities: map<string, T>, values: T -> seq<string>) {
    && NoEmptyBucket(ix)
    && forall v, id :: Has(ix, v, id) <==> v != "" && id != "" && id in entities && v in values(entities[id])
  }

  lemma {:induction false} AddAllHas(ix: Index, values: seq<string>, id: string)
    requires NoEmptyBucket(ix)
    ensures NoEmptyBucket(AddAll(ix, values, id))
    ensures forall v, j :: Has(AddAll(ix, values, id), v, j) <==>
      Has(ix, v, j) || (j == id && id != "" && v != "" && v in values)
  {
    if values != [] {
      AddAllHas(ix, values[..|values| - 1], id);
      assert values == values[..|values| - 1] + [values[|values| - 1]];
    }
  }

  lemma RemoveHas(ix: Index, value: string, id: string)
    requires NoEmptyBucket(ix)
    ensures NoEmptyBucket(Remove(ix, value, id))
    ensures forall v, j :: Has(Remove(ix, value, id), v, j) <==>
      Has(ix, v, j) && !(j == id && id != "" && v != "" && v == value)
  {
    if value in ix {
      var bucket := ix[value] - {id};
      forall j | j in ix[value] && j != id ensures j in bucket {}
    }
  }

  lemma {:induction false} RemoveAllHas(ix: Index, values: seq<string>, id: string)
    requires NoEmptyBucket(ix)
    ensures NoEmptyBucket(RemoveAll(ix, values, id))
    ensures forall v, j :: Has(RemoveAll(ix, values, id), v, j) <==>
      Has(ix, v, j) && !(j == id && id != "" && v != "" && v in values)
  {
    if values != [] {
      RemoveAllHas(ix, values[..|values| - 1], id);
      RemoveHas(RemoveAll(ix, values[..|values| - 1], id), values[|values| - 1], id);
      assert values == values[..|values| - 1] + [values[|values| - 1]];
    }
  }

  /** Filing a new entity keeps the index exact. */
  lemma ExactAdd<T(!new)>(ix: Index, entities: map<string, T>, values: T -> seq<string>, id: string, e: T)
    requires Exact(ix, entities, values) && id !in entities
    ensures Exact(AddAll(ix, values(e), id), entities[id := e], values)
  {
    hide AddAll, Has;
    AddAllHas(ix, values(e), id);
  }

  /** Unfiling the old version and filing the new one keeps the index exact. */
  lemma ExactReplace<T(!new)>(ix: Index, entities: map<string, T>, values: T -> seq<string>, id: string, e: T)
    requires Exact(ix, entities, values) && id in entities
    ensures Exact(AddAll(RemoveAll(ix, values(entities[id]), id), values(e), id), entities[id := e], values)
  {
    hide AddAll, RemoveAll, Has;
    RemoveAllHas(ix, values(entities[id]), id);
    AddAllHas(RemoveAll(ix, values(entities[id]), id), values(e), id);
  }

  /** Replacing an entity by one with the same values needs no reindexing. */
  lemma ExactSame<T(!new)>(ix: Index, entities: map<string, T>, values: T -> seq<string>, id: string, e: T)
    requires Exact(ix, entities, values) && id in entities && values(e) == values(entities[id])
    ensures Exact(ix, entities[id := e], values)
  {
    hide Has;
  }

  /** There is only one exact index: however it was maintained, it equals the one rebuilt from
      the entities. */
  lemma ExactUnique<T(!new)>(a: Index, b: Index, entities: map<string, T>, values: T -> seq<string>)
    requires Exact(a, entities, values) && Exact(b, entities, values)
    ensures a == b
  {
    forall v ensures v in a ==> v in b && a[v] == b[v] { SameBucket(a, b, entities, values, v); }
    forall v ensures v in b ==> v in a { SameBucket(b, a, entities, values, v); }
  }

  lemma SameBucket<T(!new)>(a: Index, b: Index, entities: map<string, T>, values: T -> seq<string>, v: string)
    requires Exact(a, entities, values) && Exact(b, entities, values)
    ensures v in a ==> v in b && a[v] == b[v]
  {
    assert forall id :: Has(a, v, id) <==> Has(b, v, id);
    if v in a {
      var id :| id in a[v];
      assert Has(a, v, id);
      assert v in b;
      forall j ensures j in a[v] <==> j in b[v] {
        assert Has(a, v, j) <==> Has(b, v, j);
      }
    }
  }

  lemma ExactBucket<T(!new)>(ix: Index, entities: map<string, T>, values: T -> seq<string>, v: string)
    requires Exact(ix, entities, values) && v != ""
    ensures Bucket(ix, v) == set id | id in entities && id != "" && v in values(entities[id])
  {
    assert forall id :: id in Bucket(ix, v) <==> Has(ix, v, id);
  }

  // ---------------------------------------------------------------- the indexes of the store

  datatype RecordIndexes = RecordIndexes(
    namespace: Index, projectID: Index, kind: Index, tag: Index,
    humanID: Index, sessionID: Index, missionID: Index, persona: Index)

  datatype ChunkIndexes = ChunkIndexes(
    namespace: Index, projectID: Index, sessionID: Index, missionID: Index, kind: Index)

  datatype SpanIndexes = SpanIndexes(
    namespace: Index, projectID: Index, sessionID: Index, missionID: Index, recordID: Index)

  datatype GraphIndexes = GraphIndexes(outgoing: Index, incoming: Index)

  const NO_RECORD_INDEXES := RecordIndexes(map[], map[], map[], map[], map[], map[], map[], map[])
  const NO_CHUNK_INDEXES := ChunkIndexes(map[], map[], map[], map[], map[])
  const NO_SPAN_INDEXES := SpanIndexes(map[], map[], map[], map[], map[])
  const NO_GRAPH_INDEXES := GraphIndexes(map[], map[])

  ghost predicate RecordsExact(ix: RecordIndexes, records: map<string, Record>) {
    && Exact(ix.namespace, records, (r: Record) => [r.namespace])
    && Exact(ix.projectID, records, (r: Record) => [r.projectID])
    && Exact(ix.kind, records, (r: Record) => [r.kind])
    && Exact(ix.tag, records, (r: Record) => r.tags)
    && Exact(ix.humanID, records, (r: Record) => [r.humanID])
    && Exact(ix.sessionID, records, (r: Record) => [r.sessionID])
    && Exact(ix.missionID, records, (r: Record) => [r.missionID])
    && Exact(ix.persona, records, (r: Record) => [r.persona])
  }

  ghost predicate ChunksExact(ix: ChunkIndexes, chunks: map<string, Chunk>) {
    && Exact(ix.namespace, chunks, (k: Chunk) => [k.namespace])
    && Exact(ix.projectID, chunks, (k: Chunk) => [k.projectID])
    && Exact(ix.sessionID, chunks, (k: Chunk) => [k.sessionID])
    && Exact(ix.missionID, chunks, (k: Chunk) => [k.missionID])
    && Exact(ix.kind, chunks, (k: Chunk) => [k.kind])
  }

  ghost predicate SpansExact(ix: SpanIndexes, spans: map<string, SourceSpan>) {
    && Exact(ix.namespace, spans, (s: SourceSpan) => [s.namespace])
    && Exact(ix.projectID, spans, (s: SourceSpan) => [s.projectID])
    && Exact(ix.sessionID, spans, (s: SourceSpan) => [s.sessionID])
    && Exact(ix.missionID, spans, (s: SourceSpan) => [s.missionID])
    && Exact(ix.recordID, spans, (s: SourceSpan) => [s.recordID])
  }

  ghost predicate EdgesExact(ix: GraphIndexes, edges: map<string, Edge>) {
    && Exact(ix.outgoing, edges, (e: Edge) => [e.fromNodeID])
    && Exact(ix.incoming, edges, (e: Edge) => [e.toNodeID])
  }

  function Single(ix: Index, value: string, id: string): (r: Index)
    ensures r == AddAll(ix, [value], id)
  {
    assert [value][..0] == [];
    Add(ix, value, id)
  }

  function Unsingle(ix: Index, value: string, id: string): (r: Index)
    ensures r == RemoveAll(ix, [value], id)
  {
    assert [value][..0] == [];
    Remove(ix, value, id)
  }

  function RecordFiled(ix: RecordIndexes, r: Record): RecordIndexes {
    RecordIndexes(
      Single(ix.namespace, r.namespace, r.id), Single(ix.projectID, r.projectID, r.id),
      Single(ix.kind, r.kind, r.id), AddAll(ix.tag, r.tags, r.id), Single(ix.humanID, r.humanID, r.id),
      Single(ix.sessionID, r.sessionID, r.id), Single(ix.missionID, r.missionID, r.id),
      Single(ix.persona, r.persona, r.id))
  }

  function RecordUnfiled(ix: RecordIndexes, r: Record): RecordIndexes {
    RecordIndexes(
      Unsingle(ix.namespace, r.namespace, r.id), Unsingle(ix.projectID, r.projectID, r.id),
      Unsingle(ix.kind, r.kind, r.id), RemoveAll(ix.tag, r.tags, r.id), Unsingle(ix.humanID, r.humanID, r.id),
      Unsingle(ix.sessionID, r.sessionID, r.id), Unsingle(ix.missionID, r.missionID, r.id),
      Unsingle(ix.persona, r.persona, r.id))
  }

  function ChunkFiled(ix: ChunkIndexes, k: Chunk): ChunkIndexes {
    ChunkIndexes(
      Single(ix.namespace, k.namespace, k.id), Single(ix.projectID, k.projectID, k.id),
      Single(ix.sessionID, k.sessionID, k.id), Single(ix.missionID, k.missionID, k.id), Single(ix.kind, k.kind, k.id))
  }

  function SpanFiled(ix: SpanIndexes, s: SourceSpan): SpanIndexes {
    SpanIndexes(
      Single(ix.namespace, s.namespace, s.id), Single(ix.projectID, s.projectID, s.id),
      Single(ix.sessionID, s.sessionID, s.id), Single(ix.missionID, s.missionID, s.id),
      Single(ix.recordID, s.recordID, s.id))
  }

  function EdgeFiled(ix: GraphIndexes, e: Edge): GraphIndexes {
    GraphIndexes(Single(ix.outgoing, e.fromNodeID, e.id), Single(ix.incoming, e.toNodeID, e.id))
  }

  lemma RecordsExactAdd(ix: RecordIndexes, records: map<string, Record>, r: Record)
    requires RecordsExact(ix, records) && r.id !in records
    ensures RecordsExact(RecordFiled(ix, r), records[r.id := r])
  {
    hide Exact, AddAll;
    ExactAdd(ix.namespace, records, (r: Record) => [r.namespace], r.id, r);
    ExactAdd(ix.projectID, records, (r: Record) => [r.projectID], r.id, r);
    ExactAdd(ix.kind, records, (r: Record) => [r.kind], r.id, r);
    ExactAdd(ix.tag, records, (r: Record) => r.tags, r.id, r);
    ExactAdd(ix.humanID, records, (r: Record) => [r.humanID], r.id, r);
    ExactAdd(ix.sessionID, records, (r: Record) => [r.sessionID], r.id, r);
    ExactAdd(ix.missionID, records, (r: Record) => [r.missionID], r.id, r);
    ExactAdd(ix.persona, records, (r: Record) => [r.persona], r.id, r);
  }

  lemma RecordsExactReplace(ix: RecordIndexes, records: map<string, Record>, r: Record)
    requires RecordsExact(ix, records) && r.id in records && records[r.id].id == r.id
    ensures RecordsExact(RecordFiled(RecordUnfiled(ix, records[r.id]), r), records[r.id := r])
  {
    hide Exact, AddAll, RemoveAll;
    ExactReplace(ix.namespace, records, (r: Record) => [r.namespace], r.id, r);
    ExactReplace(ix.projectID, records, (r: Record) => [r.projectID], r.id, r);
    ExactReplace(ix.kind, records, (r: Record) => [r.kind], r.id, r);
    ExactReplace(ix.tag, records, (r: Record) => r.tags, r.id, r);
    ExactReplace(ix.humanID, records, (r: Record) => [r.humanID], r.id, r);
    ExactReplace(ix.sessionID, records, (r: Record) => [r.sessionID], r.id, r);
    ExactReplace(ix.missionID, records, (r: Record) => [r.missionID], r.id, r);
    ExactReplace(ix.persona, records, (r: Record) => [r.persona], r.id, r);
  }

  lemma ChunksExactAdd(ix: ChunkIndexes, chunks: map<string, Chunk>, k: Chunk)
    requires ChunksExact(ix, chunks) && k.id !in chunks
    ensures ChunksExact(ChunkFiled(ix, k), chunks[k.id := k])
  {
    hide Exact, AddAll;
    ExactAdd(ix.namespace, chunks, (k: Chunk) => [k.namespace], k.id, k);
    ExactAdd(ix.projectID, chunks, (k: Chunk) => [k.projectID], k.id, k);
    ExactAdd(ix.sessionID, chunks, (k: Chunk) => [k.sessionID], k.id, k);
    ExactAdd(ix.missionID, chunks, (k: Chunk) => [k.missionID], k.id, k);
    ExactAdd(ix.kind, chunks, (k: Chunk) => [k.kind], k.id, k);
  }

  lemma SpansExactAdd(ix: SpanIndexes, spans: map<string, SourceSpan>, s: SourceSpan)
    requires SpansExact(ix, spans) && s.id !in spans
    ensures SpansExact(SpanFiled(ix, s), spans[s.id := s])
  {
    hide Exact, AddAll;
    ExactAdd(ix.namespace, spans, (s: SourceSpan) => [s.namespace], s.id, s);
    ExactAdd(ix.projectID, spans, (s: SourceSpan) => [s.projectID], s.id, s);
    ExactAdd(ix.sessionID, spans, (s: SourceSpan) => [s.sessionID], s.id, s);
    ExactAdd(ix.missionID, spans, (s: SourceSpan) => [s.missionID], s.id, s);
    ExactAdd(ix.recordID, spans, (s: SourceSpan) => [s.recordID], s.id, s);
  }

  lemma EdgesExactAdd(ix: GraphIndexes, edges: map<string, Edge>, e: Edge)
    requires EdgesExact(ix, edges) && e.id !in edges
    ensures EdgesExact(EdgeFiled(ix, e), edges[e.id := e])
  {
    hide Exact, AddAll;
    ExactAdd(ix.outgoing, edges, (e: Edge) => [e.fromNodeID], e.id, e);
    ExactAdd(ix.incoming, edges, (e: Edge) => [e.toNodeID], e.id, e);
  }

  /** A tombstone keeps its endpoints, so the adjacency sets stay as they are. */
  lemma EdgesExactSame(ix: GraphIndexes, edges: map<string, Edge>, e: Edge)
    requires EdgesExact(ix, edges) && e.id in edges
    requires e.fromNodeID == edges[e.id].fromNodeID && e.toNodeID == edges[e.id].toNodeID
    ensures EdgesExact(ix, edges[e.id := e])
  {
    hide Exact;
    ExactSame(ix.outgoing, edges, (e: Edge) => [e.fromNodeID], e.id, e);
    ExactSame(ix.incoming, edges, (e: Edge) => [e.toNodeID], e.id, e);
  }

  /** The catalog and all of its indexes. */
  ghost predicate Indexed(c: Catalog, records: RecordIndexes, chunks: ChunkIndexes, spans: SpanIndexes,
                          graph: GraphIndexes)
  {
    && RecordsExact(records, c.records)
    && ChunksExact(chunks, c.chunks)
    && SpansExact(spans, c.sourceSpans)
    && EdgesExact(graph, c.edges)
  }

  /** Two stores with the same catalog have the same indexes, whatever each went through. */
  lemma IndexesUnique(c: Catalog, r1: RecordIndexes, k1: ChunkIndexes, s1: SpanIndexes, g1: GraphIndexes,
                      r2: RecordIndexes, k2: ChunkIndexes, s2: SpanIndexes, g2: GraphIndexes)
    requires Indexed(c, r1, k1, s1, g1) && Indexed(c, r2, k2, s2, g2)
    ensures r1 == r2 && k1 == k2 && s1 == s2 && g1 == g2
  {
    hide Exact;
    ExactUnique(r1.namespace, r2.namespace, c.records, (r: Record) => [r.namespace]);
    ExactUnique(r1.projectID, r2.projectID, c.records, (r: Record) => [r.projectID]);
    ExactUnique(r1.kind, r2.kind, c.records, (r: Record) => [r.kind]);
    ExactUnique(r1.tag, r2.tag, c.records, (r: Record) => r.tags);
    ExactUnique(r1.humanID, r2.humanID, c.records, (r: Record) => [r.humanID]);
    ExactUnique(r1.sessionID, r2.sessionID, c.records, (r: Record) => [r.sessionID]);
    ExactUnique(r1.missionID, r2.missionID, c.records, (r: Record) => [r.missionID]);
    ExactUnique(r1.persona, r2.persona, c.records, (r: Record) => [r.persona]);
    ExactUnique(k1.namespace, k2.namespace, c.chunks, (k: Chunk) => [k.namespace]);
    ExactUnique(k1.projectID, k2.projectID, c.chunks, (k: Chunk) => [k.projectID]);
    ExactUnique(k1.sessionID, k2.sessionID, c.chunks, (k: Chunk) => [k.sessionID]);
    ExactUnique(k1.missionID, k2.missionID, c.chunks, (k: Chunk) => [k.missionID]);
    ExactUnique(k1.kind, k2.kind, c.chunks, (k: Chunk) => [k.kind]);
    ExactUnique(s1.namespace, s2.namespace, c.sourceSpans, (s: SourceSpan) => [s.namespace]);
    ExactUnique(s1.projectID, s2.projectID, c.sourceSpans, (s: SourceSpan) => [s.projectID]);
    ExactUnique(s1.sessionID, s2.sessionID, c.sourceSpans, (s: SourceSpan) => [s.sessionID]);
    ExactUnique(s1.missionID, s2.missionID, c.sourceSpans, (s: SourceSpan) => [s.missionID]);
    ExactUnique(s1.recordID, s2.recordID, c.sourceSpans, (s: SourceSpan) => [s.recordID]);
    ExactUnique(g1.outgoing, g2.outgoing, c.edges, (e: Edge) => [e.fromNodeID]);
    ExactUnique(g1.incoming, g2.incoming, c.edges, (e: Edge) => [e.toNodeID]);
  }
}
