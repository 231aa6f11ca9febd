/** References never dangle: in every state a history can reach, a span's record and chunks
    exist and its offsets lie inside them, and an edge's endpoints are nodes. */
module Integrity {
  import opened Text
  import opened Sorting
  import opened Types
  import opened Normalize
  import opened Catalogs
  import opened Laws

  ghost predicate RefSound(chunks: map<string, Chunk>, r: ChunkRef) {
    && r.chunkID in chunks
    && 0 <= r.startOffset <= chunks[r.chunkID].contentLength
    && 0 <= r.endOffset <= chunks[r.chunkID].contentLength
    && (r.endOffset > 0 ==> r.startOffset <= r.endOffset)
  }

  /** The span cites an existing record and, in chunk order, existing parts of chunks. */
  ghost predicate SpanSound(c: Catalog, s: SourceSpan) {
    && s.recordID in c.records
    && s.chunkRefs != []
    && (forall r :: r in s.chunkRefs ==> RefSound(c.chunks, r))
    && Ordered(RefLess(c.chunks), s.chunkRefs)
  }

  ghost predicate EdgeSound(c: Catalog, e: Edge) {
    e.fromNodeID in c.nodes && e.toNodeID in c.nodes && e.fromNodeID != "" && e.toNodeID != ""
  }

  /** Every entity is stored under its own non-empty id. */
  ghost predicate Filed(c: Catalog) {
    && (forall id :: id in c.records ==> c.records[id].id == id && id != "")
    && (forall id :: id in c.chunks ==> c.chunks[id].id == id && id != "" && c.chunks[id].contentLength > 0)
    && (forall id :: id in c.sourceSpans ==> c.sourceSpans[id].id == id && id != "")
    && (forall id :: id in c.nodes ==> c.nodes[id].id == id && id != "")
    && (forall id :: id in c.edges ==> c.edges[id].id == id && id != "")
    && (forall id :: id in c.purgeRequests ==> c.purgeRequests[id].id == id && id != "")
  }

  ghost predicate Sound(c: Catalog) {
    && Filed(c)
    && (forall id :: id in c.sourceSpans ==> SpanSound(c, c.sourceSpans[id]))
    && (forall id :: id in c.edges ==> EdgeSound(c, c.edges[id]))
  }

  // ---------------------------------------------------------------- the order of chunk refs

  /** Chunks by sequence, then by id. */
  function IDLess(chunks: map<string, Chunk>): (string, string) -> bool {
    (a: string, b: string) =>
      if SequenceOf(chunks, a) == SequenceOf(chunks, b) then Less(a, b)
      else SequenceOf(chunks, a) < SequenceOf(chunks, b)
  }

  lemma LessWeak(a: string, b: string, c: string)
    ensures Less(a, b) ==> !Less(b, a)
    ensures !Less(a, b) && !Less(b, c) ==> !Less(a, c)
    ensures !Less(a, b) && !Less(b, a) ==> a == b
  {
    hide Less;
    LessTotal(a, b);
    LessTotal(b, c);
    LessIrreflexive(a);
    if Less(a, b) && Less(b, a) { LessTransitive(a, b, a); }
    if Less(b, a) && Less(c, b) { LessTransitive(c, b, a); }
    if Less(a, c) && Less(c, a) { LessTransitive(a, c, a); }
  }

  lemma RefLessWeak(chunks: map<string, Chunk>)
    ensures Weak(RefLess(chunks)) && Weak(IDLess(chunks))
    ensures forall x, y :: !IDLess(chunks)(x, y) && !IDLess(chunks)(y, x) ==> x == y
  {
    hide Less;
    forall a: string, b: string, c: string
      ensures Less(a, b) ==> !Less(b, a)
      ensures !Less(a, b) && !Less(b, c) ==> !Less(a, c)
      ensures !Less(a, b) && !Less(b, a) ==> a == b
    {
      LessWeak(a, b, c);
    }
  }

  function RefIDs(refs: seq<ChunkRef>): (ids: seq<string>)
    ensures |ids| == |refs| && forall i :: 0 <= i < |refs| ==> ids[i] == refs[i].chunkID
  {
    seq(|refs|, i requires 0 <= i < |refs| => refs[i].chunkID)
  }

  lemma Without<T>(s: seq<T>, i: nat)
    requires i < |s|
    ensures multiset(s) == multiset(s[..i] + s[i + 1..]) + multiset{s[i]}
  {
    assert s == s[..i] + [s[i]] + s[i + 1..];
  }

  lemma RefIDsWithout(s: seq<ChunkRef>, i: nat)
    requires i < |s|
    ensures multiset(RefIDs(s)) == multiset(RefIDs(s[..i] + s[i + 1..])) + multiset{s[i].chunkID}
  {
    Without(RefIDs(s), i);
    assert RefIDs(s[..i] + s[i + 1..]) == RefIDs(s)[..i] + RefIDs(s)[i + 1..];
  }

  /** Equal lists stay equal when each loses one occurrence of the same element. */
  lemma WithoutBoth<T>(a: seq<T>, i: nat, b: seq<T>, j: nat)
    requires i < |a| && j < |b| && a[i] == b[j] && multiset(a) == multiset(b)
    ensures multiset(a[..i] + a[i + 1..]) == multiset(b[..j] + b[j + 1..])
  {
    Without(a, i);
    Without(b, j);
    assert multiset(a[..i] + a[i + 1..]) == multiset(a) - multiset{a[i]};
    assert multiset(b[..j] + b[j + 1..]) == multiset(b) - multiset{b[j]};
  }

  lemma Occurs<T>(a: seq<T>, b: seq<T>) returns (i: nat)
    requires multiset(a) == multiset(b) && a != []
    ensures i < |b| && b[i] == a[0]
  {
    assert a[0] in multiset(b);
    i :| 0 <= i < |b| && b[i] == a[0];
  }

  lemma {:induction false} RefIDsPermute(a: seq<ChunkRef>, b: seq<ChunkRef>)
    requires multiset(a) == multiset(b)
    ensures multiset(RefIDs(a)) == multiset(RefIDs(b))
    decreases |a|
  {
    hide RefIDs;
    if a == [] {
      assert |multiset(b)| == 0;
      assert b == [];
    } else {
      var i := Occurs(a, b);
      WithoutBoth(a, 0, b, i);
      RefIDsPermute(a[..0] + a[1..], b[..i] + b[i + 1..]);
      RefIDsWithout(a, 0);
      RefIDsWithout(b, i);
    }
  }

  /** Whatever algorithm sorts the refs of a span, on write or again on read, the sequence of
      cited chunks is the same: only refs to one and the same chunk can change places. */
  lemma SortedRefsAgree(chunks: map<string, Chunk>, a: seq<ChunkRef>, b: seq<ChunkRef>)
    requires multiset(a) == multiset(b)
    requires Ordered(RefLess(chunks), a) && Ordered(RefLess(chunks), b)
    ensures RefIDs(a) == RefIDs(b)
  {
    RefLessWeak(chunks);
    RefIDsPermute(a, b);
    var x, y := RefIDs(a), RefIDs(b);
    var less := IDLess(chunks);
    forall i, j | 0 <= i < j < |x| ensures !less(x[j], x[i]) {
      assert !RefLess(chunks)(a[j], a[i]);
    }
    forall i, j | 0 <= i < j < |y| ensures !less(y[j], y[i]) {
      assert !RefLess(chunks)(b[j], b[i]);
    }
    OrderedUnique(less, x, y);
  }

  lemma SortRefsSorts(chunks: map<string, Chunk>, refs: seq<ChunkRef>)
    ensures multiset(SortRefs(chunks, refs)) == multiset(refs)
    ensures Ordered(RefLess(chunks), SortRefs(chunks, refs))
    ensures forall r :: r in SortRefs(chunks, refs) <==> r in refs
    ensures |SortRefs(chunks, refs)| == |refs|
  {
    RefLessWeak(chunks);
    SortOrders(RefLess(chunks), refs);
    var s := SortRefs(chunks, refs);
    assert forall r :: r in s <==> r in multiset(s);
    assert forall r :: r in refs <==> r in multiset(refs);
    assert |s| == |multiset(s)| && |refs| == |multiset(refs)|;
  }

  // ---------------------------------------------------------------- one step

  lemma {:induction false} CheckedRefsSound(chunks: map<string, Chunk>, refs: seq<ChunkRef>)
    requires CheckRefs(chunks, refs).None?
    requires forall r :: r in refs ==> RefShaped(r)
    requires forall id :: id in chunks ==> chunks[id].contentLength > 0
    ensures forall r :: r in refs ==> RefSound(chunks, r)
  {
    if refs != [] {
      CheckedRefsSound(chunks, refs[1..]);
      assert refs == [refs[0]] + refs[1..];
      assert RefShaped(refs[0]);
    }
  }

  /** `d` has every record, chunk and node of `c`, its chunks unchanged. */
  ghost predicate Extends(c: Catalog, d: Catalog) {
    && (forall id :: id in c.records ==> id in d.records)
    && (forall id :: id in c.nodes ==> id in d.nodes)
    && (forall id :: id in c.chunks ==> id in d.chunks && d.chunks[id] == c.chunks[id])
  }

  lemma SpanStaysSound(c: Catalog, d: Catalog, s: SourceSpan)
    requires SpanSound(c, s) && Extends(c, d)
    ensures SpanSound(d, s)
  {
    hide Less;
    forall r | r in s.chunkRefs ensures RefSound(d.chunks, r) {
      assert RefSound(c.chunks, r);
    }
    forall i, j | 0 <= i < j < |s.chunkRefs| ensures !RefLess(d.chunks)(s.chunkRefs[j], s.chunkRefs[i]) {
      assert RefSound(c.chunks, s.chunkRefs[i]) && RefSound(c.chunks, s.chunkRefs[j]);
      assert !RefLess(c.chunks)(s.chunkRefs[j], s.chunkRefs[i]);
    }
  }

  lemma PutExtends(c: Catalog, e: Entity)
    requires NewOrLive(c, e)
    ensures Extends(c, Put(c, e))
  {
  }

  /** The entity has an id of its own, and cites only what `c` holds. */
  ghost predicate EntitySound(c: Catalog, e: Entity) {
    match e
    case RecordEntity(r) => r.id != ""
    case ChunkEntity(k) => k.id != "" && k.contentLength > 0
    case SpanEntity(s) => s.id != "" && SpanSound(c, s)
    case NodeEntity(v) => v.id != ""
    case EdgeEntity(g) => g.id != "" && EdgeSound(c, g)
    case PurgeEntity(p) => p.id != ""
  }

  lemma NewSpanSound(c: Catalog, n: nat, m: Mutation, clock: Time)
    requires Filed(c) && Normalized(m) && m.kind == CreateSourceSpan && Materialize(c, n, m, clock).Ok?
    ensures EntitySound(c, Materialize(c, n, m, clock).value)
  {
    hide Less, SortRefs, CheckRefs;
    CheckedRefsSound(c.chunks, m.sourceSpan.chunkRefs);
    SortRefsSorts(c.chunks, m.sourceSpan.chunkRefs);
  }

  lemma MaterializeSound(c: Catalog, n: nat, m: Mutation, clock: Time)
    requires Sound(c) && Normalized(m) && Materialize(c, n, m, clock).Ok?
    ensures EntitySound(c, Materialize(c, n, m, clock).value)
  {
    if m.kind == CreateSourceSpan {
      hide Materialize, EntitySound, SpanSound;
      NewSpanSound(c, n, m, clock);
    } else {
      hide Trim, Trimmed, ApplyCreateSourceSpan, SpanSound, Born, Bumped, AtOr;
      TrimFixes(m.record.id);
      TrimFixes(m.node.id);
      TrimFixes(m.edge.id);
      match m.kind {
        case CreateRecord => case UpdateRecord => case DeleteRecord =>
        case CreateChunk => case CreatePurgeRequest =>
        case CreateNode => case UpdateNode => case DeleteNode =>
        case CreateEdge => case DeleteEdge =>
      }
    }
  }

  lemma PutFiled(c: Catalog, e: Entity)
    requires Filed(c) && EntitySound(c, e)
    ensures Filed(Put(c, e))
  {
    hide SpanSound, EdgeSound;
  }

  lemma PutSound(c: Catalog, e: Entity)
    requires Sound(c) && EntitySound(c, e) && NewOrLive(c, e)
    ensures Sound(Put(c, e))
  {
    hide SpanSound, EdgeSound, Filed, Extends;
    var d := Put(c, e);
    PutFiled(c, e);
    PutExtends(c, e);
    forall id | id in d.sourceSpans ensures SpanSound(d, d.sourceSpans[id]) {
      SpanStaysSound(c, d, d.sourceSpans[id]);
    }
    forall id | id in d.edges ensures EdgeSound(d, d.edges[id]) {
      EdgeStaysSound(c, d, d.edges[id]);
    }
  }

  lemma EdgeStaysSound(c: Catalog, d: Catalog, e: Edge)
    requires EdgeSound(c, e) && Extends(c, d)
    ensures EdgeSound(d, e)
  {
  }

  lemma StepSound(c: Catalog, n: nat, m: Mutation, clock: Time)
    requires Sound(c) && Normalized(m) && Step(c, n, m, clock).Ok?
    ensures Sound(Step(c, n, m, clock).value.catalog)
  {
    hide Materialize, Normalized, Less, SpanSound, EdgeSound, EntitySound, NewOrLive, Put;
    if !KnownKey(c, m) {
      MaterializeSound(c, n, m, clock);
      MaterializeNewOrLive(c, n, m, clock);
      var d := Put(c, Materialize(c, n, m, clock).value);
      PutSound(c, Materialize(c, n, m, clock).value);
      var e := Step(c, n, m, clock).value.catalog;
      forall id | id in e.sourceSpans ensures SpanSound(e, e.sourceSpans[id]) {
        SpanStaysSound(d, e, d.sourceSpans[id]);
      }
      forall id | id in e.edges ensures EdgeSound(e, e.edges[id]) {
        EdgeStaysSound(d, e, d.edges[id]);
      }
    }
  }

  /** Integrity of every catalog a history can reach. */
  lemma {:induction false} HistorySound(h: History)
    requires Legal(h)
    ensures Sound(Fold(h))
  {
    if h == [] {
    } else {
      hide Accepts, Step, Fold, Sound;
      var n := |h| - 1;
      LegalPrefix(h, n);
      HistorySound(h[..n]);
      LegalStep(h, n);
      AcceptedFacts(Fold(h[..n]), h[n]);
      assert h[..n + 1] == h;
      StepSound(Fold(h[..n]), n + 1, h[n], 0);
    }
  }
}
