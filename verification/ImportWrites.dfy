/** The writes of the pilot importer: every entity is looked up first and written only when it is
    missing, under a key of its own, so what was counted is what was appended, what is there
    afterwards is what was asked for, and nothing that was there changes. */
module ImportWrites {
  import opened Text
  import opened Types
  import opened Normalize
  import opened Catalogs
  import opened Laws
  import opened Contents
  import opened Disks
  import opened System
  import opened Operations
  import opened Stores
  import Indexes
  import Integrity

  // ---------------------------------------------------------------- reserved keys

  function SortName(s: Sort): string {
    match s
    case RecordSort => "record"
    case NodeSort => "node"
    case ChunkSort => "chunk"
    case SpanSort => "source-span"
    case EdgeSort => "edge"
    case PurgeSort => "purge"
  }

  const PREFIX := "pilot-import:"

  /** The idempotency key under which the importer creates an entity. */
  function ImportKey(k: Key): string {
    PREFIX + SortName(k.sort) + ":" + k.id
  }

  lemma ImportKeyIs(id: string)
    ensures ImportKey(Key(RecordSort, id)) == "pilot-import:record:" + id
    ensures ImportKey(Key(NodeSort, id)) == "pilot-import:node:" + id
    ensures ImportKey(Key(EdgeSort, id)) == "pilot-import:edge:" + id
    ensures ImportKey(Key(ChunkSort, id)) == "pilot-import:chunk:" + id
    ensures ImportKey(Key(SpanSort, id)) == "pilot-import:source-span:" + id
  {
    assert PREFIX + "record" + ":" == "pilot-import:record:" && PREFIX + "node" + ":" == "pilot-import:node:";
    assert PREFIX + "edge" + ":" == "pilot-import:edge:" && PREFIX + "chunk" + ":" == "pilot-import:chunk:";
    assert PREFIX + "source-span" + ":" == "pilot-import:source-span:";
  }

  lemma ImportKeyInjective(a: Key, b: Key)
    requires ImportKey(a) == ImportKey(b)
    ensures a == b
  {
    var x, y := ImportKey(a), ImportKey(b);
    assert x[13] == SortName(a.sort)[0] && y[13] == SortName(b.sort)[0];
    var n := 13 + |SortName(a.sort)| + 1;
    assert x[n..] == a.id && y[n..] == b.id;
  }

  /** Nobody else uses the importer's keys: one is known only if its entity exists. */
  ghost predicate Reserved(c: Catalog) {
    forall k: Key :: ImportKey(k) in c.idempotency ==> Holds(c, k)
  }

  /** Nothing that was there is missing. */
  ghost predicate Keeps(c: Catalog, d: Catalog) {
    forall k: Key :: Holds(c, k) ==> Holds(d, k)
  }

  predicate Creates(k: MutationType) {
    k == CreateRecord || k == CreateNode || k == CreateChunk || k == CreateSourceSpan || k == CreateEdge
  }

  /** A write of the importer: it creates one entity, under that entity's key. */
  predicate ImportItem(m: Mutation) {
    && Creates(m.kind)
    && Target(m).id != "" && Trimmed(Target(m).id)
    && m.idempotencyKey == ImportKey(Target(m))
  }

  lemma ImportKeyTrimmed(k: Key)
    requires k.id != "" && Trimmed(k.id)
    ensures Trimmed(ImportKey(k)) && ImportKey(k) != ""
  {
    var x := ImportKey(k);
    assert x[0] == 'p' && x[|x| - 1] == k.id[|k.id| - 1];
  }

  lemma ItemNormalizes(m: Mutation, hash: Hash)
    requires ImportItem(m) && NormalizeMutation(m, hash).Ok?
    ensures var n := NormalizeMutation(m, hash).value;
      Target(n) == Target(m) && n.idempotencyKey == m.idempotencyKey && n.kind == m.kind
  {
    hide Trim, Trimmed, NormalizeMap, TagsOf, NormalizeRefs, ImportKey;
    hide ValidateRecord, ValidateChunk, ValidateSpan, ValidateNode, ValidateEdge, ValidatePurge;
    ImportKeyTrimmed(Target(m));
    TrimFixes(Target(m).id);
    TrimFixes(m.idempotencyKey);
  }

  // ---------------------------------------------------------------- what a write leaves

  /** The entity under the key is the same in both catalogs. */
  ghost predicate SameAt(c: Catalog, d: Catalog, k: Key) {
    && Holds(c, k) && Holds(d, k)
    && match k.sort
       case RecordSort => c.records[k.id] == d.records[k.id]
       case ChunkSort => c.chunks[k.id] == d.chunks[k.id]
       case SpanSort => c.sourceSpans[k.id] == d.sourceSpans[k.id]
       case NodeSort => c.nodes[k.id] == d.nodes[k.id]
       case EdgeSort => c.edges[k.id] == d.edges[k.id]
       case PurgeSort => c.purgeRequests[k.id] == d.purgeRequests[k.id]
  }

  function BornAt(m: Mutation, now: Time): Time {
    if m.at == 0 then now else m.at
  }

  /** The catalog holds what the item says, cleaned as every mutation is, live, and created at the
      time the item names, or now. */
  ghost predicate Made(c: Catalog, m: Mutation, hash: Hash, now: Time) {
    && ImportItem(m) && Holds(c, Target(m)) && StampOf(c, Target(m)).createdAt == BornAt(m, now)
    && var id := Target(m).id;
       match m.kind
       case CreateRecord => c.records[id] == NormalizeRecord(m.record).(deleted := false, stamp := c.records[id].stamp)
       case CreateNode => c.nodes[id] == NormalizeNode(m.node).(deleted := false, stamp := c.nodes[id].stamp)
       case CreateEdge => c.edges[id] == NormalizeEdge(m.edge).(deleted := false, stamp := c.edges[id].stamp)
       case CreateChunk =>
         c.chunks[id] == NormalizeChunk(m.chunk).(
           contentHash := hash(m.chunkContent), contentLength := |m.chunkContent|, stamp := c.chunks[id].stamp)
       case CreateSourceSpan =>
         && c.sourceSpans[id] == NormalizeSpan(m.sourceSpan).(chunkRefs := c.sourceSpans[id].chunkRefs,
                                                              stamp := c.sourceSpans[id].stamp)
         && multiset(c.sourceSpans[id].chunkRefs) == multiset(NormalizeRefs(m.sourceSpan.chunkRefs))
       case _ => false
  }

  /** From one catalog to the next: nothing that was there changed, and everything new was made
      from one of the items. */
  ghost predicate Grown(c: Catalog, d: Catalog, items: iset<Mutation>, hash: Hash, now: Time) {
    && (forall k :: Holds(c, k) ==> SameAt(c, d, k))
    && (forall k :: Holds(d, k) && !Holds(c, k) ==> MadeFrom(d, k, items, hash, now))
  }

  ghost predicate MadeFrom(d: Catalog, k: Key, items: iset<Mutation>, hash: Hash, now: Time) {
    exists m :: m in items && Target(m) == k && Made(d, m, hash, now)
  }

  ghost function Those(plan: seq<Mutation>): iset<Mutation> {
    iset m | m in plan
  }

  lemma NothingGrown(c: Catalog, items: iset<Mutation>, hash: Hash, now: Time)
    ensures Grown(c, c, items, hash, now)
  {
    hide Made;
  }

  lemma MadeStays(c: Catalog, d: Catalog, m: Mutation, hash: Hash, now: Time)
    requires Made(c, m, hash, now) && SameAt(c, d, Target(m))
    ensures Made(d, m, hash, now)
  {
    hide NormalizeRecord, NormalizeNode, NormalizeEdge, NormalizeChunk, NormalizeSpan, NormalizeRefs, ImportItem;
  }

  /** One growth after the other. */
  lemma GrownTwice(c: Catalog, d: Catalog, e: Catalog, a: iset<Mutation>, b: iset<Mutation>, all: iset<Mutation>,
                   hash: Hash, now: Time)
    requires Grown(c, d, a, hash, now) && Grown(d, e, b, hash, now) && a <= all && b <= all
    ensures Grown(c, e, all, hash, now)
  {
    hide Made, Target;
    forall k | Holds(c, k) ensures SameAt(c, e, k) {
      assert SameAt(c, d, k) && SameAt(d, e, k);
    }
    forall k | Holds(e, k) && !Holds(c, k) ensures MadeFrom(e, k, all, hash, now) {
      if Holds(d, k) {
        assert MadeFrom(d, k, a, hash, now);
        var m :| m in a && Target(m) == k && Made(d, m, hash, now);
        assert SameAt(d, e, k);
        MadeStays(d, e, m, hash, now);
      } else {
        assert MadeFrom(e, k, b, hash, now);
      }
    }
  }

  /** What normalizing makes of the entity of a creation. */
  lemma ItemParts(m: Mutation, hash: Hash)
    requires Creates(m.kind) && NormalizeMutation(m, hash).Ok?
    ensures var n := NormalizeMutation(m, hash).value;
      && n.kind == m.kind && n.at == m.at && n.record == NormalizeRecord(m.record) && n.node == NormalizeNode(m.node)
      && n.edge == NormalizeEdge(m.edge) && n.sourceSpan == NormalizeSpan(m.sourceSpan)
      && (m.kind == CreateChunk ==>
            n.chunk == NormalizeChunk(NormalizeChunk(m.chunk)).(contentHash := hash(m.chunkContent),
                                                                contentLength := |m.chunkContent|))
  {
    hide NormalizeRecord, NormalizeNode, NormalizeEdge, NormalizeSpan, NormalizePurge, NormalizeChunk, Trim;
    hide ValidateRecord, ValidateChunk, ValidateSpan, ValidateNode, ValidateEdge, ValidatePurge;
  }

  /** Only the entity under the key is new, and it is. */
  ghost predicate Alone(c: Catalog, d: Catalog, k: Key) {
    && !Holds(c, k) && Holds(d, k)
    && forall j :: j != k ==> (Holds(d, j) <==> Holds(c, j)) && (Holds(c, j) ==> SameAt(c, d, j))
  }

  lemma RecordCreated(c: Catalog, n: nat, m: Mutation, p: Mutation, hash: Hash, now: Time)
    requires m.kind == CreateRecord
    requires Keyed(c) && ImportItem(m) && NormalizeMutation(m, hash).Ok?
    requires p == Prepared(NormalizeMutation(m, hash).value, now)
    requires Normalized(p) && Target(p) == Target(m) && !KnownKey(c, p) && Step(c, n, p, now).Ok?
    ensures Made(Step(c, n, p, now).value.catalog, m, hash, now)
    ensures Alone(c, Step(c, n, p, now).value.catalog, Target(m))
  {
    hide NormalizeMutation, NormalizeRecord, NormalizeNode, NormalizeEdge, NormalizeSpan, NormalizeChunk, NormalizeRefs;
    hide Normalized, Step, Keyed, ImportItem, InChunkOrder, RefFits;
    ItemParts(m, hash);
    RecordStep(c, n, p, now);
  }

  lemma ChunkCreated(c: Catalog, n: nat, m: Mutation, p: Mutation, hash: Hash, now: Time)
    requires m.kind == CreateChunk
    requires Keyed(c) && ImportItem(m) && NormalizeMutation(m, hash).Ok?
    requires p == Prepared(NormalizeMutation(m, hash).value, now)
    requires Normalized(p) && Target(p) == Target(m) && !KnownKey(c, p) && Step(c, n, p, now).Ok?
    ensures Made(Step(c, n, p, now).value.catalog, m, hash, now)
    ensures Alone(c, Step(c, n, p, now).value.catalog, Target(m))
  {
    hide NormalizeMutation, NormalizeRecord, NormalizeNode, NormalizeEdge, NormalizeSpan, NormalizeChunk, NormalizeRefs;
    hide Normalized, Step, Keyed, ImportItem, InChunkOrder, RefFits;
    ItemParts(m, hash);
    ChunkCleaned(m.chunk);
    ChunkStep(c, n, p, now);
  }

  lemma SpanCreated(c: Catalog, n: nat, m: Mutation, p: Mutation, hash: Hash, now: Time)
    requires m.kind == CreateSourceSpan
    requires Keyed(c) && ImportItem(m) && NormalizeMutation(m, hash).Ok?
    requires p == Prepared(NormalizeMutation(m, hash).value, now)
    requires Normalized(p) && Target(p) == Target(m) && !KnownKey(c, p) && Step(c, n, p, now).Ok?
    ensures Made(Step(c, n, p, now).value.catalog, m, hash, now)
    ensures Alone(c, Step(c, n, p, now).value.catalog, Target(m))
  {
    hide NormalizeMutation, NormalizeRecord, NormalizeNode, NormalizeEdge, NormalizeSpan, NormalizeChunk, NormalizeRefs;
    hide Normalized, Step, Keyed, ImportItem, InChunkOrder, RefFits;
    ItemParts(m, hash);
    SpanRefs(m.sourceSpan);
    SpanStep(c, n, p, now);
  }

  lemma NodeCreated(c: Catalog, n: nat, m: Mutation, p: Mutation, hash: Hash, now: Time)
    requires m.kind == CreateNode
    requires Keyed(c) && ImportItem(m) && NormalizeMutation(m, hash).Ok?
    requires p == Prepared(NormalizeMutation(m, hash).value, now)
    requires Normalized(p) && Target(p) == Target(m) && !KnownKey(c, p) && Step(c, n, p, now).Ok?
    ensures Made(Step(c, n, p, now).value.catalog, m, hash, now)
    ensures Alone(c, Step(c, n, p, now).value.catalog, Target(m))
  {
    hide NormalizeMutation, NormalizeRecord, NormalizeNode, NormalizeEdge, NormalizeSpan, NormalizeChunk, NormalizeRefs;
    hide Normalized, Step, Keyed, ImportItem, InChunkOrder, RefFits;
    ItemParts(m, hash);
    NodeStep(c, n, p, now);
  }

  lemma EdgeCreated(c: Catalog, n: nat, m: Mutation, p: Mutation, hash: Hash, now: Time)
    requires m.kind == CreateEdge
    requires Keyed(c) && ImportItem(m) && NormalizeMutation(m, hash).Ok?
    requires p == Prepared(NormalizeMutation(m, hash).value, now)
    requires Normalized(p) && Target(p) == Target(m) && !KnownKey(c, p) && Step(c, n, p, now).Ok?
    ensures Made(Step(c, n, p, now).value.catalog, m, hash, now)
    ensures Alone(c, Step(c, n, p, now).value.catalog, Target(m))
  {
    hide NormalizeMutation, NormalizeRecord, NormalizeNode, NormalizeEdge, NormalizeSpan, NormalizeChunk, NormalizeRefs;
    hide Normalized, Step, Keyed, ImportItem, InChunkOrder, RefFits;
    ItemParts(m, hash);
    EdgeStep(c, n, p, now);
  }

  /** An accepted creation leaves what the item says, and everything else as it was. */
  lemma CreatedSays(c: Catalog, n: nat, m: Mutation, p: Mutation, hash: Hash, now: Time)
    requires Keyed(c) && ImportItem(m) && NormalizeMutation(m, hash).Ok?
    requires p == Prepared(NormalizeMutation(m, hash).value, now)
    requires Normalized(p) && Target(p) == Target(m) && !KnownKey(c, p) && Step(c, n, p, now).Ok?
    ensures Grown(c, Step(c, n, p, now).value.catalog, iset{m}, hash, now)
    ensures Alone(c, Step(c, n, p, now).value.catalog, Target(m))
  {
    hide NormalizeMutation, Prepared, Normalized, Step, Keyed, Made, SameAt, Holds, KnownKey;
    var d := Step(c, n, p, now).value.catalog;
    match m.kind {
      case CreateRecord => RecordCreated(c, n, m, p, hash, now);
      case CreateChunk => ChunkCreated(c, n, m, p, hash, now);
      case CreateSourceSpan => SpanCreated(c, n, m, p, hash, now);
      case CreateNode => NodeCreated(c, n, m, p, hash, now);
      case CreateEdge => EdgeCreated(c, n, m, p, hash, now);
      case _ =>
    }
    forall k | Holds(d, k) && !Holds(c, k) ensures MadeFrom(d, k, iset{m}, hash, now) {
      assert k == Target(m) && m in iset{m};
    }
  }

  lemma SpanRefs(s: SourceSpan)
    ensures NormalizeSpan(s).chunkRefs == NormalizeRefs(s.chunkRefs)
  {
    hide Trim, NormalizeMap, NormalizeRefs;
  }

  // ---------------------------------------------------------------- one write

  /** An accepted creation: one more sequence number, the new entity, and its key. */
  lemma CreatedFacts(c: Catalog, n: nat, m: Mutation, clock: Time)
    requires Keyed(c) && Normalized(m) && ImportItem(m) && Reserved(c) && !KnownKey(c, m) && Step(c, n, m, clock).Ok?
    ensures var d := Step(c, n, m, clock).value.catalog;
      && Reserved(d) && Keeps(c, d) && Holds(d, Target(m)) && d.durableSeq == n
      && (!Target(m).sort.NodeSort? ==> d.nodes.Keys == c.nodes.Keys)
  {
    hide Stamps, Normalized, Materialize, Holds, StampOf, Put, ImportKey, Target, NextStamp, Trimmed;
    StepTouchesOne(c, n, m, clock);
    StepRecordsKey(c, n, m, clock);
    var d := Step(c, n, m, clock).value.catalog;
    StampsGrow(c, d, Target(m), NextStamp(Stamps(c), n, m, clock));
    PutFields(c, Materialize(c, n, m, clock).value);
    forall k: Key | ImportKey(k) in d.idempotency ensures Holds(d, k) {
      if ImportKey(k) == m.idempotencyKey { ImportKeyInjective(k, Target(m)); }
    }
  }

  lemma StampsGrow(c: Catalog, d: Catalog, k: Key, v: Stamp)
    requires Stamps(d) == Stamps(c)[k := v]
    ensures Holds(d, k) && Keeps(c, d)
    ensures !k.sort.NodeSort? ==> d.nodes.Keys == c.nodes.Keys
  {
    if !k.sort.NodeSort? { SameNodes(c, d, k, v); }
    hide Holds, StampOf, Stamps;
    assert k in Stamps(d);
    forall j: Key | Holds(c, j) ensures Holds(d, j) {
      assert j in Stamps(c);
      assert j in Stamps(d);
    }
  }

  lemma SameNodes(c: Catalog, d: Catalog, k: Key, v: Stamp)
    requires Stamps(d) == Stamps(c)[k := v] && !k.sort.NodeSort?
    ensures d.nodes.Keys == c.nodes.Keys
  {
    hide StampOf, Stamps;
    forall id ensures id in d.nodes <==> id in c.nodes {
      assert Key(NodeSort, id) in Stamps(d) <==> Key(NodeSort, id) in Stamps(c);
    }
  }

  /** What a successful `Apply` of an item does. */
  lemma AppliedItem(hash: Hash, d: Disk, v: View, m: Mutation, now: Time)
    requires Keyed(v.catalog) && Reserved(v.catalog) && ImportItem(m) && !Holds(v.catalog, Target(m)) && now > 0
    requires ApplyOn(hash, d, v, m, now).result.Ok?
    ensures var e := ApplyOn(hash, d, v, m, now).view.catalog;
      && Reserved(e) && Keeps(v.catalog, e) && Holds(e, Target(m))
      && e.durableSeq == v.catalog.durableSeq + 1
      && (!Target(m).sort.NodeSort? ==> e.nodes.Keys == v.catalog.nodes.Keys)
      && Grown(v.catalog, e, iset{m}, hash, now) && Alone(v.catalog, e, Target(m))
  {
    hide Grown, Alone, NormalizeMutation, Preflight, Step, Reserved, Keeps, Holds, Keyed, ImportItem, Target,
      Normalized;
    NormalizeEstablishes(m, hash);
    var n := NormalizeMutation(m, hash).value;
    ItemNormalizes(m, hash);
    ItemIsNew(v.catalog, m, n);
    StampedStaysNormalized(n, now);
    PreparedItem(m, n, now);
    CreatedFacts(v.catalog, v.catalog.durableSeq + 1, Prepared(n, now), now);
    CreatedSays(v.catalog, v.catalog.durableSeq + 1, m, Prepared(n, now), hash, now);
  }

  lemma ItemIsNew(c: Catalog, m: Mutation, n: Mutation)
    requires Reserved(c) && ImportItem(m) && !Holds(c, Target(m)) && n.idempotencyKey == m.idempotencyKey
    ensures !KnownKey(c, n)
  {
    hide Holds, ImportKey, Target, Trimmed;
  }

  lemma PreparedItem(m: Mutation, n: Mutation, now: Time)
    requires ImportItem(m) && Target(n) == Target(m) && n.idempotencyKey == m.idempotencyKey && n.kind == m.kind
    ensures ImportItem(Prepared(n, now)) && Target(Prepared(n, now)) == Target(m)
    ensures Prepared(n, now).idempotencyKey == n.idempotencyKey
  {
    hide Trimmed, ImportKey;
  }

  method Exists(s: Store, m: Mutation) returns (found: bool)
    ensures found <==> Holds(s.Data(), Target(m))
  {
    var k := Target(m);
    match k.sort {
      case RecordSort => found := k.id in s.records;
      case NodeSort => found := k.id in s.nodes;
      case ChunkSort => found := k.id in s.chunks;
      case SpanSort => found := k.id in s.sourceSpans;
      case EdgeSort => found := k.id in s.edges;
      case PurgeSort => found := k.id in s.purgeRequests;
    }
  }

  /** Look the entity up, tombstones included, and create it only when it is missing. */
  method Ensure(s: Store, m: Mutation, now: Time) returns (created: Result<bool>)
    requires s.Valid() && now > 0 && ImportItem(m) && Reserved(s.Data())
    modifies s, s.log, s.log.device
    ensures s.Valid()
    ensures created.Ok? ==> Reserved(s.Data()) && Keeps(old(s.Data()), s.Data()) && Holds(s.Data(), Target(m))
    ensures Holds(old(s.Data()), Target(m)) ==> created == Ok(false)
    ensures created.Ok? ==> (created.value <==> !Holds(old(s.Data()), Target(m)))
    ensures created.Ok? ==> s.durableSeq == old(s.durableSeq) + if created.value then 1 else 0
    ensures created.Ok? && !Target(m).sort.NodeSort? ==> s.Data().nodes.Keys == old(s.Data().nodes.Keys)
    ensures created == Ok(false) ==> s.Data() == old(s.Data()) && s.log.device.state == old(s.log.device.state)
    ensures created.Ok? ==> Grown(old(s.Data()), s.Data(), iset{m}, s.hash, now)
    ensures created == Ok(true) ==> Alone(old(s.Data()), s.Data(), Target(m))
  {
    hide Grown, Alone, Reserved, Holds, ImportItem, Target, Indexes.Indexed, Integrity.Sound, ApplyOn;
    var found := Exists(s, m);
    if found {
      NothingGrown(s.Data(), iset{m}, s.hash, now);
      return Ok(false);
    }
    StoreKeyed(s);
    var v, d := s.Viewed(), s.log.device.state;
    var applied := s.Apply(m, now);
    if applied.Err? { return Err(applied.error); }
    AppliedItem(s.hash, d, v, m, now);
    created := Ok(true);
  }

  lemma StoreKeyed(s: Store)
    requires s.Consistent()
    ensures Keyed(s.Data())
  {
    SoundKeys(s.Data());
  }

  // ---------------------------------------------------------------- a plan of writes

  datatype Counts = Counts(records: nat, nodes: nat, edges: nat, chunks: nat, spans: nat) {
    function Total(): nat {
      records + nodes + edges + chunks + spans
    }

    function Plus(c: Counts): Counts {
      Counts(records + c.records, nodes + c.nodes, edges + c.edges, chunks + c.chunks, spans + c.spans)
    }

    function One(s: Sort): Counts {
      match s
      case RecordSort => this.(records := records + 1)
      case NodeSort => this.(nodes := nodes + 1)
      case ChunkSort => this.(chunks := chunks + 1)
      case SpanSort => this.(spans := spans + 1)
      case _ => this.(edges := edges + 1)
    }
  }

  const NOTHING := Counts(0, 0, 0, 0, 0)

  /** The counters are the growth of the maps. */
  ghost predicate Counted(c: Catalog, d: Catalog, n: Counts) {
    && |d.records| == |c.records| + n.records && |d.nodes| == |c.nodes| + n.nodes && |d.edges| == |c.edges| + n.edges
    && |d.chunks| == |c.chunks| + n.chunks && |d.sourceSpans| == |c.sourceSpans| + n.spans
  }

  lemma CountedOne(c: Catalog, d: Catalog, k: Key)
    requires Alone(c, d, k) && !k.sort.PurgeSort?
    ensures Counted(c, d, NOTHING.One(k.sort))
  {
    hide Alone, Holds;
    KeysHeld(c);
    KeysHeld(d);
    KeysGrow(c, d, k, RecordSort, c.records.Keys, d.records.Keys);
    KeysGrow(c, d, k, NodeSort, c.nodes.Keys, d.nodes.Keys);
    KeysGrow(c, d, k, EdgeSort, c.edges.Keys, d.edges.Keys);
    KeysGrow(c, d, k, ChunkSort, c.chunks.Keys, d.chunks.Keys);
    KeysGrow(c, d, k, SpanSort, c.sourceSpans.Keys, d.sourceSpans.Keys);
  }

  lemma KeysHeld(c: Catalog)
    ensures forall id :: id in c.records.Keys <==> Holds(c, Key(RecordSort, id))
    ensures forall id :: id in c.nodes.Keys <==> Holds(c, Key(NodeSort, id))
    ensures forall id :: id in c.edges.Keys <==> Holds(c, Key(EdgeSort, id))
    ensures forall id :: id in c.chunks.Keys <==> Holds(c, Key(ChunkSort, id))
    ensures forall id :: id in c.sourceSpans.Keys <==> Holds(c, Key(SpanSort, id))
  {
  }

  lemma KeysGrow(c: Catalog, d: Catalog, k: Key, sort: Sort, before: set<string>, after: set<string>)
    requires Alone(c, d, k)
    requires forall id :: id in before <==> Holds(c, Key(sort, id))
    requires forall id :: id in after <==> Holds(d, Key(sort, id))
    ensures |after| == |before| + if k.sort == sort then 1 else 0
  {
    hide SameAt, Holds;
    if k.sort == sort {
      assert k == Key(sort, k.id);
      forall id | id != k.id ensures id in after <==> id in before { assert Key(sort, id) != k; }
      assert after == before + {k.id};
    } else {
      forall id ensures id in after <==> id in before { assert Key(sort, id) != k; }
      assert after == before;
    }
  }

  lemma CountedMore(c: Catalog, d: Catalog, e: Catalog, n: Counts, sort: Sort)
    requires Counted(c, d, n) && Counted(d, e, NOTHING.One(sort)) && !sort.PurgeSort?
    ensures Counted(c, e, n.One(sort))
  {
  }

  lemma CountedTwice(c: Catalog, d: Catalog, e: Catalog, m: Counts, n: Counts)
    requires Counted(c, d, m) && Counted(d, e, n)
    ensures Counted(c, e, m.Plus(n))
  {
  }

  lemma CountedNothing(c: Catalog)
    ensures Counted(c, c, NOTHING)
  {
  }

  lemma ItemSort(m: Mutation)
    requires ImportItem(m)
    ensures !Target(m).sort.PurgeSort?
  {
  }

  ghost predicate AllItems(plan: seq<Mutation>) {
    forall m :: m in plan ==> ImportItem(m)
  }

  ghost predicate AllHeld(c: Catalog, plan: seq<Mutation>) {
    forall m :: m in plan ==> Holds(c, Target(m))
  }

  ghost predicate NoNodes(plan: seq<Mutation>) {
    forall m :: m in plan ==> !Target(m).sort.NodeSort?
  }

  function RecordItems(plan: seq<Mutation>): nat {
    if plan == [] then 0
    else RecordItems(plan[..|plan| - 1]) + if Target(plan[|plan| - 1]).sort.RecordSort? then 1 else 0
  }

  /** Ensure every entity of a plan, counting what had to be created. */
  method EnsureAll(s: Store, plan: seq<Mutation>, now: Time) returns (r: Result<Counts>)
    requires s.Valid() && now > 0 && AllItems(plan) && Reserved(s.Data())
    modifies s, s.log, s.log.device
    ensures s.Valid()
    ensures r.Ok? ==> Reserved(s.Data()) && Keeps(old(s.Data()), s.Data()) && AllHeld(s.Data(), plan)
    ensures r.Ok? ==> s.durableSeq == old(s.durableSeq) + r.value.Total()
    ensures r.Ok? ==> r.value.records <= RecordItems(plan)
    ensures r.Ok? && NoNodes(plan) ==> s.Data().nodes.Keys == old(s.Data().nodes.Keys)
    ensures r.Ok? ==> Grown(old(s.Data()), s.Data(), Those(plan), s.hash, now)
    ensures r.Ok? ==> Counted(old(s.Data()), s.Data(), r.value)
    ensures AllHeld(old(s.Data()), plan) ==>
      r == Ok(NOTHING) && s.Data() == old(s.Data()) && s.log.device.state == old(s.log.device.state)
  {
    hide Reserved, Holds, ImportItem, Target, Keeps, AllHeld, AllItems, NoNodes, RecordItems, Store.Valid, Store.Data,
      Counts.Total, Grown, Alone, Counted;
    ghost var before := s.Data();
    var counts := NOTHING;
    NothingPlanned(before);
    NothingGrown(before, Those(plan), s.hash, now);
    CountedNothing(before);
    for i := 0 to |plan|
      invariant s.Valid() && Reserved(s.Data()) && Keeps(before, s.Data()) && AllHeld(s.Data(), plan[..i])
      invariant s.durableSeq == old(s.durableSeq) + counts.Total()
      invariant counts.records <= RecordItems(plan[..i])
      invariant Grown(before, s.Data(), Those(plan), s.hash, now)
      invariant Counted(before, s.Data(), counts)
      invariant NoNodes(plan) ==> s.Data().nodes.Keys == before.nodes.Keys
      invariant AllHeld(before, plan) ==>
        counts == NOTHING && s.Data() == before && s.log.device.state == old(s.log.device.state)
    {
      ghost var c, taken := s.Data(), counts;
      ItemOf(plan, i);
      HeldSoFar(before, c, plan, i);
      var created := Ensure(s, plan[i], now);
      if created.Err? { return Err(created.error); }
      if created.value {
        ItemSort(plan[i]);
        CountedOne(c, s.Data(), Target(plan[i]));
        CountedMore(before, c, s.Data(), counts, Target(plan[i]).sort);
        counts := counts.One(Target(plan[i]).sort);
      }
      Progress(before, c, s.Data(), plan, i, taken);
      GrownTwice(before, c, s.Data(), Those(plan), iset{plan[i]}, Those(plan), s.hash, now);
    }
    assert plan[..|plan|] == plan;
    r := Ok(counts);
  }

  lemma NothingPlanned(c: Catalog)
    ensures AllHeld(c, []) && Keeps(c, c) && RecordItems([]) == 0 && NOTHING.Total() == 0
  {
  }

  lemma ItemOf(plan: seq<Mutation>, i: nat)
    requires AllItems(plan) && i < |plan|
    ensures ImportItem(plan[i]) && (NoNodes(plan) ==> !Target(plan[i]).sort.NodeSort?)
  {
    hide ImportItem, Target;
  }

  lemma HeldSoFar(before: Catalog, c: Catalog, plan: seq<Mutation>, i: nat)
    requires i < |plan| && Keeps(before, c)
    ensures AllHeld(before, plan) ==> Holds(c, Target(plan[i]))
  {
    hide Holds, Target;
    assert plan[i] in plan;
  }

  lemma Progress(before: Catalog, c: Catalog, d: Catalog, plan: seq<Mutation>, i: nat, counts: Counts)
    requires i < |plan| && Keeps(before, c) && Keeps(c, d) && AllHeld(c, plan[..i]) && Holds(d, Target(plan[i]))
    ensures Keeps(before, d) && AllHeld(d, plan[..i + 1])
    ensures AllHeld(before, plan) ==> Holds(before, Target(plan[i])) && Holds(c, Target(plan[i]))
    ensures counts.One(Target(plan[i]).sort).Total() == counts.Total() + 1
    ensures counts.records <= RecordItems(plan[..i]) ==>
      counts.records <= counts.One(Target(plan[i]).sort).records <= RecordItems(plan[..i + 1])
  {
    hide Holds, Target;
    assert plan[..i + 1][..i] == plan[..i] && plan[..i + 1] == plan[..i] + [plan[i]];
    assert plan[i] in plan;
    forall k: Key | Holds(before, k) ensures Holds(d, k) {
      assert Holds(c, k);
    }
  }
}
