/** `normalizeMutation` and the validators it calls. */
module Normalize {
  import opened Text
  import opened Sorting
  import opened Types

  // ---------------------------------------------------------------- string maps

  function CleanKeys(m: map<string, string>): set<string> {
    set x | x in m.Keys && Trim(x) != "" :: Trim(x)
  }

  function SourceKey(m: map<string, string>, k: string): (x: string)
    requires k in CleanKeys(m)
    ensures x in m && Trim(x) == k
  {
    hide Trim;
    var sources := set x | x in m.Keys && Trim(x) == k;
    ghost var source :| source in m.Keys && Trim(source) == k;
    assert source in sources;
    Least(sources)
  }

  /** When several keys trim to the same text Go's map order picks the winner; here the least
      of them wins. */
  function NormalizeMap(m: map<string, string>): map<string, string> {
    map k | k in CleanKeys(m) :: Trim(m[SourceKey(m, k)])
  }

  lemma OnlySource(m: map<string, string>, x: string)
    requires x in m && Trim(x) != "" && forall y :: y in m && Trim(y) == Trim(x) ==> y == x
    ensures Trim(x) in NormalizeMap(m) && NormalizeMap(m)[Trim(x)] == Trim(m[x])
  {
    hide Trim, SourceKey, Least;
    assert Trim(x) in CleanKeys(m);
    assert SourceKey(m, Trim(x)) == x;
  }

  ghost predicate Sourced(m: map<string, string>, k: string, v: string) {
    exists x :: x in m && Trim(x) == k && Trim(m[x]) == v
  }

  /** The result has the trimmed non-blank keys, each with the trimmed value of a key that trims
      to it; where only one key does, that is its value, whoever wins elsewhere. */
  lemma NormalizeMapExact(m: map<string, string>)
    ensures NormalizeMap(m).Keys == CleanKeys(m)
    ensures forall k :: k in NormalizeMap(m) ==> Sourced(m, k, NormalizeMap(m)[k])
    ensures forall x :: x in m && Trim(x) != "" && (forall y :: y in m && Trim(y) == Trim(x) ==> y == x) ==>
      Trim(x) in NormalizeMap(m) && NormalizeMap(m)[Trim(x)] == Trim(m[x])
  {
    hide Trim, SourceKey, Least;
    forall k | k in NormalizeMap(m) ensures Sourced(m, k, NormalizeMap(m)[k]) {
      assert Trim(SourceKey(m, k)) == k;
    }
    forall x | x in m && Trim(x) != "" && (forall y :: y in m && Trim(y) == Trim(x) ==> y == x)
      ensures Trim(x) in NormalizeMap(m) && NormalizeMap(m)[Trim(x)] == Trim(m[x])
    {
      OnlySource(m, x);
    }
  }

  /** A map with trimmed, non-blank keys and trimmed values is its own normal form. */
  lemma CleanMapUnchanged(m: map<string, string>)
    requires CleanMap(m)
    ensures NormalizeMap(m) == m
  {
    hide Trim, SourceKey, Trimmed, NormalizeMap;
    forall k | k in m ensures Trim(k) == k && Trim(m[k]) == m[k] {
      TrimFixes(k);
      TrimFixes(m[k]);
    }
    forall k | k in m ensures k in NormalizeMap(m) && NormalizeMap(m)[k] == m[k] {
      OnlySource(m, k);
    }
    KeysOfNormal(m);
    assert CleanKeys(m) == m.Keys;
  }

  lemma KeysOfNormal(m: map<string, string>)
    ensures NormalizeMap(m).Keys == CleanKeys(m)
  {
  }

  predicate CleanMap(m: map<string, string>) {
    forall k :: k in m ==> k != "" && Trimmed(k) && Trimmed(m[k])
  }

  lemma NormalizeMapClean(m: map<string, string>)
    ensures CleanMap(NormalizeMap(m))
  {
    hide Trim, Trimmed, SourceKey;
  }

  lemma NormalizeMapFixes(m: map<string, string>)
    ensures NormalizeMap(NormalizeMap(m)) == NormalizeMap(m)
  {
    hide NormalizeMap, CleanMap;
    NormalizeMapClean(m);
    CleanMapUnchanged(NormalizeMap(m));
  }

  // ---------------------------------------------------------------- tags

  /** The clean form of every non-blank tag. */
  function CleanTags(tags: seq<string>): set<string> {
    set t | t in tags && Lower(Trim(t)) != "" :: Lower(Trim(t))
  }

  function TagsOf(tags: seq<string>): seq<string> {
    SortedIDs(CleanTags(tags))
  }

  method NormalizeTags(tags: seq<string>) returns (out: seq<string>)
    ensures out == TagsOf(tags)
    ensures Ranks(Less, CleanTags(tags), out)
  {
    hide Trim, Lower, SortedIDs, Sort;
    var seen: set<string> := {};
    out := [];
    for i := 0 to |tags|
      invariant seen == CleanTags(tags[..i])
      invariant Members(out) == seen
      invariant Distinct(out)
    {
      var clean := Lower(Trim(tags[i]));
      assert tags[..i + 1] == tags[..i] + [tags[i]];
      if clean == "" || clean in seen {
        continue;
      }
      assert clean !in Members(out);
      seen := seen + {clean};
      out := out + [clean];
    }
    assert tags[..|tags|] == tags;
    LessOrders(seen);
    SortRanks(Less, out);
    out := Sort(Less, out);
    SortedIDsRank(seen);
    RankingUnique(Less, seen, out, SortedIDs(seen));
  }

  lemma LowerTrimFixes(t: string)
    requires Trimmed(t) && Lower(t) == t
    ensures Lower(Trim(t)) == t
  {
    TrimFixes(t);
  }

  lemma LowerTrimmed(t: string)
    ensures Trimmed(Lower(Trim(t))) && Lower(Lower(Trim(t))) == Lower(Trim(t))
  {
    var s := Trim(t);
    assert forall c: char :: !IsSpace(c) ==> !IsSpace(LowerChar(c));
    assert Lower(Lower(s)) == Lower(s);
  }

  lemma TagsFix(tags: seq<string>)
    ensures TagsOf(TagsOf(tags)) == TagsOf(tags)
  {
    hide Trim, Lower, SortedIDs;
    var once := TagsOf(tags);
    forall t | t in once ensures t != "" && Lower(Trim(t)) == t {
      assert t in Members(once);
      var u :| u in tags && Lower(Trim(u)) == t;
      LowerTrimmed(u);
      LowerTrimFixes(t);
    }
    assert forall t :: t in once ==> Lower(Trim(t)) == t;
    assert CleanTags(once) == Members(once);
  }

  // ---------------------------------------------------------------- entities

  function NormalizeRecord(r: Record): Record {
    r.(id := Trim(r.id), namespace := Trim(r.namespace), projectID := Trim(r.projectID),
       kind := Trim(r.kind), summary := Trim(r.summary), humanID := Trim(r.humanID),
       sessionID := Trim(r.sessionID), missionID := Trim(r.missionID), persona := Trim(r.persona),
       tags := TagsOf(r.tags), attributes := NormalizeMap(r.attributes))
  }

  function ValidateRecord(r: Record): Option<Error> {
    if r.id == "" then Some(Invalid("record id is required"))
    else if r.namespace == "" then Some(Invalid("record namespace is required"))
    else if r.kind == "" then Some(Invalid("record kind is required"))
    else if r.summary == "" then Some(Invalid("record summary is required"))
    else None
  }

  function NormalizeChunk(c: Chunk): Chunk {
    c.(id := Trim(c.id), namespace := Trim(c.namespace), projectID := Trim(c.projectID),
       sessionID := Trim(c.sessionID), missionID := Trim(c.missionID), kind := Trim(c.kind),
       contentHash := Trim(c.contentHash), attributes := NormalizeMap(c.attributes))
  }

  function ValidateChunk(c: Chunk): Option<Error> {
    if c.id == "" then Some(Invalid("chunk id is required"))
    else if c.namespace == "" then Some(Invalid("chunk namespace is required"))
    else if c.kind == "" then Some(Invalid("chunk kind is required"))
    else if c.sequence == 0 then Some(Invalid("chunk sequence is required"))
    else None
  }

  type Hash = seq<Byte> -> string

  function PrepareChunk(c: Chunk, content: seq<Byte>, hash: Hash): Result<Chunk> {
    var n := NormalizeChunk(c);
    match ValidateChunk(n)
    case Some(e) => Err(e)
    case None =>
      if content == [] then Err(Invalid("chunk content is required"))
      else Ok(n.(contentHash := hash(content), contentLength := |content|))
  }

  /** Blank chunk ids are dropped, the order of the others is kept. */
  function NormalizeRefs(refs: seq<ChunkRef>): (out: seq<ChunkRef>)
    ensures forall r :: r in out ==> Trimmed(r.chunkID) && r.chunkID != ""
    ensures (forall r :: r in refs ==> Trimmed(r.chunkID) && r.chunkID != "") ==> out == refs
  {
    if refs == [] then []
    else
      var ref := refs[0].(chunkID := Trim(refs[0].chunkID));
      TrimFixes(refs[0].chunkID);
      if ref.chunkID == "" then NormalizeRefs(refs[1..]) else [ref] + NormalizeRefs(refs[1..])
  }

  function NormalizeSpan(s: SourceSpan): SourceSpan {
    s.(id := Trim(s.id), namespace := Trim(s.namespace), projectID := Trim(s.projectID),
       sessionID := Trim(s.sessionID), missionID := Trim(s.missionID), recordID := Trim(s.recordID),
       chunkRefs := NormalizeRefs(s.chunkRefs), attributes := NormalizeMap(s.attributes))
  }

  predicate RefShaped(r: ChunkRef) {
    && r.chunkID != ""
    && 0 <= r.startOffset
    && 0 <= r.endOffset
    && (r.endOffset > 0 ==> r.startOffset <= r.endOffset)
  }

  function ValidateSpan(s: SourceSpan): Option<Error> {
    if s.id == "" then Some(Invalid("source span id is required"))
    else if s.namespace == "" then Some(Invalid("source span namespace is required"))
    else if s.recordID == "" then Some(Invalid("source span record id is required"))
    else if s.chunkRefs == [] then Some(Invalid("source span chunk refs are required"))
    else if !(forall r :: r in s.chunkRefs ==> RefShaped(r)) then Some(Invalid("source span chunk ref is malformed"))
    else None
  }

  function NormalizeNode(n: Node): Node {
    n.(id := Trim(n.id), nodeType := Trim(n.nodeType), name := Trim(n.name), summary := Trim(n.summary),
       attributes := NormalizeMap(n.attributes))
  }

  function ValidateNode(n: Node): Option<Error> {
    if n.id == "" then Some(Invalid("node id is required"))
    else if n.nodeType == "" then Some(Invalid("node type is required"))
    else None
  }

  function NormalizeEdge(e: Edge): Edge {
    e.(id := Trim(e.id), edgeType := Trim(e.edgeType), fromNodeID := Trim(e.fromNodeID),
       toNodeID := Trim(e.toNodeID), attributes := NormalizeMap(e.attributes))
  }

  function ValidateEdge(e: Edge): Option<Error> {
    if e.id == "" then Some(Invalid("edge id is required"))
    else if e.edgeType == "" then Some(Invalid("edge type is required"))
    else if e.fromNodeID == "" then Some(Invalid("edge from_node_id is required"))
    else if e.toNodeID == "" then Some(Invalid("edge to_node_id is required"))
    else None
  }

  function NormalizePurge(p: PurgeRequest): PurgeRequest {
    p.(id := Trim(p.id), action := Trim(p.action), targetType := Trim(p.targetType),
       targetID := Trim(p.targetID), reason := Trim(p.reason), attributes := NormalizeMap(p.attributes))
  }

  function ValidatePurge(p: PurgeRequest): Option<Error> {
    if p.id == "" then Some(Invalid("purge request id is required"))
    else if p.action != "purge" && p.action != "redact" then Some(Invalid("unsupported purge request action"))
    else if p.targetType == "" then Some(Invalid("purge request target type is required"))
    else if p.targetID == "" then Some(Invalid("purge request target id is required"))
    else if p.reason == "" then Some(Invalid("purge request reason is required"))
    else None
  }

  // ---------------------------------------------------------------- mutations

  function Cleaned(m: Mutation): Mutation {
    m.(idempotencyKey := Trim(m.idempotencyKey), record := NormalizeRecord(m.record),
       chunk := NormalizeChunk(m.chunk), sourceSpan := NormalizeSpan(m.sourceSpan),
       node := NormalizeNode(m.node), edge := NormalizeEdge(m.edge),
       purgeRequest := NormalizePurge(m.purgeRequest))
  }

  function Checked(m: Mutation, error: Option<Error>): Result<Mutation> {
    match error case Some(e) => Err(e) case None => Ok(m)
  }

  function RequiredID(id: string): Option<Error> {
    if id == "" then Some(Invalid("id is required")) else None
  }

  function NormalizeMutation(m: Mutation, hash: Hash): Result<Mutation> {
    var n := Cleaned(m);
    match n.kind
    case CreateRecord => Checked(n, ValidateRecord(n.record))
    case UpdateRecord => Checked(n, ValidateRecord(n.record))
    case DeleteRecord => Checked(n, RequiredID(n.record.id))
    case CreateChunk =>
      (match PrepareChunk(n.chunk, n.chunkContent, hash)
       case Ok(c) => Ok(n.(chunk := c))
       case Err(e) => Err(e))
    case CreateSourceSpan => Checked(n, ValidateSpan(n.sourceSpan))
    case CreateNode => Checked(n, ValidateNode(n.node))
    case UpdateNode => Checked(n, ValidateNode(n.node))
    case DeleteNode => Checked(n, RequiredID(n.node.id))
    case CreateEdge => Checked(n, ValidateEdge(n.edge))
    case DeleteEdge => Checked(n, RequiredID(n.edge.id))
    case CreatePurgeRequest => Checked(n, ValidatePurge(n.purgeRequest))
    case Unknown => Err(Unsupported)
  }

  /** What an accepted mutation guarantees, read off the payload alone: it is what replay may
      rely on as well. */
  predicate Normalized(m: Mutation) {
    && m.kind != Unknown
    && Trimmed(m.record.id) && Trimmed(m.node.id) && Trimmed(m.edge.id)
    && match m.kind
       case CreateRecord => ValidateRecord(m.record).None?
       case UpdateRecord => ValidateRecord(m.record).None?
       case DeleteRecord => m.record.id != ""
       case CreateChunk => ValidateChunk(m.chunk).None? && m.chunk.contentLength > 0
       case CreateSourceSpan => ValidateSpan(m.sourceSpan).None?
       case CreateNode => ValidateNode(m.node).None?
       case UpdateNode => ValidateNode(m.node).None?
       case DeleteNode => m.node.id != ""
       case CreateEdge => ValidateEdge(m.edge).None?
       case DeleteEdge => m.edge.id != ""
       case CreatePurgeRequest => ValidatePurge(m.purgeRequest).None?
       case Unknown => false
  }

  lemma ChunkFixes(c: Chunk, hash: Hash, content: seq<Byte>)
    ensures NormalizeChunk(NormalizeChunk(c)) == NormalizeChunk(c)
    ensures PrepareChunk(NormalizeChunk(c), content, hash) == PrepareChunk(c, content, hash)
  {
    hide Trim, NormalizeMap, TagsOf, NormalizeRefs;
    NormalizeMapFixes(c.attributes);
    TrimFixes(Trim(c.id)); TrimFixes(Trim(c.namespace)); TrimFixes(Trim(c.projectID));
    TrimFixes(Trim(c.sessionID)); TrimFixes(Trim(c.missionID)); TrimFixes(Trim(c.kind));
    TrimFixes(Trim(c.contentHash));
  }

  lemma PreparedFixes(c: Chunk, content: seq<Byte>, hash: Hash)
    requires Trimmed(hash(content))
    ensures PrepareChunk(c, content, hash).Ok? ==>
      var p := PrepareChunk(c, content, hash).value;
      NormalizeChunk(p) == p && PrepareChunk(p, content, hash) == Ok(p)
  {
    hide Trim, NormalizeMap;
    ChunkFixes(c, hash, content);
    TrimFixes(hash(content));
  }

  lemma NormalizeEstablishes(m: Mutation, hash: Hash)
    ensures NormalizeMutation(m, hash).Ok? ==>
      var n := NormalizeMutation(m, hash).value;
      && Normalized(n) && n.at == m.at && n.kind == m.kind && n.chunkContent == m.chunkContent
      && n.idempotencyKey == Trim(m.idempotencyKey) && n.expectedRevision == m.expectedRevision
      && (n.kind == CreateChunk ==>
            n.chunk.contentHash == hash(m.chunkContent) && n.chunk.contentLength == |m.chunkContent|)
  {
    hide Trim, NormalizeMap, TagsOf, NormalizeRefs, NormalizeSpan, NormalizePurge, Trimmed;
    hide ValidateRecord, ValidateSpan, ValidateNode, ValidateEdge, ValidatePurge;
    if m.kind == CreateChunk {
      hide NormalizeRecord, NormalizeNode, NormalizeEdge;
      CleanedIDs(m);
    } else {
      hide PrepareChunk, NormalizeChunk, ValidateChunk;
    }
  }

  lemma CleanedIDs(m: Mutation)
    ensures Trimmed(Cleaned(m).record.id) && Trimmed(Cleaned(m).node.id) && Trimmed(Cleaned(m).edge.id)
  {
    hide Trim, NormalizeMap, TagsOf, NormalizeRefs, Trimmed;
  }

  lemma RecordFixes(r: Record)
    ensures NormalizeRecord(NormalizeRecord(r)) == NormalizeRecord(r)
  {
    hide Trim, NormalizeMap, TagsOf, NormalizeRefs;
    NormalizeMapFixes(r.attributes);
    TagsFix(r.tags);
    TrimFixes(Trim(r.id)); TrimFixes(Trim(r.namespace)); TrimFixes(Trim(r.projectID));
    TrimFixes(Trim(r.kind)); TrimFixes(Trim(r.summary)); TrimFixes(Trim(r.humanID));
    TrimFixes(Trim(r.sessionID)); TrimFixes(Trim(r.missionID)); TrimFixes(Trim(r.persona));
  }

  lemma SpanFixes(s: SourceSpan)
    ensures NormalizeSpan(NormalizeSpan(s)) == NormalizeSpan(s)
  {
    hide Trim, NormalizeMap, TagsOf, NormalizeRefs;
    NormalizeMapFixes(s.attributes);
    TrimFixes(Trim(s.id)); TrimFixes(Trim(s.namespace)); TrimFixes(Trim(s.projectID));
    TrimFixes(Trim(s.sessionID)); TrimFixes(Trim(s.missionID)); TrimFixes(Trim(s.recordID));
  }

  lemma GraphFixes(n: Node, e: Edge, p: PurgeRequest)
    ensures NormalizeNode(NormalizeNode(n)) == NormalizeNode(n)
    ensures NormalizeEdge(NormalizeEdge(e)) == NormalizeEdge(e)
    ensures NormalizePurge(NormalizePurge(p)) == NormalizePurge(p)
  {
    hide Trim, NormalizeMap, TagsOf, NormalizeRefs;
    NormalizeMapFixes(n.attributes); NormalizeMapFixes(e.attributes); NormalizeMapFixes(p.attributes);
    TrimFixes(Trim(n.id)); TrimFixes(Trim(n.nodeType)); TrimFixes(Trim(n.name)); TrimFixes(Trim(n.summary));
    TrimFixes(Trim(e.id)); TrimFixes(Trim(e.edgeType)); TrimFixes(Trim(e.fromNodeID)); TrimFixes(Trim(e.toNodeID));
    TrimFixes(Trim(p.id)); TrimFixes(Trim(p.action)); TrimFixes(Trim(p.targetType)); TrimFixes(Trim(p.targetID));
    TrimFixes(Trim(p.reason));
  }

  lemma CleanedFixes(m: Mutation)
    ensures Cleaned(Cleaned(m)) == Cleaned(m)
  {
    hide Trim, NormalizeMap, TagsOf, NormalizeRefs;
    hide ValidateRecord, ValidateChunk, ValidateSpan, ValidateNode, ValidateEdge, ValidatePurge;
    RecordFixes(m.record);
    ChunkFixes(m.chunk, _ => "", []);
    SpanFixes(m.sourceSpan);
    GraphFixes(m.node, m.edge, m.purgeRequest);
    TrimFixes(Trim(m.idempotencyKey));
  }

  /** Normalizing is idempotent, for any hash that prints without surrounding white space. */
  lemma NormalizeMutationFixes(m: Mutation, hash: Hash)
    requires forall c: seq<Byte> :: Trimmed(hash(c))
    ensures NormalizeMutation(m, hash).Ok? ==>
      NormalizeMutation(NormalizeMutation(m, hash).value, hash) == NormalizeMutation(m, hash)
  {
    hide Trim, NormalizeMap, TagsOf, NormalizeRefs;
    hide ValidateRecord, ValidateChunk, ValidateSpan, ValidateNode, ValidateEdge, ValidatePurge;
    CleanedFixes(m);
    if m.kind == CreateChunk {
      hide PrepareChunk;
      PreparedFixes(NormalizeChunk(m.chunk), m.chunkContent, hash);
    }
  }

  // ---------------------------------------------------------------- what normalizing accepts

  /** No string of the mutation has white space at its ends, and its tags are clean. */
  predicate Clean(m: Mutation) {
    && Trimmed(m.idempotencyKey)
    && (var r := m.record;
        && Trimmed(r.id) && Trimmed(r.namespace) && Trimmed(r.projectID) && Trimmed(r.kind) && Trimmed(r.summary)
        && Trimmed(r.humanID) && Trimmed(r.sessionID) && Trimmed(r.missionID) && Trimmed(r.persona)
        && TagsOf(r.tags) == r.tags && CleanMap(r.attributes))
    && (var c := m.chunk;
        && Trimmed(c.id) && Trimmed(c.namespace) && Trimmed(c.projectID) && Trimmed(c.sessionID) && Trimmed(c.missionID)
        && Trimmed(c.kind) && Trimmed(c.contentHash) && CleanMap(c.attributes))
    && (var s := m.sourceSpan;
        && Trimmed(s.id) && Trimmed(s.namespace) && Trimmed(s.projectID) && Trimmed(s.sessionID) && Trimmed(s.missionID)
        && Trimmed(s.recordID) && CleanMap(s.attributes)
        && forall r :: r in s.chunkRefs ==> r.chunkID != "" && Trimmed(r.chunkID))
    && Trimmed(m.node.id) && Trimmed(m.node.nodeType) && Trimmed(m.node.name) && Trimmed(m.node.summary)
    && CleanMap(m.node.attributes)
    && Trimmed(m.edge.id) && Trimmed(m.edge.edgeType) && Trimmed(m.edge.fromNodeID) && Trimmed(m.edge.toNodeID)
    && CleanMap(m.edge.attributes)
    && (var p := m.purgeRequest;
        && Trimmed(p.id) && Trimmed(p.action) && Trimmed(p.targetType) && Trimmed(p.targetID) && Trimmed(p.reason)
        && CleanMap(p.attributes))
  }

  lemma CleanRecordUnchanged(m: Mutation)
    requires Clean(m)
    ensures NormalizeRecord(m.record) == m.record
  {
    hide Trim, Trimmed, NormalizeMap, TagsOf, CleanMap;
    var r := m.record;
    CleanMapUnchanged(r.attributes);
    TrimFixes(r.id); TrimFixes(r.namespace); TrimFixes(r.projectID); TrimFixes(r.kind); TrimFixes(r.summary);
    TrimFixes(r.humanID); TrimFixes(r.sessionID); TrimFixes(r.missionID); TrimFixes(r.persona);
  }

  lemma CleanContentUnchanged(m: Mutation)
    requires Clean(m)
    ensures NormalizeChunk(m.chunk) == m.chunk && NormalizeSpan(m.sourceSpan) == m.sourceSpan
  {
    hide Trim, Trimmed, NormalizeMap, TagsOf, CleanMap;
    var c, s := m.chunk, m.sourceSpan;
    CleanMapUnchanged(c.attributes);
    TrimFixes(c.id); TrimFixes(c.namespace); TrimFixes(c.projectID); TrimFixes(c.sessionID); TrimFixes(c.missionID);
    TrimFixes(c.kind); TrimFixes(c.contentHash);
    CleanMapUnchanged(s.attributes);
    TrimFixes(s.id); TrimFixes(s.namespace); TrimFixes(s.projectID); TrimFixes(s.sessionID); TrimFixes(s.missionID);
    TrimFixes(s.recordID);
  }

  lemma CleanGraphUnchanged(m: Mutation)
    requires Clean(m)
    ensures NormalizeNode(m.node) == m.node && NormalizeEdge(m.edge) == m.edge
    ensures NormalizePurge(m.purgeRequest) == m.purgeRequest
  {
    hide Trim, Trimmed, NormalizeMap, TagsOf, CleanMap;
    var n, e, p := m.node, m.edge, m.purgeRequest;
    CleanMapUnchanged(n.attributes); CleanMapUnchanged(e.attributes); CleanMapUnchanged(p.attributes);
    TrimFixes(n.id); TrimFixes(n.nodeType); TrimFixes(n.name); TrimFixes(n.summary);
    TrimFixes(e.id); TrimFixes(e.edgeType); TrimFixes(e.fromNodeID); TrimFixes(e.toNodeID);
    TrimFixes(p.id); TrimFixes(p.action); TrimFixes(p.targetType); TrimFixes(p.targetID); TrimFixes(p.reason);
  }

  /** Cleaning only ever removes blanks: what has none to remove comes back as it was, every
      field in its place. */
  lemma CleanMutationUnchanged(m: Mutation)
    requires Clean(m)
    ensures Cleaned(m) == m
  {
    hide Trim, Trimmed, Clean, NormalizeRecord, NormalizeChunk, NormalizeSpan, NormalizeNode, NormalizeEdge,
      NormalizePurge;
    CleanRecordUnchanged(m);
    CleanContentUnchanged(m);
    CleanGraphUnchanged(m);
    CleanKey(m);
    TrimFixes(m.idempotencyKey);
  }

  /** And what has blanks loses them where they are: every string of an accepted mutation is the
      one given, trimmed, the tags are trimmed, lower-cased and sorted, blank chunk ids go. */
  lemma NormalizedFields(m: Mutation, hash: Hash)
    requires NormalizeMutation(m, hash).Ok?
    ensures var n := NormalizeMutation(m, hash).value;
      && n == m.(idempotencyKey := Trim(m.idempotencyKey), record := n.record, chunk := n.chunk,
                 sourceSpan := n.sourceSpan, node := n.node, edge := n.edge, purgeRequest := n.purgeRequest)
      && (var r := m.record;
          n.record == Record(Trim(r.id), Trim(r.namespace), Trim(r.projectID), Trim(r.kind), Trim(r.summary),
                             TagsOf(r.tags), Trim(r.humanID), Trim(r.sessionID), Trim(r.missionID), Trim(r.persona),
                             NormalizeMap(r.attributes), r.deleted, r.stamp))
      && (var s := m.sourceSpan;
          n.sourceSpan == SourceSpan(Trim(s.id), Trim(s.namespace), Trim(s.projectID), Trim(s.sessionID),
                                     Trim(s.missionID), Trim(s.recordID), NormalizeRefs(s.chunkRefs),
                                     NormalizeMap(s.attributes), s.stamp))
      && (var v := m.node;
          n.node == Node(Trim(v.id), Trim(v.nodeType), Trim(v.name), Trim(v.summary), NormalizeMap(v.attributes),
                         v.deleted, v.stamp))
      && (var g := m.edge;
          n.edge == Edge(Trim(g.id), Trim(g.edgeType), Trim(g.fromNodeID), Trim(g.toNodeID), NormalizeMap(g.attributes),
                         g.deleted, g.stamp))
      && (var p := m.purgeRequest;
          n.purgeRequest == PurgeRequest(Trim(p.id), Trim(p.action), Trim(p.targetType), Trim(p.targetID),
                                         Trim(p.reason), NormalizeMap(p.attributes), p.stamp))
      && var k := m.chunk;
         n.chunk == Chunk(Trim(k.id), Trim(k.namespace), Trim(k.projectID), Trim(k.sessionID), Trim(k.missionID),
                          Trim(k.kind), k.sequence,
                          if m.kind == CreateChunk then hash(m.chunkContent) else Trim(k.contentHash),
                          if m.kind == CreateChunk then |m.chunkContent| else k.contentLength,
                          NormalizeMap(k.attributes), k.stamp)
  {
    hide Trim, NormalizeMap, TagsOf, NormalizeRefs;
    hide ValidateRecord, ValidateChunk, ValidateSpan, ValidateNode, ValidateEdge, ValidatePurge;
    if m.kind == CreateChunk { ChunkCleaned(m.chunk); }
  }

  lemma ChunkCleaned(k: Chunk)
    ensures NormalizeChunk(NormalizeChunk(k)) == NormalizeChunk(k)
  {
    ChunkFixes(k, _ => "", []);
  }

  /** What becomes of one ref: a blank one goes, any other is trimmed and keeps its offsets. */
  function NormalizeRef(r: ChunkRef): seq<ChunkRef> {
    if AllSpace(r.chunkID) then [] else [ChunkRef(Trim(r.chunkID), r.startOffset, r.endOffset)]
  }

  /** Refs are normalized one by one, in their places. */
  lemma {:induction false} NormalizeRefsOneByOne(a: seq<ChunkRef>, b: seq<ChunkRef>)
    ensures NormalizeRefs(a + b) == NormalizeRefs(a) + NormalizeRefs(b)
  {
    NoRefs();
    hide NormalizeRefs, NormalizeRef;
    if a == [] {
      assert a + b == b;
    } else {
      var one, x, y := NormalizeRef(a[0]), NormalizeRefs(a[1..]), NormalizeRefs(b);
      NormalizeRefsOneByOne(a[1..], b);
      FirstRef(a);
      FirstRef(a + b);
      assert (a + b)[1..] == a[1..] + b;
      assert one + x + y == one + (x + y);
    }
  }

  lemma NoRefs()
    ensures NormalizeRefs([]) == []
  {
  }

  lemma FirstRef(refs: seq<ChunkRef>)
    requires refs != []
    ensures NormalizeRefs(refs) == NormalizeRef(refs[0]) + NormalizeRefs(refs[1..])
  {
    hide Trim, AllSpace;
    TrimEmptiesBlanks(refs[0].chunkID);
  }

  lemma CleanKey(m: Mutation)
    requires Clean(m)
    ensures Trimmed(m.idempotencyKey)
  {
  }

  predicate RefAcceptable(r: ChunkRef) {
    || AllSpace(r.chunkID)
    || (0 <= r.startOffset && 0 <= r.endOffset && (r.endOffset == 0 || r.startOffset <= r.endOffset))
  }

  predicate AcceptableRecord(r: Record) {
    !AllSpace(r.id) && !AllSpace(r.namespace) && !AllSpace(r.kind) && !AllSpace(r.summary)
  }

  predicate AcceptableChunk(c: Chunk) {
    !AllSpace(c.id) && !AllSpace(c.namespace) && !AllSpace(c.kind) && c.sequence != 0
  }

  predicate AcceptableSpan(s: SourceSpan) {
    && !AllSpace(s.id) && !AllSpace(s.namespace) && !AllSpace(s.recordID)
    && (exists r :: r in s.chunkRefs && !AllSpace(r.chunkID))
    && (forall r :: r in s.chunkRefs ==> RefAcceptable(r))
  }

  predicate AcceptableEdge(e: Edge) {
    !AllSpace(e.id) && !AllSpace(e.edgeType) && !AllSpace(e.fromNodeID) && !AllSpace(e.toNodeID)
  }

  predicate AcceptablePurge(p: PurgeRequest) {
    && !AllSpace(p.id) && Trim(p.action) in {"purge", "redact"}
    && !AllSpace(p.targetType) && !AllSpace(p.targetID) && !AllSpace(p.reason)
  }

  /** What each kind of mutation asks of its caller, before anything is trimmed. */
  predicate Acceptable(m: Mutation) {
    match m.kind
    case CreateRecord => AcceptableRecord(m.record)
    case UpdateRecord => AcceptableRecord(m.record)
    case DeleteRecord => !AllSpace(m.record.id)
    case CreateChunk => AcceptableChunk(m.chunk) && m.chunkContent != []
    case CreateSourceSpan => AcceptableSpan(m.sourceSpan)
    case CreateNode => !AllSpace(m.node.id) && !AllSpace(m.node.nodeType)
    case UpdateNode => !AllSpace(m.node.id) && !AllSpace(m.node.nodeType)
    case DeleteNode => !AllSpace(m.node.id)
    case CreateEdge => AcceptableEdge(m.edge)
    case DeleteEdge => !AllSpace(m.edge.id)
    case CreatePurgeRequest => AcceptablePurge(m.purgeRequest)
    case Unknown => false
  }

  lemma {:induction false} RefsAcceptable(refs: seq<ChunkRef>)
    ensures NormalizeRefs(refs) != [] <==> exists r :: r in refs && !AllSpace(r.chunkID)
    ensures (forall r :: r in NormalizeRefs(refs) ==> RefShaped(r)) <==> (forall r :: r in refs ==> RefAcceptable(r))
  {
    hide Trim, AllSpace;
    if refs != [] {
      assert refs == [refs[0]] + refs[1..];
      TrimEmptiesBlanks(refs[0].chunkID);
      RefsAcceptable(refs[1..]);
      var first, rest := refs[0].(chunkID := Trim(refs[0].chunkID)), NormalizeRefs(refs[1..]);
      if first.chunkID != "" {
        assert NormalizeRefs(refs) == [first] + rest;
        assert forall r :: r in NormalizeRefs(refs) <==> r == first || r in rest;
        assert first in NormalizeRefs(refs);
      }
      assert refs[0] in refs;
    }
  }

  lemma RecordAcceptedIff(r: Record)
    ensures ValidateRecord(NormalizeRecord(r)).None? <==> AcceptableRecord(r)
    ensures NormalizeRecord(r).id == "" <==> AllSpace(r.id)
  {
    hide Trim, AllSpace, NormalizeMap, TagsOf;
    TrimEmptiesBlanks(r.id); TrimEmptiesBlanks(r.namespace); TrimEmptiesBlanks(r.kind); TrimEmptiesBlanks(r.summary);
  }

  lemma ChunkAcceptedIff(c: Chunk)
    ensures ValidateChunk(NormalizeChunk(c)).None? <==> AcceptableChunk(c)
  {
    hide Trim, AllSpace, NormalizeMap;
    TrimEmptiesBlanks(c.id); TrimEmptiesBlanks(c.namespace); TrimEmptiesBlanks(c.kind);
  }

  lemma SpanAcceptedIff(s: SourceSpan)
    ensures ValidateSpan(NormalizeSpan(s)).None? <==> AcceptableSpan(s)
  {
    hide Trim, AllSpace, NormalizeMap, NormalizeRefs, RefShaped, RefAcceptable;
    TrimEmptiesBlanks(s.id); TrimEmptiesBlanks(s.namespace); TrimEmptiesBlanks(s.recordID);
    RefsAcceptable(s.chunkRefs);
  }

  lemma NodeAcceptedIff(n: Node)
    ensures ValidateNode(NormalizeNode(n)).None? <==> !AllSpace(n.id) && !AllSpace(n.nodeType)
    ensures NormalizeNode(n).id == "" <==> AllSpace(n.id)
  {
    hide Trim, AllSpace, NormalizeMap;
    TrimEmptiesBlanks(n.id); TrimEmptiesBlanks(n.nodeType);
  }

  lemma EdgeAcceptedIff(e: Edge)
    ensures ValidateEdge(NormalizeEdge(e)).None? <==> AcceptableEdge(e)
    ensures NormalizeEdge(e).id == "" <==> AllSpace(e.id)
  {
    hide Trim, AllSpace, NormalizeMap;
    TrimEmptiesBlanks(e.id); TrimEmptiesBlanks(e.edgeType);
    TrimEmptiesBlanks(e.fromNodeID); TrimEmptiesBlanks(e.toNodeID);
  }

  lemma PurgeAcceptedIff(p: PurgeRequest)
    ensures ValidatePurge(NormalizePurge(p)).None? <==> AcceptablePurge(p)
  {
    hide Trim, AllSpace, NormalizeMap;
    TrimEmptiesBlanks(p.id); TrimEmptiesBlanks(p.targetType);
    TrimEmptiesBlanks(p.targetID); TrimEmptiesBlanks(p.reason);
  }

  /** Normalizing accepts exactly the acceptable mutations. */
  lemma NormalizeAcceptsIff(m: Mutation, hash: Hash)
    ensures NormalizeMutation(m, hash).Ok? <==> Acceptable(m)
  {
    hide Trim, AllSpace, AcceptableRecord, AcceptableChunk, AcceptableSpan, AcceptableEdge, AcceptablePurge;
    hide ValidateRecord, ValidateChunk, ValidateSpan, ValidateNode, ValidateEdge, ValidatePurge;
    hide NormalizeRecord, NormalizeChunk, NormalizeSpan, NormalizeNode, NormalizeEdge, NormalizePurge;
    RecordAcceptedIff(m.record);
    ChunkAcceptedIff(m.chunk);
    SpanAcceptedIff(m.sourceSpan);
    NodeAcceptedIff(m.node);
    EdgeAcceptedIff(m.edge);
    PurgeAcceptedIff(m.purgeRequest);
    ChunkFixes(m.chunk, hash, m.chunkContent);
    match m.kind {
      case CreateRecord => case UpdateRecord => case DeleteRecord =>
      case CreateChunk => case CreateSourceSpan => case CreatePurgeRequest =>
      case CreateNode => case UpdateNode => case DeleteNode =>
      case CreateEdge => case DeleteEdge =>
      case Unknown =>
    }
  }
}
