/** The pilot importer: memory records become records, nodes, chunks, spans, edges and embeddings.
    Each exists afterwards and says what its memory record says; nothing else is new, and a
    second import appends nothing. */
module Imports {
  import opened Text
  import opened Types
  import opened Normalize
  import opened Laws
  import opened Disks
  import opened Stores
  import opened Vectors
  import opened ImportWrites
  import VectorIndexes

  // ---------------------------------------------------------------- memory records

  const SCHEMA := "kilo.memory_import/v1"

  /** The bit pattern of a float64. */
  type Double = x: int | 0 <= x < 0x1_0000_0000_0000_0000

  /** `metadata` is the encoded JSON object, empty when there is none. */
  datatype MemoryRecord = MemoryRecord(
    schema: string, recordID: string, kind: string, summary: string, detail: string, rationale: string,
    tags: seq<string>, source: string, sessionID: string, filePath: string, startLine: Option<int>,
    endLine: Option<int>, createdAt: string, disposition: string, reviewedBy: string, supersedesRecordID: string,
    metadata: string, embeddingModel: string, embeddingDimensions: int, embedding: seq<Double>, missionID: string,
    missionPhase: string, sourcePersona: string, qaApproved: Option<bool>, retrievalText: string, sourceText: string)

  /** What the importer takes from libraries: SHA-256 printed in hexadecimal, UTF-8, RFC 3339, JSON
      of a list of strings, and the float32 next to a float64, if that is finite and in range. */
  datatype Host = Host(
    digest: seq<string> -> string, utf8: string -> seq<Byte>, parseTime: string -> Option<Time>,
    json: seq<string> -> string, narrow: Double -> Option<Bits>)

  datatype Options = Options(namespace: string, projectID: string, humanID: string)

  /** Without a namespace of its own an import goes to `sugarfang`. */
  function NormalizeOptions(o: Options): Options {
    Options(if Trim(o.namespace) == "" then "sugarfang" else Trim(o.namespace), Trim(o.projectID), Trim(o.humanID))
  }

  /** `compactAttributes`: blank values are dropped. */
  function Compacted(m: map<string, string>): map<string, string> {
    map k | k in m && Trim(m[k]) != "" :: m[k]
  }

  /** Digests print as hexadecimal digits: no blanks, never empty. */
  ghost predicate Prints(host: Host) {
    forall parts :: host.digest(parts) != "" && Trimmed(host.digest(parts))
  }

  function StableID(host: Host, prefix: string, parts: seq<string>): string {
    prefix + ":" + host.digest(parts)
  }

  lemma StableIDTrimmed(host: Host, prefix: string, parts: seq<string>)
    requires Prints(host) && prefix != "" && !IsSpace(prefix[0])
    ensures StableID(host, prefix, parts) != "" && Trimmed(StableID(host, prefix, parts))
  {
    var x, d := StableID(host, prefix, parts), host.digest(parts);
    assert x[0] == prefix[0] && x[|x| - 1] == d[|d| - 1];
  }

  function Digits(n: nat): string {
    if n < 10 then ["0123456789"[n]] else Digits(n / 10) + ["0123456789"[n % 10]]
  }

  function Decimal(n: int): string {
    if n < 0 then "-" + Digits(-n) else Digits(n)
  }

  /** The number a list of digits stands for. */
  function NumberOf(digits: string): nat
    requires forall i :: 0 <= i < |digits| ==> '0' <= digits[i] <= '9'
  {
    if digits == "" then 0 else 10 * NumberOf(digits[..|digits| - 1]) + (digits[|digits| - 1] - '0') as nat
  }

  /** `strconv.Itoa` prints digits that stand for the number, without a leading zero. */
  lemma {:induction false} DigitsAre(n: nat)
    ensures Digits(n) != "" && forall i :: 0 <= i < |Digits(n)| ==> '0' <= Digits(n)[i] <= '9'
    ensures NumberOf(Digits(n)) == n && (n > 0 ==> Digits(n)[0] != '0')
  {
    DigitIs(n % 10);
    if n >= 10 {
      DigitsAre(n / 10);
      var d := Digits(n);
      assert d[..|d| - 1] == Digits(n / 10);
    } else {
      assert Digits(n)[..0] == "";
    }
  }

  lemma DigitIs(n: nat)
    requires n < 10
    ensures '0' <= "0123456789"[n] <= '9' && ("0123456789"[n] - '0') as nat == n
  {
  }

  function IntString(n: Option<int>): string {
    match n case None => "" case Some(x) => Decimal(x)
  }

  function BoolString(b: Option<bool>): string {
    match b case None => "" case Some(x) => if x then "true" else "false"
  }

  /** Trimmed, without blanks and repetitions, in the order of first appearance. */
  function OriginalTags(tags: seq<string>): seq<string> {
    if tags == [] then []
    else
      var before, tag := OriginalTags(tags[..|tags| - 1]), Trim(tags[|tags| - 1]);
      if tag == "" || tag in before then before else before + [tag]
  }

  /** Exactly the trimmed non-blank tags, each once, in the order of their first appearance. */
  lemma {:induction false} OriginalTagsAre(tags: seq<string>, more: string)
    ensures forall t :: t in OriginalTags(tags) <==> t != "" && exists x :: x in tags && Trim(x) == t
    ensures forall i, j :: 0 <= i < j < |OriginalTags(tags)| ==> OriginalTags(tags)[i] != OriginalTags(tags)[j]
    ensures OriginalTags(tags) <= OriginalTags(tags + [more])
  {
    hide Trim;
    assert (tags + [more])[..|tags|] == tags;
    if tags != [] {
      OriginalTagsAre(tags[..|tags| - 1], more);
      assert tags == tags[..|tags| - 1] + [tags[|tags| - 1]];
    }
  }

  predicate Narrows(host: Host, embedding: seq<Double>) {
    forall i :: 0 <= i < |embedding| ==> host.narrow(embedding[i]).Some?
  }

  function CleanMemory(r: MemoryRecord): MemoryRecord {
    r.(schema := Trim(r.schema), recordID := Trim(r.recordID), kind := Trim(Lower(r.kind)), summary := Trim(r.summary),
       detail := Trim(r.detail), rationale := Trim(r.rationale), source := Trim(r.source),
       sessionID := Trim(r.sessionID), filePath := Trim(r.filePath), createdAt := Trim(r.createdAt),
       disposition := if Trim(Lower(r.disposition)) == "" then "accepted" else Trim(Lower(r.disposition)),
       reviewedBy := Trim(r.reviewedBy), supersedesRecordID := Trim(r.supersedesRecordID),
       embeddingModel := Trim(r.embeddingModel), missionID := Trim(r.missionID), missionPhase := Trim(r.missionPhase),
       sourcePersona := Trim(r.sourcePersona), retrievalText := Trim(r.retrievalText), tags := OriginalTags(r.tags),
       embeddingDimensions := if r.embeddingDimensions == 0 then |r.embedding| else r.embeddingDimensions)
  }

  function LinesFault(start: Option<int>, end: Option<int>): Option<Error> {
    if start.Some? && start.value <= 0 then Some(Invalid("start_line must be positive"))
    else if end.Some? && end.value <= 0 then Some(Invalid("end_line must be positive"))
    else if start.Some? && end.Some? && end.value < start.value then
      Some(Invalid("end_line must be greater than or equal to start_line"))
    else None
  }

  function NormalizeMemory(r: MemoryRecord, host: Host): Result<MemoryRecord> {
    var n := CleanMemory(r);
    if n.schema != "" && n.schema != SCHEMA then Err(Unsupported)
    else if n.recordID == "" then Err(Invalid("record_id is required"))
    else if n.kind == "" then Err(Invalid("kind is required"))
    else if n.summary == "" then Err(Invalid("summary is required"))
    else if LinesFault(n.startLine, n.endLine).Some? then Err(LinesFault(n.startLine, n.endLine).value)
    else if n.createdAt != "" && host.parseTime(n.createdAt).None? then Err(Invalid("created_at must be RFC3339"))
    else if r.embeddingDimensions < 0 then Err(Invalid("embedding_dimensions must be non-negative"))
    else if n.embedding == [] then Ok(n)
    else if n.embeddingModel == "" then Err(Invalid("embedding_model is required when embedding is present"))
    else if n.embeddingDimensions != |n.embedding| then Err(Invalid("embedding_dimensions mismatch"))
    else if !Narrows(host, n.embedding) then Err(Invalid("embedding value must be a finite float32"))
    else Ok(n)
  }

  /** What the builders rely on. */
  predicate Named(r: MemoryRecord, host: Host) {
    && r.recordID != "" && Trimmed(r.recordID) && Trimmed(r.sessionID) && Trimmed(r.missionID)
    && Trimmed(r.sourcePersona) && Trimmed(r.supersedesRecordID) && Trimmed(r.kind) && Trimmed(r.summary)
    && (r.embedding != [] ==>
          && r.embeddingModel != "" && Trimmed(r.embeddingModel) && r.embeddingDimensions == |r.embedding|
          && Narrows(host, r.embedding))
  }

  /** `recordTime`. */
  function TimeOf(r: MemoryRecord, host: Host): Time {
    if r.createdAt == "" || host.parseTime(r.createdAt).None? then 0 else host.parseTime(r.createdAt).value
  }

  function MemoryAttributes(r: MemoryRecord, host: Host): map<string, string> {
    Compacted(AllAttributes(r, host))
  }

  function AllAttributes(r: MemoryRecord, host: Host): map<string, string> {
    ReviewAttributes(r) + SourceAttributes(r) + CountedAttributes(r, host)
  }

  function ReviewAttributes(r: MemoryRecord): map<string, string> {
    map["schema" := SCHEMA, "detail" := r.detail, "rationale" := r.rationale, "disposition" := r.disposition,
        "reviewed_by" := r.reviewedBy, "qa_approved" := BoolString(r.qaApproved)]
  }

  function SourceAttributes(r: MemoryRecord): map<string, string> {
    map["source" := r.source, "file_path" := r.filePath, "mission_phase" := r.missionPhase,
        "source_persona" := r.sourcePersona, "supersedes_record_id" := r.supersedesRecordID,
        "embedding_model" := r.embeddingModel]
  }

  function CountedAttributes(r: MemoryRecord, host: Host): map<string, string> {
    map["retrieval_text" := r.retrievalText, "start_line" := IntString(r.startLine), "end_line" := IntString(r.endLine),
        "metadata_json" := r.metadata,
        "embedding_dimensions" := if r.embeddingDimensions > 0 then Decimal(r.embeddingDimensions) else "",
        "original_tags_json" := if r.tags == [] then "" else host.json(r.tags)]
  }

  /** Where the excerpt of a record comes from. */
  function Located(r: MemoryRecord): map<string, string> {
    map["record_id" := r.recordID, "file_path" := r.filePath, "start_line" := IntString(r.startLine),
        "end_line" := IntString(r.endLine)]
  }

  /** Which memory records are accepted, and what becomes of their fields. */
  lemma NormalizeMemoryIff(r: MemoryRecord, host: Host)
    ensures NormalizeMemory(r, host).Ok? <==>
      && (AllSpace(r.schema) || Trim(r.schema) == "kilo.memory_import/v1")
      && !AllSpace(r.recordID) && !AllSpace(Lower(r.kind)) && !AllSpace(r.summary)
      && (r.startLine.Some? ==> r.startLine.value > 0) && (r.endLine.Some? ==> r.endLine.value > 0)
      && (r.startLine.Some? && r.endLine.Some? ==> r.startLine.value <= r.endLine.value)
      && (AllSpace(r.createdAt) || host.parseTime(Trim(r.createdAt)).Some?)
      && r.embeddingDimensions >= 0
      && (r.embedding != [] ==>
            && !AllSpace(r.embeddingModel) && (r.embeddingDimensions == 0 || r.embeddingDimensions == |r.embedding|)
            && forall i :: 0 <= i < |r.embedding| ==> host.narrow(r.embedding[i]).Some?)
    ensures NormalizeMemory(r, host).Ok? ==>
      NormalizeMemory(r, host).value == MemoryRecord(
        Trim(r.schema), Trim(r.recordID), Trim(Lower(r.kind)), Trim(r.summary), Trim(r.detail), Trim(r.rationale),
        OriginalTags(r.tags), Trim(r.source), Trim(r.sessionID), Trim(r.filePath), r.startLine, r.endLine,
        Trim(r.createdAt), if AllSpace(Lower(r.disposition)) then "accepted" else Trim(Lower(r.disposition)),
        Trim(r.reviewedBy), Trim(r.supersedesRecordID), r.metadata, Trim(r.embeddingModel),
        if r.embeddingDimensions == 0 then |r.embedding| else r.embeddingDimensions, r.embedding, Trim(r.missionID),
        Trim(r.missionPhase), Trim(r.sourcePersona), r.qaApproved, Trim(r.retrievalText), r.sourceText)
  {
    hide Trim, Lower, AllSpace, OriginalTags;
    TrimEmptiesBlanks(r.schema);
    TrimEmptiesBlanks(r.recordID);
    TrimEmptiesBlanks(Lower(r.kind));
    TrimEmptiesBlanks(r.summary);
    TrimEmptiesBlanks(r.createdAt);
    TrimEmptiesBlanks(Lower(r.disposition));
    TrimEmptiesBlanks(r.embeddingModel);
  }

  /** Every key of the attributes and what it holds; a blank value leaves its key out. */
  ghost predicate Carries(m: map<string, string>, key: string, value: string) {
    if AllSpace(value) then key !in m else key in m && m[key] == value
  }

  lemma AttributesSay(r: MemoryRecord, host: Host)
    ensures var m := MemoryAttributes(r, host);
      && Carries(m, "schema", "kilo.memory_import/v1") && Carries(m, "source", r.source)
      && Carries(m, "detail", r.detail)
      && Carries(m, "rationale", r.rationale) && Carries(m, "disposition", r.disposition)
      && Carries(m, "reviewed_by", r.reviewedBy) && Carries(m, "file_path", r.filePath)
      && Carries(m, "mission_phase", r.missionPhase) && Carries(m, "source_persona", r.sourcePersona)
      && Carries(m, "supersedes_record_id", r.supersedesRecordID) && Carries(m, "embedding_model", r.embeddingModel)
      && Carries(m, "retrieval_text", r.retrievalText) && Carries(m, "metadata_json", r.metadata)
      && Carries(m, "start_line", if r.startLine.None? then "" else Decimal(r.startLine.value))
      && Carries(m, "end_line", if r.endLine.None? then "" else Decimal(r.endLine.value))
      && Carries(m, "qa_approved", if r.qaApproved.None? then "" else if r.qaApproved.value then "true" else "false")
      && Carries(m, "embedding_dimensions", if r.embeddingDimensions > 0 then Decimal(r.embeddingDimensions) else "")
      && Carries(m, "original_tags_json", if r.tags == [] then "" else host.json(r.tags))
  {
    hide ReviewAttributes, SourceAttributes, CountedAttributes, MemoryAttributes, Carries, Decimal;
    GroupsDisjoint(r, host);
    ReviewValues(r, host);
    SourceValues(r, host);
    CountedValues(r, host);
    AttributeAt(r, host, "schema");
    AttributeAt(r, host, "source");
    AttributeAt(r, host, "detail");
    AttributeAt(r, host, "rationale");
    AttributeAt(r, host, "disposition");
    AttributeAt(r, host, "reviewed_by");
    AttributeAt(r, host, "file_path");
    AttributeAt(r, host, "mission_phase");
    AttributeAt(r, host, "source_persona");
    AttributeAt(r, host, "supersedes_record_id");
    AttributeAt(r, host, "embedding_model");
    AttributeAt(r, host, "retrieval_text");
    AttributeAt(r, host, "metadata_json");
    AttributeAt(r, host, "start_line");
    AttributeAt(r, host, "end_line");
    AttributeAt(r, host, "qa_approved");
    AttributeAt(r, host, "embedding_dimensions");
    AttributeAt(r, host, "original_tags_json");
  }

  lemma AttributeAt(r: MemoryRecord, host: Host, key: string)
    requires key in ReviewAttributes(r) || key in SourceAttributes(r) || key in CountedAttributes(r, host)
    ensures Carries(MemoryAttributes(r, host), key,
      if key in ReviewAttributes(r) then ReviewAttributes(r)[key]
      else if key in SourceAttributes(r) then SourceAttributes(r)[key] else CountedAttributes(r, host)[key])
  {
    hide ReviewAttributes, SourceAttributes, CountedAttributes, AllAttributes, Compacted, Carries;
    GroupValue(r, host, key);
    CompactedAt(AllAttributes(r, host), key);
  }

  lemma CompactedAt(m: map<string, string>, key: string)
    requires key in m
    ensures Carries(Compacted(m), key, m[key])
  {
    hide Trim, AllSpace;
    TrimEmptiesBlanks(m[key]);
  }

  /** The three groups have no key in common, so every key has the value of its group. */
  lemma GroupValue(r: MemoryRecord, host: Host, key: string)
    ensures var m := AllAttributes(r, host);
      && (key in ReviewAttributes(r) ==> key in m && m[key] == ReviewAttributes(r)[key])
      && (key in SourceAttributes(r) ==> key in m && m[key] == SourceAttributes(r)[key])
      && (key in CountedAttributes(r, host) ==> key in m && m[key] == CountedAttributes(r, host)[key])
  {
    hide ReviewAttributes, SourceAttributes, CountedAttributes;
    GroupsDisjoint(r, host);
  }

  lemma GroupsDisjoint(r: MemoryRecord, host: Host)
    ensures ReviewAttributes(r).Keys !! SourceAttributes(r).Keys !! CountedAttributes(r, host).Keys
  {
    hide ReviewAttributes, SourceAttributes, CountedAttributes;
    GroupsApart(r, host);
  }

  lemma GroupsApart(r: MemoryRecord, host: Host)
    ensures var rest := {"retrieval_text", "start_line", "end_line", "metadata_json", "embedding_dimensions",
                         "original_tags_json"};
      CountedAttributes(r, host).Keys == rest
    ensures SourceAttributes(r).Keys == {"source", "file_path", "mission_phase", "source_persona",
                                         "supersedes_record_id", "embedding_model"}
    ensures ReviewAttributes(r).Keys == {"schema", "detail", "rationale", "disposition", "reviewed_by", "qa_approved"}
  {
    hide Decimal;
  }

  lemma ReviewValues(r: MemoryRecord, host: Host)
    ensures var m := ReviewAttributes(r);
      && "schema" in m && m["schema"] == ("kilo.memory_import/v1")
      && "detail" in m && m["detail"] == (r.detail)
      && "rationale" in m && m["rationale"] == (r.rationale)
      && "disposition" in m && m["disposition"] == (r.disposition)
      && "reviewed_by" in m && m["reviewed_by"] == (r.reviewedBy)
      && "qa_approved" in m && m["qa_approved"] ==
           (if r.qaApproved.None? then "" else if r.qaApproved.value then "true" else "false")
  {
    hide Decimal;
  }

  lemma SourceValues(r: MemoryRecord, host: Host)
    ensures var m := SourceAttributes(r);
      && "source" in m && m["source"] == (r.source)
      && "file_path" in m && m["file_path"] == (r.filePath)
      && "mission_phase" in m && m["mission_phase"] == (r.missionPhase)
      && "source_persona" in m && m["source_persona"] == (r.sourcePersona)
      && "supersedes_record_id" in m && m["supersedes_record_id"] == (r.supersedesRecordID)
      && "embedding_model" in m && m["embedding_model"] == (r.embeddingModel)
  {
    hide Decimal;
  }

  lemma CountedValues(r: MemoryRecord, host: Host)
    ensures var m := CountedAttributes(r, host);
      && "retrieval_text" in m && m["retrieval_text"] == (r.retrievalText)
      && "start_line" in m && m["start_line"] == (if r.startLine.None? then "" else Decimal(r.startLine.value))
      && "end_line" in m && m["end_line"] == (if r.endLine.None? then "" else Decimal(r.endLine.value))
      && "metadata_json" in m && m["metadata_json"] == (r.metadata)
      && "embedding_dimensions" in m && m["embedding_dimensions"] ==
           (if r.embeddingDimensions > 0 then Decimal(r.embeddingDimensions) else "")
      && "original_tags_json" in m && m["original_tags_json"] == (if r.tags == [] then "" else host.json(r.tags))
  {
    hide Decimal;
  }

  lemma NormalizedIsNamed(r: MemoryRecord, host: Host)
    ensures NormalizeMemory(r, host).Ok? ==> Named(NormalizeMemory(r, host).value, host)
  {
    hide Trim, Trimmed, Lower, OriginalTags;
  }

  function MemoryNodeID(id: string): string { "node:memory:" + id }
  function SessionNodeID(id: string): string { "node:session:" + id }
  function MissionNodeID(id: string): string { "node:mission:" + id }
  function PersonaNodeID(id: string): string { "node:persona:" + id }

  function RecordItem(r: MemoryRecord, opts: Options, host: Host): Mutation {
    BLANK.(kind := CreateRecord, idempotencyKey := ImportKey(Key(RecordSort, r.recordID)), at := TimeOf(r, host),
           record := Record(r.recordID, opts.namespace, opts.projectID, r.kind, r.summary, r.tags, opts.humanID,
                            r.sessionID, r.missionID, r.sourcePersona, MemoryAttributes(r, host), false, NO_STAMP))
  }

  function NodeItem(id: string, nodeType: string, name: string, summary: string, attributes: map<string, string>,
                    at: Time): Mutation
  {
    BLANK.(kind := CreateNode, idempotencyKey := ImportKey(Key(NodeSort, id)), at := at,
           node := Node(id, nodeType, name, summary, attributes, false, NO_STAMP))
  }

  function ChunkItem(r: MemoryRecord, opts: Options, host: Host, content: seq<Byte>): Mutation {
    var id := StableID(host, "chunk:source", [r.recordID]);
    BLANK.(kind := CreateChunk, idempotencyKey := ImportKey(Key(ChunkSort, id)), at := TimeOf(r, host),
           chunkContent := content,
           chunk := Chunk(id, opts.namespace, opts.projectID, r.sessionID, r.missionID, "source_excerpt", 1, "", 0,
                          Located(r), NO_STAMP))
  }

  function SpanItem(r: MemoryRecord, opts: Options, host: Host): Mutation {
    var id := StableID(host, "span:source", [r.recordID]);
    BLANK.(kind := CreateSourceSpan, idempotencyKey := ImportKey(Key(SpanSort, id)), at := TimeOf(r, host),
           sourceSpan := SourceSpan(id, opts.namespace, opts.projectID, r.sessionID, r.missionID, r.recordID,
                                    [ChunkRef(StableID(host, "chunk:source", [r.recordID]), 0, 0)], Located(r),
                                    NO_STAMP))
  }

  function EdgeItem(host: Host, edgeType: string, fromID: string, toID: string, seed: string, at: Time): Mutation {
    var id := StableID(host, "edge:" + edgeType, [fromID, toID]);
    BLANK.(kind := CreateEdge, idempotencyKey := ImportKey(Key(EdgeSort, id)), at := at,
           edge := Edge(id, edgeType, fromID, toID, map["import_seed" := seed], false, NO_STAMP))
  }

  function About(key: string, id: string, opts: Options): map<string, string> {
    map[key := id, "project_id" := opts.projectID, "human_id" := opts.humanID]
  }

  /** First pass over a record: the record and its node, and later the nodes of its session,
      mission and persona and its source excerpt. */
  function FirstPlan(r: MemoryRecord, opts: Options, host: Host): seq<Mutation> {
    HeadPlan(r, opts, host) + TailPlan(r, opts, host)
  }

  function MemoryNode(r: MemoryRecord, opts: Options, host: Host): Mutation {
    NodeItem(MemoryNodeID(r.recordID), "memory_record", "", r.summary,
             Compacted(MemoryAttributes(r, host) + About("record_id", r.recordID, opts)), TimeOf(r, host))
  }

  function HeadPlan(r: MemoryRecord, opts: Options, host: Host): seq<Mutation> {
    [RecordItem(r, opts, host)] + [MemoryNode(r, opts, host)]
  }

  function SessionItem(r: MemoryRecord, opts: Options, host: Host): Mutation {
    NodeItem(SessionNodeID(r.sessionID), "session", r.sessionID, "", Compacted(About("session_id", r.sessionID, opts)),
             TimeOf(r, host))
  }

  function MissionItem(r: MemoryRecord, opts: Options, host: Host): Mutation {
    NodeItem(MissionNodeID(r.missionID), "mission", r.missionID, "",
             Compacted(About("mission_id", r.missionID, opts)
                       + map["mission_phase" := r.missionPhase, "session_id" := r.sessionID]), TimeOf(r, host))
  }

  function PersonaItem(r: MemoryRecord, opts: Options, host: Host): Mutation {
    NodeItem(PersonaNodeID(r.sourcePersona), "persona", r.sourcePersona, "",
             Compacted(About("source_persona", r.sourcePersona, opts)), TimeOf(r, host))
  }

  function TailPlan(r: MemoryRecord, opts: Options, host: Host): seq<Mutation> {
    (if r.sessionID == "" then [] else [SessionItem(r, opts, host)])
    + (if r.missionID == "" then [] else [MissionItem(r, opts, host)])
    + (if r.sourcePersona == "" then [] else [PersonaItem(r, opts, host)])
    + (if Trim(r.sourceText) == "" then []
       else [ChunkItem(r, opts, host, host.utf8(r.sourceText)), SpanItem(r, opts, host)])
  }

  /** Second pass: the edges. A supersession edge needs its target to be there. */
  function EdgePlan(r: MemoryRecord, host: Host, known: set<string>): seq<Mutation> {
    var memory := MemoryNodeID(r.recordID);
    (if r.sessionID == "" then []
     else if r.missionID != "" then
       [EdgeItem(host, "contains", SessionNodeID(r.sessionID), MissionNodeID(r.missionID), r.recordID, TimeOf(r, host))]
     else [EdgeItem(host, "contains", SessionNodeID(r.sessionID), memory, r.recordID, TimeOf(r, host))])
    + (if r.missionID == "" then []
       else [EdgeItem(host, "contains", MissionNodeID(r.missionID), memory, r.recordID, TimeOf(r, host))])
    + (if r.sourcePersona == "" then []
       else [EdgeItem(host, "authored_by", PersonaNodeID(r.sourcePersona), memory, r.recordID, TimeOf(r, host))])
    + (if !Superseding(r, known) then []
       else [EdgeItem(host, "supersedes", memory, MemoryNodeID(r.supersedesRecordID), r.recordID, TimeOf(r, host))])
  }

  predicate Superseding(r: MemoryRecord, known: set<string>) {
    r.supersedesRecordID != "" && MemoryNodeID(r.supersedesRecordID) in known
  }

  lemma NodeItemIsItem(prefix: string, id: string, nodeType: string, name: string, summary: string,
                       attributes: map<string, string>, at: Time)
    requires id != "" && Trimmed(id) && prefix != "" && !IsSpace(prefix[0])
    ensures ImportItem(NodeItem(prefix + id, nodeType, name, summary, attributes, at))
    ensures !Target(NodeItem(prefix + id, nodeType, name, summary, attributes, at)).sort.RecordSort?
  {
    hide ImportKey;
    var x := prefix + id;
    assert x[0] == prefix[0] && x[|x| - 1] == id[|id| - 1];
  }

  lemma EdgeItemIsItem(host: Host, edgeType: string, fromID: string, toID: string, seed: string, at: Time)
    requires Prints(host)
    ensures ImportItem(EdgeItem(host, edgeType, fromID, toID, seed, at))
    ensures Target(EdgeItem(host, edgeType, fromID, toID, seed, at)).sort.EdgeSort?
  {
    hide ImportKey, Trimmed, Prints, StableID;
    StableIDTrimmed(host, "edge:" + edgeType, [fromID, toID]);
  }

  lemma SourceItemsAreItems(r: MemoryRecord, opts: Options, host: Host, content: seq<Byte>)
    requires Prints(host)
    ensures ImportItem(ChunkItem(r, opts, host, content)) && ImportItem(SpanItem(r, opts, host))
    ensures Target(ChunkItem(r, opts, host, content)).sort.ChunkSort?
    ensures Target(SpanItem(r, opts, host)).sort.SpanSort?
  {
    hide ImportKey, Trimmed, Prints, StableID;
    StableIDTrimmed(host, "chunk:source", [r.recordID]);
    StableIDTrimmed(host, "span:source", [r.recordID]);
  }

  lemma AllItemsPlus(a: seq<Mutation>, b: seq<Mutation>)
    requires AllItems(a) && AllItems(b)
    ensures AllItems(a + b)
  {
    hide ImportItem;
  }

  lemma {:induction false} RecordItemsPlus(a: seq<Mutation>, b: seq<Mutation>)
    ensures RecordItems(a + b) == RecordItems(a) + RecordItems(b)
  {
    hide Target;
    if b == [] {
      assert a + b == a;
    } else {
      var c := a + b;
      assert c[..|c| - 1] == a + b[..|b| - 1];
      RecordItemsPlus(a, b[..|b| - 1]);
    }
  }

  /** The last two may be missing; each part brings no record but the first. */
  ghost predicate Part(plan: seq<Mutation>, records: nat) {
    AllItems(plan) && RecordItems(plan) == records
  }

  lemma HeadPlanParts(r: MemoryRecord, opts: Options, host: Host)
    requires Named(r, host)
    ensures Part(HeadPlan(r, opts, host), 1)
  {
    hide ImportItem, Target, Part, RecordItem, NodeItem, Compacted, About, MemoryAttributes, Narrows;
    RecordItemIsItem(r, opts, host);
    PartOne(RecordItem(r, opts, host));
    var about := Compacted(MemoryAttributes(r, host) + About("record_id", r.recordID, opts));
    NodeItemIsItem("node:memory:", r.recordID, "memory_record", "", r.summary, about, TimeOf(r, host));
    PartOne(MemoryNode(r, opts, host));
    PartsAdd([RecordItem(r, opts, host)], 1, [MemoryNode(r, opts, host)], 0);
  }

  lemma TailPlanParts(r: MemoryRecord, opts: Options, host: Host)
    requires Named(r, host) && Prints(host)
    ensures Part(TailPlan(r, opts, host), 0)
  {
    hide ImportItem, Target, Part, NodeItem, ChunkItem, SpanItem, Trim, Compacted, About, Narrows, TimeOf;
    NothingPart();
    var plan, at := [], TimeOf(r, host);
    plan := NodePart(plan, "node:session:", r.sessionID, "session",
                     Compacted(About("session_id", r.sessionID, opts)), at);
    plan := NodePart(plan, "node:mission:", r.missionID, "mission",
                     Compacted(About("mission_id", r.missionID, opts)
                               + map["mission_phase" := r.missionPhase, "session_id" := r.sessionID]), at);
    plan := NodePart(plan, "node:persona:", r.sourcePersona, "persona",
                     Compacted(About("source_persona", r.sourcePersona, opts)), at);
    if Trim(r.sourceText) == "" {
      assert plan + [] == plan == TailPlan(r, opts, host);
    } else {
      var chunk, span := ChunkItem(r, opts, host, host.utf8(r.sourceText)), SpanItem(r, opts, host);
      SourceItemsAreItems(r, opts, host, host.utf8(r.sourceText));
      PartOne(chunk);
      PartOne(span);
      PartsAdd([chunk], 0, [span], 0);
      assert [chunk] + [span] == [chunk, span];
      PartsAdd(plan, 0, [chunk, span], 0);
      assert plan + [chunk, span] == TailPlan(r, opts, host);
    }
  }

  lemma NothingPart()
    ensures Part([], 0)
  {
  }

  lemma NodePart(before: seq<Mutation>, prefix: string, id: string, nodeType: string, about: map<string, string>,
                 at: Time)
      returns (plan: seq<Mutation>)
    requires Part(before, 0) && Trimmed(id) && prefix != "" && !IsSpace(prefix[0])
    ensures plan == before + if id == "" then [] else [NodeItem(prefix + id, nodeType, id, "", about, at)]
    ensures Part(plan, 0)
  {
    hide ImportItem, Target, Part, NodeItem, Trimmed;
    if id == "" {
      plan := before;
      assert before + [] == before;
    } else {
      var item := NodeItem(prefix + id, nodeType, id, "", about, at);
      NodeItemIsItem(prefix, id, nodeType, id, "", about, at);
      PartOne(item);
      PartsAdd(before, 0, [item], 0);
      plan := before + [item];
    }
  }

  lemma RecordItemIsItem(r: MemoryRecord, opts: Options, host: Host)
    requires Named(r, host)
    ensures ImportItem(RecordItem(r, opts, host)) && Target(RecordItem(r, opts, host)).sort.RecordSort?
  {
    hide ImportKey, Trimmed;
  }

  lemma EdgePlanParts(r: MemoryRecord, host: Host, known: set<string>)
    requires Prints(host)
    ensures AllItems(EdgePlan(r, host, known)) && NoNodes(EdgePlan(r, host, known))
    ensures RecordItems(EdgePlan(r, host, known)) == 0
  {
    hide ImportItem, Target, EdgeItem;
    var plan := EdgePlan(r, host, known);
    forall m | m in plan ensures ImportItem(m) && Target(m).sort.EdgeSort? {
      forall edgeType, fromID, toID
        ensures ImportItem(EdgeItem(host, edgeType, fromID, toID, r.recordID, TimeOf(r, host)))
        ensures Target(EdgeItem(host, edgeType, fromID, toID, r.recordID, TimeOf(r, host))).sort.EdgeSort?
      {
        EdgeItemIsItem(host, edgeType, fromID, toID, r.recordID, TimeOf(r, host));
      }
    }
    NoRecords(plan);
  }

  lemma {:induction false} NoRecords(plan: seq<Mutation>)
    requires forall m :: m in plan ==> Target(m).sort.EdgeSort?
    ensures RecordItems(plan) == 0
  {
    hide Target;
    if plan != [] { NoRecords(plan[..|plan| - 1]); }
  }

  lemma PartsAdd(a: seq<Mutation>, m: nat, b: seq<Mutation>, n: nat)
    requires Part(a, m) && Part(b, n)
    ensures Part(a + b, m + n)
  {
    hide AllItems, RecordItems;
    AllItemsPlus(a, b);
    RecordItemsPlus(a, b);
  }

  lemma PartOne(m: Mutation)
    requires ImportItem(m)
    ensures Part([m], if Target(m).sort.RecordSort? then 1 else 0) && Part([], 0)
  {
    hide ImportItem, Target;
    assert [m][..0] == [] && RecordItems([]) == 0;
  }

  // ---------------------------------------------------------------- embeddings

  function Component(host: Host, x: Double): Bits {
    if host.narrow(x).Some? then host.narrow(x).value else 0
  }

  /** `importEmbeddingVector`, for a store whose watermark is `n`. */
  function EmbeddingOp(r: MemoryRecord, opts: Options, host: Host, n: nat): VectorOperation {
    VectorOperation(
      Upsert, MemoryNodeID(r.recordID), "memory_record",
      Compacted(map[
        "namespace" := opts.namespace, "project_id" := opts.projectID, "human_id" := opts.humanID,
        "session_id" := r.sessionID, "mission_id" := r.missionID, "mission_phase" := r.missionPhase,
        "source_persona" := r.sourcePersona, "kind" := r.kind, "disposition" := r.disposition,
        "record_id" := r.recordID]),
      r.embeddingModel, r.embeddingDimensions,
      seq(|r.embedding|, i requires 0 <= i < |r.embedding| => Component(host, r.embedding[i])), n,
      Compacted(map[
        "record_id" := r.recordID, "kind" := r.kind, "source" := r.source, "session_id" := r.sessionID,
        "mission_id" := r.missionID, "mission_phase" := r.missionPhase, "source_persona" := r.sourcePersona,
        "project_id" := opts.projectID, "human_id" := opts.humanID, "disposition" := r.disposition,
        "file_path" := r.filePath, "embedding_model" := r.embeddingModel,
        "embedding_dimensions" := Decimal(r.embeddingDimensions)]))
  }

  function EntryFor(r: MemoryRecord, opts: Options, host: Host, n: nat): VectorEntry {
    EntryOf(CleanOperation(EmbeddingOp(r, opts, host, n), n))
  }

  /** What the importer has checked is all the index asks for, once the store has a watermark. */
  lemma EmbeddingAccepted(r: MemoryRecord, opts: Options, host: Host, n: nat, entries: Entries, indexedSeq: nat)
    requires Named(r, host) && r.embedding != []
    ensures VectorIndexes.Indexed(entries, indexedSeq, EmbeddingOp(r, opts, host, n)) ==
      if n == 0 then Err(Invalid("vector operation source sequence is required"))
      else Ok((entries[MemoryNodeID(r.recordID) := EntryFor(r, opts, host, n)], Max(indexedSeq, n)))
    ensures n > 0 ==>
      var e := EntryFor(r, opts, host, n);
      && e.nodeID == "node:memory:" + r.recordID && e.nodeType == "memory_record"
      && e.embeddingModel == r.embeddingModel
      && e.dimensions == |r.embedding| == |e.vector| && e.sourceSeq == n
      && (forall i :: 0 <= i < |r.embedding| ==> host.narrow(r.embedding[i]) == Some(e.vector[i]))
      && e.hierarchyScope == NormalizeMap(Compacted(map[
           "namespace" := opts.namespace, "project_id" := opts.projectID, "human_id" := opts.humanID,
           "session_id" := r.sessionID, "mission_id" := r.missionID, "mission_phase" := r.missionPhase,
           "source_persona" := r.sourcePersona, "kind" := r.kind, "disposition" := r.disposition,
           "record_id" := r.recordID]))
      && e.attributes == NormalizeMap(Compacted(map[
           "record_id" := r.recordID, "kind" := r.kind, "source" := r.source, "session_id" := r.sessionID,
           "mission_id" := r.missionID, "mission_phase" := r.missionPhase, "source_persona" := r.sourcePersona,
           "project_id" := opts.projectID, "human_id" := opts.humanID, "disposition" := r.disposition,
           "file_path" := r.filePath, "embedding_model" := r.embeddingModel,
           "embedding_dimensions" := Decimal(r.embeddingDimensions)]))
  {
    hide Trim, Trimmed, NormalizeMap, Compacted, Decimal, Component, Narrows;
    MemoryNodeIDTrimmed(r.recordID);
    TrimFixes(MemoryNodeID(r.recordID));
    TrimFixes(r.embeddingModel);
    TypeTrimmed();
    TrimFixes("memory_record");
    ComponentsAre(r, host);
  }

  lemma ComponentsAre(r: MemoryRecord, host: Host)
    requires Named(r, host) && r.embedding != []
    ensures forall i :: 0 <= i < |r.embedding| ==> host.narrow(r.embedding[i]) == Some(Component(host, r.embedding[i]))
  {
    hide Trimmed;
  }

  lemma MemoryNodeIDTrimmed(id: string)
    requires id != "" && Trimmed(id)
    ensures Trimmed(MemoryNodeID(id))
  {
    var x := MemoryNodeID(id);
    assert x[0] == 'n' && x[|x| - 1] == id[|id| - 1];
  }

  lemma TypeTrimmed()
    ensures Trimmed("memory_record")
  {
  }

  /** The last record of the batch that brings an embedding for the node. */
  function LastEmbedding(records: seq<MemoryRecord>, id: string): Option<MemoryRecord> {
    if records == [] then None
    else
      var r := records[|records| - 1];
      if r.embedding != [] && MemoryNodeID(r.recordID) == id then Some(r)
      else LastEmbedding(records[..|records| - 1], id)
  }

  function Embeddings(records: seq<MemoryRecord>): nat {
    if records == [] then 0
    else Embeddings(records[..|records| - 1]) + if records[|records| - 1].embedding != [] then 1 else 0
  }

  /** For a node with embeddings in the batch the index holds the last one, stamped with a
      watermark the store had during the import; any other node is as before. */
  ghost predicate ReflectsAt(before: Entries, after: Entries, records: seq<MemoryRecord>, opts: Options, host: Host,
                             low: nat, high: nat, id: string)
  {
    match LastEmbedding(records, id)
    case None => (id in after <==> id in before) && (id in before ==> after[id] == before[id])
    case Some(r) => id in after && exists n :: low <= n <= high && after[id] == EntryFor(r, opts, host, n)
  }

  ghost predicate Reflects(before: Entries, after: Entries, records: seq<MemoryRecord>, opts: Options, host: Host,
                           low: nat, high: nat)
  {
    forall id :: ReflectsAt(before, after, records, opts, host, low, high, id)
  }

  lemma NothingReflected(entries: Entries, opts: Options, host: Host, n: nat)
    ensures Reflects(entries, entries, [], opts, host, n, n)
  {
  }

  /** One more record, whose embedding, if any, was stamped `n`. */
  lemma ReflectsSnoc(before: Entries, after: Entries, records: seq<MemoryRecord>, r: MemoryRecord, opts: Options,
                     host: Host, low: nat, high: nat, n: nat, now: nat)
    requires Reflects(before, after, records, opts, host, low, high) && low <= high <= n <= now
    ensures var next := if r.embedding == [] then after
                        else after[MemoryNodeID(r.recordID) := EntryFor(r, opts, host, n)];
      Reflects(before, next, records + [r], opts, host, low, now)
  {
    hide EntryFor;
    var next := if r.embedding == [] then after else after[MemoryNodeID(r.recordID) := EntryFor(r, opts, host, n)];
    assert (records + [r])[..|records + [r]| - 1] == records;
    forall id ensures ReflectsAt(before, next, records + [r], opts, host, low, now, id) {
      assert ReflectsAt(before, after, records, opts, host, low, high, id);
      if r.embedding != [] && MemoryNodeID(r.recordID) == id {
        assert next[id] == EntryFor(r, opts, host, n);
      } else {
        assert LastEmbedding(records + [r], id) == LastEmbedding(records, id);
        assert id in next <==> id in after;
        assert id in after ==> next[id] == after[id];
      }
    }
  }

  // ---------------------------------------------------------------- what is written

  ghost predicate CleanOptions(o: Options) {
    Trimmed(o.namespace) && Trimmed(o.projectID) && Trimmed(o.humanID)
  }

  /** When an entity was created: at the time its memory record names, or now. */
  ghost predicate Dated(stamp: Stamp, r: MemoryRecord, host: Host, now: Time) {
    var named := if r.createdAt == "" then None else host.parseTime(r.createdAt);
    stamp.createdAt == if named.Some? && named.value != 0 then named.value else now
  }

  /** The record of a memory record. */
  ghost predicate RecordOf(x: Record, r: MemoryRecord, o: Options, host: Host) {
    x == Record(r.recordID, o.namespace, o.projectID, r.kind, r.summary, TagsOf(r.tags), o.humanID, r.sessionID,
                r.missionID, r.sourcePersona, NormalizeMap(MemoryAttributes(r, host)), false, x.stamp)
  }

  /** One of its nodes: the memory, its session, mission or persona. */
  ghost predicate NodeOf(x: Node, r: MemoryRecord, o: Options, host: Host) {
    || MemoryOf(x, r, o, host) || (r.sessionID != "" && SessionOf(x, r, o)) || (r.missionID != "" && MissionOf(x, r, o))
    || (r.sourcePersona != "" && PersonaOf(x, r, o))
  }

  ghost predicate MemoryOf(x: Node, r: MemoryRecord, o: Options, host: Host) {
    x == Node("node:memory:" + r.recordID, "memory_record", "", r.summary,
              NormalizeMap(Compacted(MemoryAttributes(r, host) + map[
                "record_id" := r.recordID, "project_id" := o.projectID, "human_id" := o.humanID])), false, x.stamp)
  }

  ghost predicate SessionOf(x: Node, r: MemoryRecord, o: Options) {
    x == Node("node:session:" + r.sessionID, "session", r.sessionID, "",
              NormalizeMap(Compacted(map[
                "session_id" := r.sessionID, "project_id" := o.projectID, "human_id" := o.humanID])), false, x.stamp)
  }

  ghost predicate MissionOf(x: Node, r: MemoryRecord, o: Options) {
    x == Node("node:mission:" + r.missionID, "mission", r.missionID, "",
              NormalizeMap(Compacted(map[
                "mission_id" := r.missionID, "project_id" := o.projectID, "human_id" := o.humanID]
                + map["mission_phase" := r.missionPhase, "session_id" := r.sessionID])), false, x.stamp)
  }

  ghost predicate PersonaOf(x: Node, r: MemoryRecord, o: Options) {
    x == Node("node:persona:" + r.sourcePersona, "persona", r.sourcePersona, "",
              NormalizeMap(Compacted(map[
                "source_persona" := r.sourcePersona, "project_id" := o.projectID, "human_id" := o.humanID])), false,
              x.stamp)
  }

  lemma DatedBy(r: MemoryRecord, host: Host, now: Time)
    ensures forall stamp: Stamp :: Dated(stamp, r, host, now) <==>
      stamp.createdAt == if TimeOf(r, host) == 0 then now else TimeOf(r, host)
  {
  }

  lemma PlaceIs(r: MemoryRecord)
    ensures Located(r) == Place(r)
  {
    hide Decimal;
  }

  /** Where the source text of a memory record stands. */
  ghost function Place(r: MemoryRecord): map<string, string> {
    map["record_id" := r.recordID, "file_path" := r.filePath,
        "start_line" := if r.startLine.None? then "" else Decimal(r.startLine.value),
        "end_line" := if r.endLine.None? then "" else Decimal(r.endLine.value)]
  }

  /** The chunk of its source text, and the span that cites it. */
  ghost predicate ChunkOf(x: Chunk, r: MemoryRecord, o: Options, host: Host, hash: Hash) {
    && !AllSpace(r.sourceText)
    && x == Chunk("chunk:source:" + host.digest([r.recordID]), o.namespace, o.projectID, r.sessionID, r.missionID,
                  "source_excerpt", 1, hash(host.utf8(r.sourceText)), |host.utf8(r.sourceText)|,
                  NormalizeMap(Place(r)), x.stamp)
  }

  ghost predicate SpanOf(x: SourceSpan, r: MemoryRecord, o: Options, host: Host) {
    && !AllSpace(r.sourceText)
    && x == SourceSpan("span:source:" + host.digest([r.recordID]), o.namespace, o.projectID, r.sessionID, r.missionID,
                       r.recordID, [ChunkRef("chunk:source:" + host.digest([r.recordID]), 0, 0)],
                       NormalizeMap(Place(r)), x.stamp)
  }

  ghost function LinkID(edgeType: string, fromID: string, toID: string, host: Host): string {
    "edge:" + edgeType + ":" + host.digest([fromID, toID])
  }

  ghost predicate Link(x: Edge, edgeType: string, fromID: string, toID: string, r: MemoryRecord, host: Host) {
    x == Edge(LinkID(edgeType, fromID, toID, host), edgeType, fromID, toID, map["import_seed" := r.recordID], false,
              x.stamp)
  }

  /** One of its edges: session contains mission or, without one, memory; mission contains memory;
      persona authored memory; memory supersedes another. */
  ghost predicate EdgeOf(x: Edge, r: MemoryRecord, host: Host) {
    var memory := "node:memory:" + r.recordID;
    || (r.sessionID != "" && r.missionID != ""
        && Link(x, "contains", "node:session:" + r.sessionID, "node:mission:" + r.missionID, r, host))
    || (r.sessionID != "" && r.missionID == "" && Link(x, "contains", "node:session:" + r.sessionID, memory, r, host))
    || (r.missionID != "" && Link(x, "contains", "node:mission:" + r.missionID, memory, r, host))
    || (r.sourcePersona != "" && Link(x, "authored_by", "node:persona:" + r.sourcePersona, memory, r, host))
    || (r.supersedesRecordID != "" && Link(x, "supersedes", memory, "node:memory:" + r.supersedesRecordID, r, host))
  }

  /** Everything a memory record asks for is in the catalog. A supersession whose target is not
      there asks for nothing. */
  ghost predicate Present(c: Catalog, r: MemoryRecord, host: Host) {
    var memory, session := "node:memory:" + r.recordID, "node:session:" + r.sessionID;
    var mission := "node:mission:" + r.missionID;
    var persona, target := "node:persona:" + r.sourcePersona, "node:memory:" + r.supersedesRecordID;
    && r.recordID in c.records && memory in c.nodes
    && (r.sessionID != "" ==> session in c.nodes)
    && (r.missionID != "" ==> mission in c.nodes && LinkID("contains", mission, memory, host) in c.edges)
    && (r.sourcePersona != "" ==> persona in c.nodes && LinkID("authored_by", persona, memory, host) in c.edges)
    && (r.sessionID != "" && r.missionID != "" ==> LinkID("contains", session, mission, host) in c.edges)
    && (r.sessionID != "" && r.missionID == "" ==> LinkID("contains", session, memory, host) in c.edges)
    && (r.supersedesRecordID != "" && target in c.nodes ==>
          LinkID("supersedes", memory, target, host) in c.edges)
    && (!AllSpace(r.sourceText) ==>
          && "chunk:source:" + host.digest([r.recordID]) in c.chunks
          && "span:source:" + host.digest([r.recordID]) in c.sourceSpans)
  }

  /** The entity under the key belongs to the memory record and says what it says. */
  ghost predicate Belongs(d: Catalog, k: Key, r: MemoryRecord, o: Options, host: Host, hash: Hash, now: Time) {
    && Holds(d, k)
    && match k.sort
       case RecordSort => RecordOf(d.records[k.id], r, o, host) && Dated(d.records[k.id].stamp, r, host, now)
       case NodeSort => NodeOf(d.nodes[k.id], r, o, host) && Dated(d.nodes[k.id].stamp, r, host, now)
       case EdgeSort => EdgeOf(d.edges[k.id], r, host) && Dated(d.edges[k.id].stamp, r, host, now)
       case ChunkSort => ChunkOf(d.chunks[k.id], r, o, host, hash) && Dated(d.chunks[k.id].stamp, r, host, now)
       case SpanSort => SpanOf(d.sourceSpans[k.id], r, o, host) && Dated(d.sourceSpans[k.id].stamp, r, host, now)
       case PurgeSort => false
  }

  /** What an import changes: nothing that was there, and whatever is new belongs to a memory
      record of the batch and says what that one says. */
  ghost predicate OnlyTheBatch(c: Catalog, d: Catalog, batch: seq<MemoryRecord>, o: Options, host: Host, hash: Hash,
                               now: Time)
  {
    && (forall k :: Holds(c, k) ==> SameAt(c, d, k))
    && (forall k :: Holds(d, k) && !Holds(c, k) ==> exists r :: r in batch && Belongs(d, k, r, o, host, hash, now))
  }

  ghost predicate FromRecord(m: Mutation, r: MemoryRecord, o: Options, host: Host) {
    m in FirstPlan(r, o, host) || exists known :: m in EdgePlan(r, host, known)
  }

  ghost predicate FromBatch(m: Mutation, batch: seq<MemoryRecord>, o: Options, host: Host) {
    exists r :: r in batch && FromRecord(m, r, o, host)
  }

  ghost function Items(batch: seq<MemoryRecord>, o: Options, host: Host): iset<Mutation> {
    iset m | FromBatch(m, batch, o, host)
  }

  lemma TrimmedWords()
    ensures Trimmed("contains") && Trimmed("authored_by") && Trimmed("supersedes") && Trimmed("memory_record")
    ensures Trimmed("session") && Trimmed("mission") && Trimmed("persona") && Trimmed("source_excerpt") && Trimmed("")
    ensures Trimmed("import_seed")
  {
  }

  lemma PrefixedTrimmed(prefix: string, id: string)
    requires prefix != "" && !IsSpace(prefix[0]) && id != "" && Trimmed(id)
    ensures Trimmed(prefix + id)
  {
    var x := prefix + id;
    assert x[0] == prefix[0] && x[|x| - 1] == id[|id| - 1];
  }

  lemma RecordMadeSays(d: Catalog, r: MemoryRecord, o: Options, host: Host, hash: Hash, now: Time)
    requires Named(r, host) && CleanOptions(o) && Made(d, RecordItem(r, o, host), hash, now)
    ensures r.recordID in d.records
    ensures RecordOf(d.records[r.recordID], r, o, host) && Dated(d.records[r.recordID].stamp, r, host, now)
  {
    hide Trim, Trimmed, NormalizeMap, TagsOf, MemoryAttributes, TimeOf, ImportItem, Narrows, Dated;
    DatedBy(r, host, now);
    TrimFixes(r.recordID); TrimFixes(r.kind); TrimFixes(r.summary); TrimFixes(r.sessionID); TrimFixes(r.missionID);
    TrimFixes(r.sourcePersona); TrimFixes(o.namespace); TrimFixes(o.projectID); TrimFixes(o.humanID);
  }

  lemma NodeMadeSays(d: Catalog, x: string, prefix: string, nodeType: string, name: string, summary: string,
                     about: map<string, string>, at: Time, hash: Hash, now: Time)
    requires Made(d, NodeItem(prefix + x, nodeType, name, summary, about, at), hash, now)
    requires x != "" && Trimmed(x) && Trimmed(name) && Trimmed(summary) && Trimmed(nodeType)
    requires prefix != "" && !IsSpace(prefix[0])
    ensures prefix + x in d.nodes
    ensures var n := d.nodes[prefix + x];
      && n == Node(prefix + x, nodeType, name, summary, NormalizeMap(about), false, n.stamp)
      && n.stamp.createdAt == if at == 0 then now else at
  {
    hide Trim, Trimmed, NormalizeMap, ImportItem;
    PrefixedTrimmed(prefix, x);
    TrimFixes(prefix + x); TrimFixes(name); TrimFixes(summary); TrimFixes(nodeType);
  }

  lemma ChunkMadeSays(d: Catalog, r: MemoryRecord, o: Options, host: Host, hash: Hash, now: Time)
    requires Named(r, host) && CleanOptions(o) && Prints(host) && Trim(r.sourceText) != ""
    requires Made(d, ChunkItem(r, o, host, host.utf8(r.sourceText)), hash, now)
    ensures var id := "chunk:source:" + host.digest([r.recordID]);
      id in d.chunks && ChunkOf(d.chunks[id], r, o, host, hash) && Dated(d.chunks[id].stamp, r, host, now)
  {
    hide Trim, Trimmed, AllSpace, NormalizeMap, TimeOf, ImportItem, Narrows, Located, Prints, Dated, Place;
    DatedBy(r, host, now);
    PlaceIs(r);
    TrimEmptiesBlanks(r.sourceText);
    ChunkIDIs(r, host);
    TrimmedWords();
    StableIDTrimmed(host, "chunk:source", [r.recordID]);
    TrimFixes(StableID(host, "chunk:source", [r.recordID])); TrimFixes(r.sessionID); TrimFixes(r.missionID);
    TrimFixes(o.namespace); TrimFixes(o.projectID); TrimFixes("source_excerpt"); TrimFixes("");
  }

  lemma ChunkIDIs(r: MemoryRecord, host: Host)
    ensures StableID(host, "chunk:source", [r.recordID]) == "chunk:source:" + host.digest([r.recordID])
    ensures StableID(host, "span:source", [r.recordID]) == "span:source:" + host.digest([r.recordID])
  {
    assert "chunk:source" + ":" == "chunk:source:" && "span:source" + ":" == "span:source:";
  }

  lemma OneRef(id: string, refs: seq<ChunkRef>)
    requires id != "" && Trimmed(id) && multiset(refs) == multiset(NormalizeRefs([ChunkRef(id, 0, 0)]))
    ensures refs == [ChunkRef(id, 0, 0)]
  {
    hide Trimmed;
    var one := [ChunkRef(id, 0, 0)];
    assert NormalizeRefs(one) == one;
    assert |refs| == |multiset(refs)| == 1;
    assert refs[0] in multiset(one);
  }

  lemma SpanMadeSays(d: Catalog, r: MemoryRecord, o: Options, host: Host, hash: Hash, now: Time)
    requires Named(r, host) && CleanOptions(o) && Prints(host) && Trim(r.sourceText) != ""
    requires Made(d, SpanItem(r, o, host), hash, now)
    ensures var id := "span:source:" + host.digest([r.recordID]);
      id in d.sourceSpans && SpanOf(d.sourceSpans[id], r, o, host) && Dated(d.sourceSpans[id].stamp, r, host, now)
  {
    hide Trim, Trimmed, AllSpace, NormalizeMap, NormalizeRefs, TimeOf, ImportItem, Narrows, Located, Prints, Dated,
      Place;
    DatedBy(r, host, now);
    PlaceIs(r);
    TrimEmptiesBlanks(r.sourceText);
    ChunkIDIs(r, host);
    StableIDTrimmed(host, "chunk:source", [r.recordID]);
    StableIDTrimmed(host, "span:source", [r.recordID]);
    var id := StableID(host, "span:source", [r.recordID]);
    TrimFixes(id); TrimFixes(r.sessionID); TrimFixes(r.missionID); TrimFixes(r.recordID);
    TrimFixes(o.namespace); TrimFixes(o.projectID);
    OneRef(StableID(host, "chunk:source", [r.recordID]), d.sourceSpans[id].chunkRefs);
  }

  lemma EdgeMadeSays(d: Catalog, edgeType: string, fromID: string, toID: string, r: MemoryRecord, host: Host,
                     hash: Hash, now: Time)
    requires Made(d, EdgeItem(host, edgeType, fromID, toID, r.recordID, TimeOf(r, host)), hash, now)
    requires Prints(host) && Named(r, host) && Trimmed(edgeType) && Trimmed(fromID) && Trimmed(toID)
    ensures var id := LinkID(edgeType, fromID, toID, host);
      id in d.edges && Link(d.edges[id], edgeType, fromID, toID, r, host) && Dated(d.edges[id].stamp, r, host, now)
  {
    hide Trim, Trimmed, NormalizeMap, TimeOf, ImportItem, Narrows, Prints, Dated;
    DatedBy(r, host, now);
    var id := StableID(host, "edge:" + edgeType, [fromID, toID]);
    StableIDTrimmed(host, "edge:" + edgeType, [fromID, toID]);
    TrimmedWords();
    SeedUnchanged(r.recordID);
    TrimFixes(id); TrimFixes(edgeType); TrimFixes(fromID); TrimFixes(toID);
  }

  lemma SeedUnchanged(seed: string)
    requires Trimmed(seed)
    ensures NormalizeMap(map["import_seed" := seed]) == map["import_seed" := seed]
  {
    TrimmedWords();
    hide Trimmed;
    CleanMapUnchanged(map["import_seed" := seed]);
  }

  /** A new entity that was made from an item of the first pass. */
  lemma FirstMadeSays(d: Catalog, m: Mutation, r: MemoryRecord, o: Options, host: Host, hash: Hash, now: Time)
    requires Named(r, host) && CleanOptions(o) && Prints(host) && m in FirstPlan(r, o, host) && Made(d, m, hash, now)
    ensures Belongs(d, Target(m), r, o, host, hash, now)
  {
    hide Trim, Trimmed, Made, Named, Prints, ChunkItem, SpanItem, MemoryNode, RecordItem, RecordOf, NodeOf, ChunkOf,
      SpanOf, CleanOptions, SessionItem, MissionItem, PersonaItem, Dated;
    ItemKinds(r, o, host);
    if m == RecordItem(r, o, host) {
      RecordMadeSays(d, r, o, host, hash, now);
      RecordTarget(r, o, host);
    } else if m == MemoryNode(r, o, host) {
      MemoryMadeSays(d, r, o, host, hash, now);
    } else if m == ChunkItem(r, o, host, host.utf8(r.sourceText)) {
      ChunkMadeSays(d, r, o, host, hash, now);
      ChunkTarget(r, o, host);
    } else if m == SpanItem(r, o, host) {
      SpanMadeSays(d, r, o, host, hash, now);
      ChunkTarget(r, o, host);
    } else {
      PlaceMadeSays(d, m, r, o, host, hash, now);
    }
  }

  lemma RecordTarget(r: MemoryRecord, o: Options, host: Host)
    ensures Target(RecordItem(r, o, host)) == Key(RecordSort, r.recordID)
  {
  }

  lemma NamedParts(r: MemoryRecord, host: Host)
    requires Named(r, host)
    ensures r.recordID != "" && Trimmed(r.recordID) && Trimmed(r.summary) && Trimmed(r.sessionID)
    ensures Trimmed(r.missionID)
    ensures Trimmed(r.sourcePersona) && Trimmed(r.supersedesRecordID)
  {
    hide Trimmed, Narrows;
  }

  lemma NodeTarget(id: string, nodeType: string, name: string, summary: string, about: map<string, string>, at: Time)
    ensures Target(NodeItem(id, nodeType, name, summary, about, at)) == Key(NodeSort, id)
  {
  }

  lemma MemoryMadeSays(d: Catalog, r: MemoryRecord, o: Options, host: Host, hash: Hash, now: Time)
    requires Named(r, host) && Made(d, MemoryNode(r, o, host), hash, now)
    ensures Belongs(d, Target(MemoryNode(r, o, host)), r, o, host, hash, now)
  {
    hide Trimmed, Made, Named, NodeItem, MemoryAttributes, Compacted, NormalizeMap, TimeOf, Dated;
    DatedBy(r, host, now);
    TrimmedWords();
    NamedParts(r, host);
    var about, at := Compacted(MemoryAttributes(r, host) + About("record_id", r.recordID, o)), TimeOf(r, host);
    NodeTarget(MemoryNodeID(r.recordID), "memory_record", "", r.summary, about, at);
    NodeMadeSays(d, r.recordID, "node:memory:", "memory_record", "", r.summary, about, at, hash, now);
    assert MemoryOf(d.nodes[MemoryNodeID(r.recordID)], r, o, host);
  }

  lemma ChunkTarget(r: MemoryRecord, o: Options, host: Host)
    ensures Target(ChunkItem(r, o, host, host.utf8(r.sourceText))) ==
      Key(ChunkSort, "chunk:source:" + host.digest([r.recordID]))
    ensures Target(SpanItem(r, o, host)) == Key(SpanSort, "span:source:" + host.digest([r.recordID]))
  {
    ChunkIDIs(r, host);
  }

  /** Session, mission and persona. */
  lemma PlaceMadeSays(d: Catalog, m: Mutation, r: MemoryRecord, o: Options, host: Host, hash: Hash, now: Time)
    requires Named(r, host) && m in TailPlan(r, o, host) && Made(d, m, hash, now) && m.kind == CreateNode
    ensures Belongs(d, Target(m), r, o, host, hash, now)
  {
    hide Trim, Made, Named, ChunkItem, SpanItem, Belongs, NodeItem, About;
    ItemKinds(r, o, host);
    if r.sessionID != "" && m == SessionItem(r, o, host) {
      SessionMadeSays(d, r, o, host, hash, now);
    } else if r.missionID != "" && m == MissionItem(r, o, host) {
      MissionMadeSays(d, r, o, host, hash, now);
    } else {
      PersonaMadeSays(d, r, o, host, hash, now);
    }
  }

  lemma SessionMadeSays(d: Catalog, r: MemoryRecord, o: Options, host: Host, hash: Hash, now: Time)
    requires Named(r, host) && r.sessionID != "" && Made(d, SessionItem(r, o, host), hash, now)
    ensures Belongs(d, Target(SessionItem(r, o, host)), r, o, host, hash, now)
  {
    hide Trimmed, Made, Named, NodeItem, Compacted, NormalizeMap, TimeOf, Dated;
    DatedBy(r, host, now);
    TrimmedWords();
    NamedParts(r, host);
    var about := Compacted(About("session_id", r.sessionID, o));
    NodeTarget(SessionNodeID(r.sessionID), "session", r.sessionID, "", about, TimeOf(r, host));
    NodeMadeSays(d, r.sessionID, "node:session:", "session", r.sessionID, "", about, TimeOf(r, host), hash, now);
    assert SessionOf(d.nodes[SessionNodeID(r.sessionID)], r, o);
  }

  lemma MissionMadeSays(d: Catalog, r: MemoryRecord, o: Options, host: Host, hash: Hash, now: Time)
    requires Named(r, host) && r.missionID != "" && Made(d, MissionItem(r, o, host), hash, now)
    ensures Belongs(d, Target(MissionItem(r, o, host)), r, o, host, hash, now)
  {
    hide Trimmed, Made, Named, NodeItem, Compacted, NormalizeMap, TimeOf, Dated;
    DatedBy(r, host, now);
    TrimmedWords();
    NamedParts(r, host);
    var about := Compacted(About("mission_id", r.missionID, o)
                           + map["mission_phase" := r.missionPhase, "session_id" := r.sessionID]);
    NodeTarget(MissionNodeID(r.missionID), "mission", r.missionID, "", about, TimeOf(r, host));
    NodeMadeSays(d, r.missionID, "node:mission:", "mission", r.missionID, "", about, TimeOf(r, host), hash, now);
    assert MissionOf(d.nodes[MissionNodeID(r.missionID)], r, o);
  }

  lemma PersonaMadeSays(d: Catalog, r: MemoryRecord, o: Options, host: Host, hash: Hash, now: Time)
    requires Named(r, host) && r.sourcePersona != "" && Made(d, PersonaItem(r, o, host), hash, now)
    ensures Belongs(d, Target(PersonaItem(r, o, host)), r, o, host, hash, now)
  {
    hide Trimmed, Made, Named, NodeItem, Compacted, NormalizeMap, TimeOf, Dated;
    DatedBy(r, host, now);
    TrimmedWords();
    NamedParts(r, host);
    var about := Compacted(About("source_persona", r.sourcePersona, o));
    NodeTarget(PersonaNodeID(r.sourcePersona), "persona", r.sourcePersona, "", about, TimeOf(r, host));
    NodeMadeSays(d, r.sourcePersona, "node:persona:", "persona", r.sourcePersona, "", about, TimeOf(r, host), hash,
                 now);
    assert PersonaOf(d.nodes[PersonaNodeID(r.sourcePersona)], r, o);
  }

  lemma ItemKinds(r: MemoryRecord, o: Options, host: Host)
    ensures ChunkItem(r, o, host, host.utf8(r.sourceText)).kind == CreateChunk
    ensures SpanItem(r, o, host).kind == CreateSourceSpan
    ensures RecordItem(r, o, host).kind == CreateRecord && MemoryNode(r, o, host).kind == CreateNode
    ensures SessionItem(r, o, host).kind == MissionItem(r, o, host).kind == PersonaItem(r, o, host).kind == CreateNode
  {
  }

  lemma EdgeTarget(host: Host, edgeType: string, fromID: string, toID: string, seed: string, at: Time)
    ensures Target(EdgeItem(host, edgeType, fromID, toID, seed, at)) ==
      Key(EdgeSort, LinkID(edgeType, fromID, toID, host))
  {
  }

  /** A new edge that was made from an item of the second pass. */
  lemma SecondMadeSays(d: Catalog, m: Mutation, r: MemoryRecord, known: set<string>, o: Options, host: Host, hash: Hash,
                       now: Time)
    requires Named(r, host) && Prints(host) && m in EdgePlan(r, host, known) && Made(d, m, hash, now)
    ensures Belongs(d, Target(m), r, o, host, hash, now)
  {
    hide Trimmed, Made, Named, Prints, EdgeItem, Link, Dated, TimeOf;
    NamedParts(r, host);
    TrimmedWords();
    var memory := MemoryNodeID(r.recordID);
    PrefixedTrimmed("node:memory:", r.recordID);
    if r.sessionID != "" { PrefixedTrimmed("node:session:", r.sessionID); }
    if r.missionID != "" { PrefixedTrimmed("node:mission:", r.missionID); }
    if r.sourcePersona != "" { PrefixedTrimmed("node:persona:", r.sourcePersona); }
    if r.supersedesRecordID != "" { PrefixedTrimmed("node:memory:", r.supersedesRecordID); }
    var edgeType, fromID, toID := LinkOf(r, host, known, m);
    EdgeTarget(host, edgeType, fromID, toID, r.recordID, TimeOf(r, host));
    EdgeMadeSays(d, edgeType, fromID, toID, r, host, hash, now);
  }

  lemma LinkOf(r: MemoryRecord, host: Host, known: set<string>, m: Mutation)
      returns (edgeType: string, fromID: string, toID: string)
    requires m in EdgePlan(r, host, known)
    ensures m == EdgeItem(host, edgeType, fromID, toID, r.recordID, TimeOf(r, host))
    ensures var memory := "node:memory:" + r.recordID;
      || (r.sessionID != "" && r.missionID != "" && edgeType == "contains"
          && fromID == "node:session:" + r.sessionID && toID == "node:mission:" + r.missionID)
      || (r.sessionID != "" && r.missionID == "" && edgeType == "contains"
          && fromID == "node:session:" + r.sessionID && toID == memory)
      || (r.missionID != "" && edgeType == "contains" && fromID == "node:mission:" + r.missionID && toID == memory)
      || (r.sourcePersona != "" && edgeType == "authored_by"
          && fromID == "node:persona:" + r.sourcePersona && toID == memory)
      || (r.supersedesRecordID != "" && edgeType == "supersedes" && fromID == memory
          && toID == "node:memory:" + r.supersedesRecordID)
  {
    hide EdgeItem, TimeOf;
    var memory, at := MemoryNodeID(r.recordID), TimeOf(r, host);
    if r.sessionID != "" && r.missionID != ""
      && m == EdgeItem(host, "contains", SessionNodeID(r.sessionID), MissionNodeID(r.missionID), r.recordID, at) {
      return "contains", SessionNodeID(r.sessionID), MissionNodeID(r.missionID);
    }
    if r.sessionID != "" && r.missionID == ""
      && m == EdgeItem(host, "contains", SessionNodeID(r.sessionID), memory, r.recordID, at) {
      return "contains", SessionNodeID(r.sessionID), memory;
    }
    if r.missionID != "" && m == EdgeItem(host, "contains", MissionNodeID(r.missionID), memory, r.recordID, at) {
      return "contains", MissionNodeID(r.missionID), memory;
    }
    if r.sourcePersona != ""
      && m == EdgeItem(host, "authored_by", PersonaNodeID(r.sourcePersona), memory, r.recordID, at) {
      return "authored_by", PersonaNodeID(r.sourcePersona), memory;
    }
    return "supersedes", memory, MemoryNodeID(r.supersedesRecordID);
  }

  /** Whatever grew from the items of a batch is the batch's. */
  lemma GrownIsTheBatch(c: Catalog, d: Catalog, batch: seq<MemoryRecord>, o: Options, host: Host, hash: Hash, now: Time)
    requires Grown(c, d, Items(batch, o, host), hash, now) && Prints(host) && CleanOptions(o)
    requires forall r :: r in batch ==> Named(r, host)
    ensures OnlyTheBatch(c, d, batch, o, host, hash, now)
  {
    hide Made, Named, Prints, CleanOptions, FirstPlan, EdgePlan, Belongs, Target, Holds, SameAt;
    forall k | Holds(d, k) && !Holds(c, k) ensures exists r :: r in batch && Belongs(d, k, r, o, host, hash, now) {
      assert MadeFrom(d, k, Items(batch, o, host), hash, now);
      var m :| m in Items(batch, o, host) && Target(m) == k && Made(d, m, hash, now);
      assert FromBatch(m, batch, o, host);
      var r :| r in batch && FromRecord(m, r, o, host);
      if m in FirstPlan(r, o, host) {
        FirstMadeSays(d, m, r, o, host, hash, now);
      } else {
        var known :| m in EdgePlan(r, host, known);
        SecondMadeSays(d, m, r, known, o, host, hash, now);
      }
      assert Belongs(d, k, r, o, host, hash, now);
    }
  }

  // ---------------------------------------------------------------- the import

  datatype ImportResult = ImportResult(created: Counts, skippedRecords: nat, vectors: nat, skippedSupersessions: nat)

  /** Everything the importer makes of one record is in the catalog. */
  ghost predicate Imported(c: Catalog, r: MemoryRecord, opts: Options, host: Host) {
    AllHeld(c, FirstPlan(r, opts, host)) && AllHeld(c, EdgePlan(r, host, c.nodes.Keys))
  }

  ghost predicate AllImported(c: Catalog, batch: seq<MemoryRecord>, opts: Options, host: Host) {
    forall r :: r in batch ==> Imported(c, r, opts, host)
  }

  lemma HeldAt(c: Catalog, plan: seq<Mutation>, m: Mutation)
    requires AllHeld(c, plan) && m in plan
    ensures Holds(c, Target(m))
  {
    hide Target, Holds;
  }

  lemma ImportedIsPresent(c: Catalog, r: MemoryRecord, o: Options, host: Host)
    requires Imported(c, r, o, host)
    ensures Present(c, r, host)
  {
    hide LinkID, AllHeld, RecordItem, SessionItem, MissionItem, PersonaItem, MemoryNode, NodeItem, ChunkItem,
      SpanItem, EdgeItem, Target, Trim, AllSpace, TimeOf, MemoryAttributes, Compacted, About;
    var first, second, at := FirstPlan(r, o, host), EdgePlan(r, host, c.nodes.Keys), TimeOf(r, host);
    var memory, session, mission := MemoryNodeID(r.recordID), SessionNodeID(r.sessionID), MissionNodeID(r.missionID);
    var persona, target := PersonaNodeID(r.sourcePersona), MemoryNodeID(r.supersedesRecordID);
    TrimEmptiesBlanks(r.sourceText);
    RecordTarget(r, o, host);
    PlaceTargets(r, o, host);
    ChunkTarget(r, o, host);
    HeldAt(c, first, RecordItem(r, o, host));
    HeldAt(c, first, MemoryNode(r, o, host));
    if r.sessionID != "" { HeldAt(c, first, SessionItem(r, o, host)); }
    if r.missionID != "" {
      HeldAt(c, first, MissionItem(r, o, host));
      LinkHeld(c, second, host, "contains", mission, memory, r.recordID, at);
    }
    if r.sourcePersona != "" {
      HeldAt(c, first, PersonaItem(r, o, host));
      LinkHeld(c, second, host, "authored_by", persona, memory, r.recordID, at);
    }
    if r.sessionID != "" && r.missionID != "" {
      LinkHeld(c, second, host, "contains", session, mission, r.recordID, at);
    }
    if r.sessionID != "" && r.missionID == "" {
      LinkHeld(c, second, host, "contains", session, memory, r.recordID, at);
    }
    if r.supersedesRecordID != "" && target in c.nodes {
      LinkHeld(c, second, host, "supersedes", memory, target, r.recordID, at);
    }
    if Trim(r.sourceText) != "" {
      HeldAt(c, first, ChunkItem(r, o, host, host.utf8(r.sourceText)));
      HeldAt(c, first, SpanItem(r, o, host));
    }
  }

  lemma PlaceTargets(r: MemoryRecord, o: Options, host: Host)
    ensures Target(MemoryNode(r, o, host)) == Key(NodeSort, "node:memory:" + r.recordID)
    ensures Target(SessionItem(r, o, host)) == Key(NodeSort, "node:session:" + r.sessionID)
    ensures Target(MissionItem(r, o, host)) == Key(NodeSort, "node:mission:" + r.missionID)
    ensures Target(PersonaItem(r, o, host)) == Key(NodeSort, "node:persona:" + r.sourcePersona)
  {
  }

  lemma LinkHeld(c: Catalog, plan: seq<Mutation>, host: Host, edgeType: string, fromID: string, toID: string,
                 seed: string, at: Time)
    requires AllHeld(c, plan) && EdgeItem(host, edgeType, fromID, toID, seed, at) in plan
    ensures LinkID(edgeType, fromID, toID, host) in c.edges
  {
    hide AllHeld, EdgeItem;
    HeldAt(c, plan, EdgeItem(host, edgeType, fromID, toID, seed, at));
    EdgeTarget(host, edgeType, fromID, toID, seed, at);
  }

  /** Every record must be well formed, and one with an embedding needs an index. */
  function NormalizeAll(records: seq<MemoryRecord>, host: Host, indexed: bool): Result<seq<MemoryRecord>> {
    if records == [] then Ok([])
    else
      match NormalizeAll(records[..|records| - 1], host, indexed)
      case Err(e) => Err(e)
      case Ok(before) =>
        match NormalizeMemory(records[|records| - 1], host)
        case Err(e) => Err(e)
        case Ok(r) =>
          if r.embedding != [] && !indexed then Err(Invalid("vector index is required for imported embeddings"))
          else Ok(before + [r])
  }

  method NormalizeRecords(records: seq<MemoryRecord>, host: Host, indexed: bool) returns (r: Result<seq<MemoryRecord>>)
    ensures r == NormalizeAll(records, host, indexed)
    ensures r.Ok? ==> |r.value| == |records| && forall i :: 0 <= i < |records| ==> Named(r.value[i], host)
    ensures r.Ok? && !indexed ==> forall i :: 0 <= i < |records| ==> r.value[i].embedding == []
    ensures r.Ok? <==> forall i :: 0 <= i < |records| ==>
      NormalizeMemory(records[i], host).Ok? && (indexed || records[i].embedding == [])
    ensures r.Ok? ==> forall i :: 0 <= i < |records| ==> NormalizeMemory(records[i], host) == Ok(r.value[i])
  {
    hide NormalizeMemory, Named;
    var out: seq<MemoryRecord> := [];
    for i := 0 to |records|
      invariant NormalizeAll(records[..i], host, indexed) == Ok(out) && |out| == i
      invariant forall j :: 0 <= j < i ==> Named(out[j], host) && (!indexed ==> out[j].embedding == [])
      invariant forall j :: 0 <= j < i ==>
        NormalizeMemory(records[j], host) == Ok(out[j]) && (indexed || records[j].embedding == [])
    {
      assert records[..i + 1][..i] == records[..i];
      var n := NormalizeMemory(records[i], host);
      NormalizedIsNamed(records[i], host);
      EmbeddingKept(records[i], host);
      if n.Err? {
        NormalizeStops(records, host, indexed, i + 1);
        return Err(n.error);
      }
      if n.value.embedding != [] && !indexed {
        NormalizeStops(records, host, indexed, i + 1);
        return Err(Invalid("vector index is required for imported embeddings"));
      }
      out := out + [n.value];
    }
    assert records[..|records|] == records;
    r := Ok(out);
  }

  lemma EmbeddingKept(r: MemoryRecord, host: Host)
    ensures NormalizeMemory(r, host).Ok? ==> NormalizeMemory(r, host).value.embedding == r.embedding
  {
    hide Trim, Lower, OriginalTags, Narrows;
  }

  lemma {:induction false} NormalizeStops(records: seq<MemoryRecord>, host: Host, indexed: bool, n: nat)
    requires n <= |records| && NormalizeAll(records[..n], host, indexed).Err?
    ensures NormalizeAll(records, host, indexed) == NormalizeAll(records[..n], host, indexed)
    decreases |records| - n
  {
    hide NormalizeMemory;
    if n == |records| {
      assert records[..n] == records;
    } else {
      assert records[..n + 1][..n] == records[..n];
      NormalizeStops(records, host, indexed, n + 1);
    }
  }

  ghost predicate FirstDone(c: Catalog, records: seq<MemoryRecord>, opts: Options, host: Host) {
    forall r :: r in records ==> AllHeld(c, FirstPlan(r, opts, host))
  }

  ghost predicate EdgesDone(c: Catalog, records: seq<MemoryRecord>, host: Host) {
    forall r :: r in records ==> AllHeld(c, EdgePlan(r, host, c.nodes.Keys))
  }

  lemma FirstDoneSnoc(c: Catalog, d: Catalog, records: seq<MemoryRecord>, r: MemoryRecord, opts: Options, host: Host)
    requires Keeps(c, d) && FirstDone(c, records, opts, host) && AllHeld(d, FirstPlan(r, opts, host))
    ensures FirstDone(d, records + [r], opts, host)
  {
    hide FirstPlan, Holds, Target;
  }

  lemma EdgesDoneSnoc(c: Catalog, d: Catalog, records: seq<MemoryRecord>, r: MemoryRecord, host: Host)
    requires Keeps(c, d) && d.nodes.Keys == c.nodes.Keys && EdgesDone(c, records, host)
    requires AllHeld(d, EdgePlan(r, host, c.nodes.Keys))
    ensures EdgesDone(d, records + [r], host)
  {
    hide EdgePlan, Holds, Target;
  }

  lemma FirstStays(c: Catalog, d: Catalog, records: seq<MemoryRecord>, opts: Options, host: Host)
    requires Keeps(c, d) && FirstDone(c, records, opts, host)
    ensures FirstDone(d, records, opts, host)
  {
    hide FirstPlan, Holds, Target;
  }

  lemma KeepsTransitive(c: Catalog, d: Catalog, e: Catalog)
    requires Keeps(c, d) && Keeps(d, e)
    ensures Keeps(c, e)
  {
    hide Holds;
  }

  lemma CountsAdd(a: Counts, b: Counts)
    ensures a.Plus(b).Total() == a.Total() + b.Total() && a.Plus(b).records == a.records + b.records
    ensures a.Plus(NOTHING) == a && NOTHING.Total() == 0
  {
  }

  /** The upsert of one embedding, stamped with the watermark of the store. */
  method ImportEmbedding(s: Store, index: VectorIndexes.ExactVectorIndex, r: MemoryRecord, opts: Options, host: Host)
      returns (failure: Option<Error>)
    requires index.Valid() && Named(r, host) && r.embedding != []
    modifies index
    ensures index.Valid() && (failure.None? <==> s.durableSeq > 0)
    ensures index.entries == if failure.Some? then old(index.entries)
                             else old(index.entries)[MemoryNodeID(r.recordID) := EntryFor(r, opts, host, s.durableSeq)]
  {
    hide EmbeddingOp, Named, VectorIndexes.Indexed;
    EmbeddingAccepted(r, opts, host, s.durableSeq, index.entries, index.indexedSeq);
    failure := index.ApplyVectorOperation(EmbeddingOp(r, opts, host, s.durableSeq));
  }

  /** First pass over one record. */
  method ImportEntity(s: Store, index: VectorIndexes.ExactVectorIndex?, record: MemoryRecord, opts: Options, host: Host,
                      now: Time) returns (r: Result<Counts>, ghost stamp: nat)
    requires s.Valid() && now > 0 && Reserved(s.Data()) && Prints(host) && Named(record, host)
    requires index == null ==> record.embedding == []
    requires index != null ==> index.Valid()
    modifies s, s.log, s.log.device, index
    ensures s.Valid() && (index != null ==> index.Valid())
    ensures r.Ok? ==> Reserved(s.Data()) && Keeps(old(s.Data()), s.Data())
    ensures r.Ok? ==> AllHeld(s.Data(), FirstPlan(record, opts, host))
    ensures r.Ok? ==> Grown(old(s.Data()), s.Data(), Those(FirstPlan(record, opts, host)), s.hash, now)
    ensures r.Ok? ==> Counted(old(s.Data()), s.Data(), r.value)
    ensures r.Ok? ==> s.durableSeq == old(s.durableSeq) + r.value.Total() && r.value.records <= 1
    ensures r.Ok? ==> old(s.durableSeq) <= stamp <= s.durableSeq
    ensures r.Ok? && index != null ==> index.entries == if record.embedding == [] then old(index.entries)
      else old(index.entries)[MemoryNodeID(record.recordID) := EntryFor(record, opts, host, stamp)]
    ensures AllHeld(old(s.Data()), FirstPlan(record, opts, host)) ==>
      && (r.Ok? <==> record.embedding == [] || old(s.durableSeq) > 0) && (r.Ok? ==> r.value == NOTHING)
      && s.Data() == old(s.Data()) && s.log.device.state == old(s.log.device.state)
  {
    hide Reserved, Keeps, AllHeld, Store.Valid, Store.Data, Counts.Total, Counts.Plus, HeadPlan, TailPlan, Named, Part,
      EntryFor, Grown, Counted;
    ghost var before := s.Data();
    var plan := HeadPlan(record, opts, host);
    HeadPlanParts(record, opts, host);
    PartMeans(plan, 1);
    PlanHeld(before, record, opts, host);
    var first := EnsureAll(s, plan, now);
    if first.Err? { return Err(first.error), 0; }
    stamp := s.durableSeq;
    ghost var half := s.Data();
    if record.embedding != [] {
      var failure := ImportEmbedding(s, index, record, opts, host);
      if failure.Some? { return Err(failure.value), 0; }
    }
    plan := TailPlan(record, opts, host);
    TailPlanParts(record, opts, host);
    PartMeans(plan, 0);
    var rest := EnsureAll(s, plan, now);
    if rest.Err? { return Err(rest.error), 0; }
    KeepsTransitive(before, half, s.Data());
    HeldStays(half, s.Data(), HeadPlan(record, opts, host));
    PlanHeld(s.Data(), record, opts, host);
    GrownTwice(before, half, s.Data(), Those(HeadPlan(record, opts, host)), Those(TailPlan(record, opts, host)),
               Those(FirstPlan(record, opts, host)), s.hash, now);
    CountedTwice(before, half, s.Data(), first.value, rest.value);
    CountsAdd(first.value, rest.value);
    r := Ok(first.value.Plus(rest.value));
  }

  lemma HeldStays(c: Catalog, d: Catalog, plan: seq<Mutation>)
    requires Keeps(c, d) && AllHeld(c, plan)
    ensures AllHeld(d, plan)
  {
    hide Holds, Target;
  }

  lemma PlanHeld(c: Catalog, r: MemoryRecord, opts: Options, host: Host)
    ensures AllHeld(c, FirstPlan(r, opts, host)) <==>
      AllHeld(c, HeadPlan(r, opts, host)) && AllHeld(c, TailPlan(r, opts, host))
  {
    hide HeadPlan, TailPlan, Holds, Target;
  }

  /** First pass: records, nodes, embeddings, excerpts. */
  method ImportEntities(s: Store, index: VectorIndexes.ExactVectorIndex?, records: seq<MemoryRecord>, opts: Options,
                        host: Host, now: Time) returns (r: Result<ImportResult>)
    requires s.Valid() && now > 0 && Reserved(s.Data()) && Prints(host)
    requires forall i :: 0 <= i < |records| ==> Named(records[i], host)
    requires index == null ==> forall i :: 0 <= i < |records| ==> records[i].embedding == []
    requires index != null ==> index.Valid()
    modifies s, s.log, s.log.device, index
    ensures s.Valid() && (index != null ==> index.Valid())
    ensures r.Ok? ==> Reserved(s.Data()) && Keeps(old(s.Data()), s.Data()) && FirstDone(s.Data(), records, opts, host)
    ensures r.Ok? ==> s.durableSeq == old(s.durableSeq) + r.value.created.Total()
    ensures r.Ok? ==> r.value.created.records + r.value.skippedRecords == |records| && r.value.skippedSupersessions == 0
    ensures r.Ok? ==> Grown(old(s.Data()), s.Data(), Items(records, opts, host), s.hash, now)
    ensures r.Ok? ==> Counted(old(s.Data()), s.Data(), r.value.created)
    ensures r.Ok? ==> r.value.vectors == Embeddings(records)
    ensures r.Ok? && index != null ==>
      Reflects(old(index.entries), index.entries, records, opts, host, old(s.durableSeq), s.durableSeq)
    ensures FirstDone(old(s.Data()), records, opts, host) && (old(s.durableSeq) > 0 || Embeddings(records) == 0) ==>
      r.Ok? && r.value.created == NOTHING && s.Data() == old(s.Data()) && s.log.device.state == old(s.log.device.state)
  {
    hide Reserved, Keeps, AllHeld, Store.Valid, Store.Data, Counts.Total, Counts.Plus, FirstPlan, Named, FirstDone,
      Reflects, Embeddings, EntryFor, Grown, Items, Counted;
    ghost var before := s.Data();
    var counts, skipped, vectors := NOTHING, 0, 0;
    CountsAdd(NOTHING, NOTHING);
    NothingPlanned(before);
    NothingImported(before, opts, host);
    NothingGrown(before, Items(records, opts, host), s.hash, now);
    CountedNothing(before);
    assert Embeddings(records[..0]) == 0 by { NoEmbeddings(records[..0]); }
    if index != null { NothingReflected(index.entries, opts, host, s.durableSeq); }
    for i := 0 to |records|
      invariant s.Valid() && Reserved(s.Data()) && Keeps(before, s.Data()) && (index != null ==> index.Valid())
      invariant FirstDone(s.Data(), records[..i], opts, host)
      invariant Grown(before, s.Data(), Items(records, opts, host), s.hash, now)
      invariant Counted(before, s.Data(), counts)
      invariant s.durableSeq == old(s.durableSeq) + counts.Total()
      invariant counts.records + skipped == i && vectors == Embeddings(records[..i])
      invariant index != null ==>
        Reflects(old(index.entries), index.entries, records[..i], opts, host, old(s.durableSeq), s.durableSeq)
      invariant FirstDone(before, records, opts, host) && (old(s.durableSeq) > 0 || Embeddings(records) == 0) ==>
        counts == NOTHING && s.Data() == before && s.log.device.state == old(s.log.device.state)
    {
      ghost var c, high := s.Data(), s.durableSeq;
      ghost var entries := if index != null then index.entries else map[];
      DoneAt(before, records, i, opts, host);
      EmbeddingAt(records, i);
      var made, stamp := ImportEntity(s, index, records[i], opts, host, now);
      if made.Err? { return Err(made.error); }
      KeepsTransitive(before, c, s.Data());
      FirstDoneSnoc(c, s.Data(), records[..i], records[i], opts, host);
      FirstItems(records, i, opts, host);
      GrownTwice(before, c, s.Data(), Items(records, opts, host), Those(FirstPlan(records[i], opts, host)),
                 Items(records, opts, host), s.hash, now);
      assert records[..i + 1] == records[..i] + [records[i]];
      if index != null {
        ReflectsSnoc(old(index.entries), entries, records[..i], records[i], opts, host, old(s.durableSeq), high, stamp,
                     s.durableSeq);
      }
      CountedTwice(before, c, s.Data(), counts, made.value);
      CountsAdd(counts, made.value);
      counts := counts.Plus(made.value);
      if made.value.records == 0 { skipped := skipped + 1; }
      if records[i].embedding != [] { vectors := vectors + 1; }
    }
    assert records[..|records|] == records;
    r := Ok(ImportResult(counts, skipped, vectors, 0));
  }

  lemma FirstItems(records: seq<MemoryRecord>, i: nat, opts: Options, host: Host)
    requires i < |records|
    ensures Those(FirstPlan(records[i], opts, host)) <= Items(records, opts, host)
  {
    hide FirstPlan, EdgePlan;
    forall m | m in FirstPlan(records[i], opts, host) ensures FromBatch(m, records, opts, host) {
      assert records[i] in records && FromRecord(m, records[i], opts, host);
    }
  }

  lemma SecondItems(records: seq<MemoryRecord>, i: nat, opts: Options, host: Host, known: set<string>)
    requires i < |records|
    ensures Those(EdgePlan(records[i], host, known)) <= Items(records, opts, host)
  {
    hide FirstPlan, EdgePlan;
    forall m | m in EdgePlan(records[i], host, known) ensures FromBatch(m, records, opts, host) {
      assert records[i] in records && FromRecord(m, records[i], opts, host);
    }
  }

  lemma NoEmbeddings(records: seq<MemoryRecord>)
    requires records == []
    ensures Embeddings(records) == 0
  {
  }

  lemma {:induction false} EmbeddingAt(records: seq<MemoryRecord>, i: nat)
    requires i < |records|
    ensures Embeddings(records[..i + 1]) == Embeddings(records[..i]) + (if records[i].embedding != [] then 1 else 0)
    ensures Embeddings(records) >= Embeddings(records[..i + 1])
    decreases |records| - i
  {
    assert records[..i + 1][..i] == records[..i];
    if i + 1 < |records| {
      EmbeddingAt(records, i + 1);
    } else {
      assert records[..i + 1] == records;
    }
  }

  lemma PartMeans(plan: seq<Mutation>, records: nat)
    requires Part(plan, records)
    ensures AllItems(plan) && RecordItems(plan) == records
  {
  }

  lemma NothingImported(c: Catalog, opts: Options, host: Host)
    ensures FirstDone(c, [], opts, host)
  {
  }

  lemma NoEdgesYet(c: Catalog, host: Host)
    ensures EdgesDone(c, [], host)
  {
  }

  lemma DoneAt(c: Catalog, records: seq<MemoryRecord>, i: nat, opts: Options, host: Host)
    requires i < |records|
    ensures FirstDone(c, records, opts, host) ==> AllHeld(c, FirstPlan(records[i], opts, host))
  {
    hide FirstPlan, AllHeld;
  }

  /** The records whose supersession edge has no target. */
  function Unmet(records: seq<MemoryRecord>, known: set<string>): nat {
    if records == [] then 0
    else
      var r := records[|records| - 1];
      Unmet(records[..|records| - 1], known) + if r.supersedesRecordID != "" && !Superseding(r, known) then 1 else 0
  }

  /** Second pass: edges. */
  method ImportEdges(s: Store, records: seq<MemoryRecord>, opts: Options, host: Host, now: Time)
      returns (r: Result<ImportResult>)
    requires s.Valid() && now > 0 && Reserved(s.Data()) && Prints(host)
    modifies s, s.log, s.log.device
    ensures s.Valid()
    ensures r.Ok? ==> Reserved(s.Data()) && Keeps(old(s.Data()), s.Data()) && EdgesDone(s.Data(), records, host)
    ensures r.Ok? ==> s.durableSeq == old(s.durableSeq) + r.value.created.Total()
    ensures r.Ok? ==> r.value.created.records == 0 && r.value.skippedRecords == 0 && r.value.vectors == 0
    ensures r.Ok? ==> Grown(old(s.Data()), s.Data(), Items(records, opts, host), s.hash, now)
    ensures r.Ok? ==> Counted(old(s.Data()), s.Data(), r.value.created)
    ensures r.Ok? ==> s.nodes.Keys == old(s.nodes.Keys) && r.value.skippedSupersessions == Unmet(records, s.nodes.Keys)
    ensures EdgesDone(old(s.Data()), records, host) ==>
      r.Ok? && r.value.created == NOTHING && s.Data() == old(s.Data()) && s.log.device.state == old(s.log.device.state)
  {
    hide Reserved, Keeps, AllHeld, Store.Valid, Counts.Total, Counts.Plus, EdgePlan, EdgesDone, FirstDone, Grown,
      Items, Counted, Unmet, Unanswered, Superseding;
    ghost var before := s.Data();
    var counts, skipped := NOTHING, 0;
    CountsAdd(NOTHING, NOTHING);
    NothingPlanned(before);
    NoEdgesYet(before, host);
    NoneUnmet(before.nodes.Keys);
    NothingGrown(before, Items(records, opts, host), s.hash, now);
    CountedNothing(before);
    for i := 0 to |records|
      invariant s.Valid() && Reserved(s.Data()) && Keeps(before, s.Data()) && s.Data().nodes.Keys == before.nodes.Keys
      invariant EdgesDone(s.Data(), records[..i], host)
      invariant Grown(before, s.Data(), Items(records, opts, host), s.hash, now)
      invariant Counted(before, s.Data(), counts)
      invariant s.durableSeq == old(s.durableSeq) + counts.Total() && counts.records == 0
      invariant skipped == Unmet(records[..i], before.nodes.Keys)
      invariant EdgesDone(before, records, host) ==>
        counts == NOTHING && s.Data() == before && s.log.device.state == old(s.log.device.state)
    {
      ghost var c := s.Data();
      var plan := EdgePlan(records[i], host, s.nodes.Keys);
      EdgePlanParts(records[i], host, s.nodes.Keys);
      EdgesDoneAt(before, records, i, host);
      var made := EnsureAll(s, plan, now);
      if made.Err? { return Err(made.error); }
      KeepsTransitive(before, c, s.Data());
      EdgesDoneSnoc(c, s.Data(), records[..i], records[i], host);
      SecondItems(records, i, opts, host, c.nodes.Keys);
      GrownTwice(before, c, s.Data(), Items(records, opts, host), Those(plan), Items(records, opts, host), s.hash, now);
      assert records[..i + 1] == records[..i] + [records[i]] && records[..i + 1][..i] == records[..i];
      CountedTwice(before, c, s.Data(), counts, made.value);
      CountsAdd(counts, made.value);
      counts := counts.Plus(made.value);
      UnmetSnoc(records, i, before.nodes.Keys);
      if records[i].supersedesRecordID != "" && !Superseding(records[i], s.nodes.Keys) { skipped := skipped + 1; }
    }
    assert records[..|records|] == records;
    r := Ok(ImportResult(counts, 0, 0, skipped));
  }

  lemma EdgesDoneAt(c: Catalog, records: seq<MemoryRecord>, i: nat, host: Host)
    requires i < |records|
    ensures EdgesDone(c, records, host) ==> AllHeld(c, EdgePlan(records[i], host, c.nodes.Keys))
  {
    hide EdgePlan, AllHeld;
  }

  /** For a successful import, what was appended is what was counted, every input is imported or
      skipped, everything asked for is there, and the index holds the embeddings. Importing the
      same batch again succeeds and appends nothing; only an embedding cannot be stamped before the
      store has a watermark, which nothing written to it leaves at zero. */
  method ImportMemoryRecords(s: Store, index: VectorIndexes.ExactVectorIndex?, records: seq<MemoryRecord>,
                             opts: Options, host: Host, now: Time) returns (r: Result<ImportResult>)
    requires s.Valid() && now > 0 && Reserved(s.Data()) && Prints(host)
    requires index != null ==> index.Valid()
    modifies s, s.log, s.log.device, index
    ensures s.Valid() && (index != null ==> index.Valid())
    ensures r.Ok? ==> NormalizeAll(records, host, index != null).Ok? && Reserved(s.Data())
    ensures r.Ok? ==>
      var batch := NormalizeAll(records, host, index != null).value;
      |batch| == |records| && forall i :: 0 <= i < |records| ==> NormalizeMemory(records[i], host) == Ok(batch[i])
    ensures r.Ok? ==> s.durableSeq == old(s.durableSeq) + r.value.created.Total()
    ensures r.Ok? ==> Counted(old(s.Data()), s.Data(), r.value.created)
    ensures r.Ok? ==> r.value.created.records + r.value.skippedRecords == |records|
    ensures r.Ok? ==>
      var batch, o := NormalizeAll(records, host, index != null).value, NormalizeOptions(opts);
      && AllImported(s.Data(), batch, o, host)
      && OnlyTheBatch(old(s.Data()), s.Data(), batch, o, host, s.hash, now)
      && (forall x :: x in batch ==> Present(s.Data(), x, host))
      && r.value.vectors == |set i | 0 <= i < |batch| && batch[i].embedding != []|
      && r.value.skippedSupersessions == |UnansweredIn(batch, s.nodes.Keys)|
      && (index != null ==>
            Reflects(old(index.entries), index.entries, batch, o, host, old(s.durableSeq), s.durableSeq))
    ensures NormalizeAll(records, host, index != null).Ok? ==>
      var batch := NormalizeAll(records, host, index != null).value;
      AllImported(old(s.Data()), batch, NormalizeOptions(opts), host)
      && (old(s.durableSeq) > 0 || Embeddings(batch) == 0) ==>
        && r.Ok? && r.value.created == NOTHING
        && s.Data() == old(s.Data()) && s.log.device.state == old(s.log.device.state)
  {
    hide NormalizeMemory, Reserved, Keeps, AllHeld, Store.Valid, Counts.Total, Counts.Plus, EdgePlan, FirstPlan,
      Named, NormalizeAll, NormalizeOptions, Reflects, Embeddings, Unmet, Superseding, Grown, Items, OnlyTheBatch,
      Present, AllImported, FirstDone, EdgesDone, Counted, UnansweredIn;
    ghost var before := s.Data();
    var o := NormalizeOptions(opts);
    var batch := NormalizeRecords(records, host, index != null);
    if batch.Err? { return Err(batch.error); }
    ghost var again := AllImported(before, batch.value, o, host);
    if again { ImportedIsDone(before, batch.value, o, host); }
    var first := ImportEntities(s, index, batch.value, o, host, now);
    if first.Err? { return Err(first.error); }
    ghost var half := s.Data();
    ghost var n := s.durableSeq;
    var second := ImportEdges(s, batch.value, o, host, now);
    if second.Err? { return Err(second.error); }
    FirstStays(half, s.Data(), batch.value, o, host);
    ghost var items := Items(batch.value, o, host);
    GrownTwice(before, half, s.Data(), items, items, items, s.hash, now);
    OptionsAreClean(opts);
    GrownIsTheBatch(before, s.Data(), batch.value, o, host, s.hash, now);
    BatchIsPresent(s.Data(), batch.value, o, host);
    if index != null {
      ReflectsLater(old(index.entries), index.entries, batch.value, o, host, old(s.durableSeq), n, s.durableSeq);
    }
    CountedTwice(before, half, s.Data(), first.value.created, second.value.created);
    EmbeddingsCount(batch.value);
    UnmetCount(batch.value, s.nodes.Keys);
    CountsAdd(first.value.created, second.value.created);
    r := Ok(ImportResult(first.value.created.Plus(second.value.created), first.value.skippedRecords,
                         first.value.vectors, second.value.skippedSupersessions));
  }

  lemma {:induction false} EmbeddingsCount(batch: seq<MemoryRecord>)
    ensures Embeddings(batch) == |set i | 0 <= i < |batch| && batch[i].embedding != []|
  {
    if batch != [] {
      var n := |batch| - 1;
      EmbeddingsCount(batch[..n]);
      var before := set i | 0 <= i < n && batch[..n][i].embedding != [];
      var all := set i | 0 <= i < |batch| && batch[i].embedding != [];
      assert all == before + if batch[n].embedding != [] then {n} else {};
    }
  }

  /** The record supersedes one whose node is not there. */
  ghost predicate Unanswered(r: MemoryRecord, known: set<string>) {
    r.supersedesRecordID != "" && "node:memory:" + r.supersedesRecordID !in known
  }

  ghost function UnansweredIn(batch: seq<MemoryRecord>, known: set<string>): set<int> {
    set i | 0 <= i < |batch| && Unanswered(batch[i], known)
  }

  lemma UnansweredSnoc(batch: seq<MemoryRecord>, known: set<string>)
    requires batch != []
    ensures var n := |batch| - 1;
      && UnansweredIn(batch, known) ==
           UnansweredIn(batch[..n], known) + (if Unanswered(batch[n], known) then {n} else {})
      && n !in UnansweredIn(batch[..n], known)
  {
    hide Unanswered;
  }

  lemma {:induction false} UnmetCount(batch: seq<MemoryRecord>, known: set<string>)
    ensures Unmet(batch, known) == |UnansweredIn(batch, known)|
  {
    hide Unmet, Unanswered, Superseding;
    NoneUnmet(known);
    if batch != [] {
      hide UnansweredIn;
      var n := |batch| - 1;
      UnmetCount(batch[..n], known);
      UnmetSnoc(batch, n, known);
      UnansweredSnoc(batch, known);
      assert batch[..n + 1] == batch;
    }
  }

  lemma NoneUnmet(known: set<string>)
    ensures forall batch: seq<MemoryRecord> :: batch == [] ==> Unmet(batch, known) == 0
  {
  }

  lemma UnmetSnoc(batch: seq<MemoryRecord>, i: nat, known: set<string>)
    requires i < |batch|
    ensures Unmet(batch[..i + 1], known) == Unmet(batch[..i], known) + if Unanswered(batch[i], known) then 1 else 0
    ensures Unanswered(batch[i], known) <==> batch[i].supersedesRecordID != "" && !Superseding(batch[i], known)
  {
    assert batch[..i + 1][..i] == batch[..i];
  }

  lemma OptionsAreClean(opts: Options)
    ensures CleanOptions(NormalizeOptions(opts))
    ensures NormalizeOptions(opts) == Options(if AllSpace(opts.namespace) then "sugarfang" else Trim(opts.namespace),
                                              Trim(opts.projectID), Trim(opts.humanID))
  {
    hide Trim, AllSpace;
    TrimEmptiesBlanks(opts.namespace);
    assert !IsSpace('s') && !IsSpace('g');
  }

  lemma ImportedIsDone(c: Catalog, batch: seq<MemoryRecord>, o: Options, host: Host)
    requires AllImported(c, batch, o, host)
    ensures FirstDone(c, batch, o, host) && EdgesDone(c, batch, host)
  {
    hide AllHeld, FirstPlan, EdgePlan;
    forall r | r in batch ensures AllHeld(c, FirstPlan(r, o, host)) && AllHeld(c, EdgePlan(r, host, c.nodes.Keys)) {
      assert Imported(c, r, o, host);
    }
  }

  lemma BatchIsPresent(c: Catalog, batch: seq<MemoryRecord>, o: Options, host: Host)
    requires FirstDone(c, batch, o, host) && EdgesDone(c, batch, host)
    ensures AllImported(c, batch, o, host)
    ensures forall r :: r in batch ==> Present(c, r, host)
  {
    hide AllHeld, FirstPlan, EdgePlan, Present;
    forall r | r in batch ensures Imported(c, r, o, host) && Present(c, r, host) { ImportedIsPresent(c, r, o, host); }
  }

  lemma ReflectsLater(before: Entries, after: Entries, records: seq<MemoryRecord>, opts: Options, host: Host, low: nat,
                      high: nat, later: nat)
    requires Reflects(before, after, records, opts, host, low, high) && high <= later
    ensures Reflects(before, after, records, opts, host, low, later)
  {
    hide EntryFor;
    forall id ensures ReflectsAt(before, after, records, opts, host, low, later, id) {
      assert ReflectsAt(before, after, records, opts, host, low, high, id);
    }
  }
}
