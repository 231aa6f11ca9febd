/** The entities, mutations and results of the store.

    The five bookkeeping fields every Go entity repeats (`Revision`, `CreatedAt`,
    `UpdatedAt`, `CreatedSeq`, `UpdatedSeq`) are grouped in one `Stamp`. */
module Types {

  type Byte = b: int | 0 <= b < 256

  type Bytes = seq<Byte>

  /** Nanoseconds; 0 is Go's zero time, which the clock never returns. */
  type Time = nat

  datatype Option<+T> = None | Some(value: T)

  datatype Result<+T> = Ok(value: T) | Err(error: Error)

  datatype Error =
    | Invalid(reason: string)
    | Conflict
    | NotFound
    | Corrupt
    | Unsupported
    | Closed
    | Behind(upTo: nat)
    | Refused

  datatype Stamp = Stamp(revision: nat, createdAt: Time, updatedAt: Time, createdSeq: nat, updatedSeq: nat)

  datatype Record = Record(
    id: string, namespace: string, projectID: string, kind: string, summary: string,
    tags: seq<string>, humanID: string, sessionID: string, missionID: string, persona: string,
    attributes: map<string, string>, deleted: bool, stamp: Stamp)

  datatype Chunk = Chunk(
    id: string, namespace: string, projectID: string, sessionID: string, missionID: string,
    kind: string, sequence: nat, contentHash: string, contentLength: int,
    attributes: map<string, string>, stamp: Stamp)

  datatype ChunkRef = ChunkRef(chunkID: string, startOffset: int, endOffset: int)

  datatype SourceSpan = SourceSpan(
    id: string, namespace: string, projectID: string, sessionID: string, missionID: string,
    recordID: string, chunkRefs: seq<ChunkRef>, attributes: map<string, string>, stamp: Stamp)

  datatype Node = Node(
    id: string, nodeType: string, name: string, summary: string,
    attributes: map<string, string>, deleted: bool, stamp: Stamp)

  datatype Edge = Edge(
    id: string, edgeType: string, fromNodeID: string, toNodeID: string,
    attributes: map<string, string>, deleted: bool, stamp: Stamp)

  datatype PurgeRequest = PurgeRequest(
    id: string, action: string, targetType: string, targetID: string, reason: string,
    attributes: map<string, string>, stamp: Stamp)

  datatype MutationType =
    | CreateRecord | UpdateRecord | DeleteRecord
    | CreateChunk | CreateSourceSpan
    | CreateNode | UpdateNode | DeleteNode
    | CreateEdge | DeleteEdge
    | CreatePurgeRequest
    | Unknown

  const NO_STAMP := Stamp(0, 0, 0, 0, 0)

  datatype Actor = Actor(actorID: string, humanID: string, sessionID: string, missionID: string, persona: string)

  datatype Mutation = Mutation(
    kind: MutationType, idempotencyKey: string, expectedRevision: nat, actor: Actor, at: Time,
    record: Record, chunk: Chunk, chunkContent: seq<Byte>, sourceSpan: SourceSpan,
    node: Node, edge: Edge, purgeRequest: PurgeRequest, metadata: map<string, string>)

  /** The zero mutation, from which others are made field by field. */
  const BLANK := Mutation(
    Unknown, "", 0, Actor("", "", "", "", ""), 0,
    Record("", "", "", "", "", [], "", "", "", "", map[], false, NO_STAMP),
    Chunk("", "", "", "", "", "", 0, "", 0, map[], NO_STAMP), [],
    SourceSpan("", "", "", "", "", "", [], map[], NO_STAMP),
    Node("", "", "", "", map[], false, NO_STAMP),
    Edge("", "", "", "", map[], false, NO_STAMP),
    PurgeRequest("", "", "", "", "", map[], NO_STAMP), map[])

  /** The one entity slot of a Go `ApplyResult` that is filled. */
  datatype Entity =
    | RecordEntity(record: Record)
    | ChunkEntity(chunk: Chunk)
    | SpanEntity(span: SourceSpan)
    | NodeEntity(node: Node)
    | EdgeEntity(edge: Edge)
    | PurgeEntity(purge: PurgeRequest)

  datatype ApplyResult = ApplyResult(seqNo: nat, entity: Entity, idempotent: bool)

  /** The materialized catalog: what a snapshot stores and what replay rebuilds. */
  datatype Catalog = Catalog(
    durableSeq: nat,
    records: map<string, Record>,
    chunks: map<string, Chunk>,
    sourceSpans: map<string, SourceSpan>,
    nodes: map<string, Node>,
    edges: map<string, Edge>,
    purgeRequests: map<string, PurgeRequest>,
    idempotency: map<string, ApplyResult>)

  const EMPTY_CATALOG := Catalog(0, map[], map[], map[], map[], map[], map[], map[])

  datatype Event = Event(seqNo: nat, mutation: Mutation, at: Time)

  /** `ChunkContent` is never part of the JSON payload, nor of a projection event. */
  function WithoutContent(m: Mutation): Mutation {
    m.(chunkContent := [])
  }

  function EventOf(seqNo: nat, m: Mutation): Event {
    Event(seqNo, WithoutContent(m), m.at)
  }
}
