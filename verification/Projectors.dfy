/** A projector worker's turn, the status it leaves, and searches that report how fresh they are. */
module Projectors {
  import opened Text
  import opened Types
  import opened Disks
  import opened Vectors
  import opened VectorFiles
  import opened VectorIndexes
  import opened Queries
  import opened Graphs
  import opened Operations
  import opened Stores
  import opened Guarantees
  import Indexes
  import Integrity

  /** What `Project` may refuse although the mapped operation is well formed. */
  ghost predicate Oversized(codec: Codec, mapper: Mapper, event: Event) {
    && mapper(event).Ok? && mapper(event).value.Some?
    && NormalizeOperation(mapper(event).value.value, event.seqNo).Ok?
    && TooLarge(codec, NormalizeOperation(mapper(event).value.value, event.seqNo).value)
  }

  /** `vectorProjector.Project` onto an index on files: the entries become what the model of the
      state machine says, or the event is refused and nothing changes. */
  method ProjectEvent(mapper: Mapper, index: FileVectorIndex, event: Event) returns (failure: Option<Error>)
    requires index.Valid()
    modifies index
    ensures index.Valid()
    ensures failure.None? ==> Vectors.Project(mapper, old(index.entries), event) == Ok(index.entries)
    ensures failure.Some? ==> index.entries == old(index.entries) && index.indexedSeq == old(index.indexedSeq)
    ensures failure.Some? <==>
      Vectors.Project(mapper, old(index.entries), event).Err? || Oversized(index.codec, mapper, event)
  {
    hide NormalizeOperation, Backed, Effect, TooLarge;
    var mapped := mapper(event);
    match mapped {
      case Err(e) => return Some(e);
      case Ok(None) => return None;
      case Ok(Some(op)) =>
        var normalized := NormalizeOperation(op, event.seqNo);
        if normalized.Err? { return Some(normalized.error); }
        NormalizeOperationFixes(op, event.seqNo, normalized.value.sourceSeq);
        failure := index.ApplyVectorOperation(normalized.value);
    }
  }

  /** One turn of a worker: fetch, project, advance, and note the error or that there is none.
      Without an event nothing changes; when the projection fails, the checkpoint stays where it
      is and the next turn fetches the same event again. */
  method RunOnce(s: Store, name: string, mapper: Mapper, index: FileVectorIndex) returns (failure: Option<Error>)
    requires s.Valid() && index.Valid() && name in s.projectors
    modifies index, s`projectorCheckpoints, s`projectors, s.log.device
    ensures s.Valid() && index.Valid()
    ensures match if s.closed then None else old(TurnOn(mapper, s.log.device.state, s.Viewed(), name, index.entries,
                                                        e => Oversized(index.codec, mapper, e)))
      case None =>
        && failure.None? && index.entries == old(index.entries) && s.projectors == old(s.projectors)
        && s.Viewed() == old(s.Viewed()) && s.log.device.trace == old(s.log.device.trace)
      case Some(turn) =>
        && failure.Some? == turn.done.result.Err? && s.projectors == old(s.projectors)[name := failure]
        && index.entries == turn.entries && s.Viewed() == turn.done.view
        && s.log.device.state == LastOf(old(s.log.device.state), turn.done.steps)
        && s.log.device.trace == old(s.log.device.trace) + turn.done.steps
  {
    hide Indexes.Indexed, Integrity.Sound, Backed, Vectors.Project, Disks.NextEvent, Oversized;
    var event := s.NextEvent(name);
    if event.None? { return None; }
    failure := ProjectEvent(mapper, index, event.value);
    if failure.None? {
      s.AdvanceProjectorCheckpoint(name, event.value.seqNo);
    }
    s.projectors := s.projectors[name := failure];
  }

  // ---------------------------------------------------------------- freshness

  /** Watermark and lag of a known projector. The lag is what is missing up to the watermark, so
      the two add up; `LagCountsPendingEvents` says that it counts the queued events. */
  method ProjectorStatus(s: Store, name: string) returns (status: Option<Status>)
    ensures status.Some? <==> name in s.projectorCheckpoints
    ensures status.Some? ==>
      && status.value == StatusOf(s.Viewed(), name)
      && status.value.indexedSeq + status.value.lag == Max(status.value.indexedSeq, s.durableSeq)
  {
    if name !in s.projectorCheckpoints { return None; }
    var indexed := s.projectorCheckpoints[name];
    status := Some(Status(s.durableSeq, indexed, if s.durableSeq > indexed then s.durableSeq - indexed else 0));
  }

  datatype StoreSearch = StoreSearch(
    hits: seq<Hit>, status: Option<Status>, stale: bool, expanded: Traversal, spans: seq<SpanRead>)

  /** The live nodes of the hits, in hit order. */
  function MatchedNodes(nodes: map<string, Node>, hits: seq<Hit>): seq<Node> {
    if hits == [] then []
    else
      var id := hits[|hits| - 1].nodeID;
      MatchedNodes(nodes, hits[..|hits| - 1]) + if id in nodes && !nodes[id].deleted then [nodes[id]] else []
  }

  method Matched(s: Store, hits: seq<Hit>) returns (nodes: seq<Node>)
    ensures nodes == MatchedNodes(s.nodes, hits)
    ensures forall x :: x in nodes <==>
      exists h :: h in hits && h.nodeID in s.nodes && s.nodes[h.nodeID] == x && !x.deleted
  {
    nodes := [];
    for i := 0 to |hits|
      invariant nodes == MatchedNodes(s.nodes, hits[..i])
      invariant forall x ::
        x in nodes <==> exists h :: h in hits[..i] && h.nodeID in s.nodes && s.nodes[h.nodeID] == x && !x.deleted
    {
      assert hits[..i + 1][..i] == hits[..i] && hits[..i + 1] == hits[..i] + [hits[i]];
      if hits[i].nodeID !in s.nodes || s.nodes[hits[i].nodeID].deleted { continue; }
      nodes := nodes + [s.nodes[hits[i].nodeID]];
    }
    assert hits[..|hits|] == hits;
  }

  /** `Store.SearchVectors`: the answer of the index, the watermark of the projector read after
      it, and the graph around the live hits. Staleness is judged by the watermark. */
  method SearchVectors(s: Store, index: FileVectorIndex, metric: Metric, query: SearchQuery, rawName: string,
                       wait: Wait, expansion: NodeQuery) returns (r: Result<StoreSearch>)
    requires s.Consistent() && index.Valid()
    ensures var name := Trim(rawName);
      r.Ok? ==>
        && (exists a: Result<SearchResult> :: Answers(metric, index.entries, index.indexedSeq, query, a) && a.Ok?
              && r.value.hits == a.value.hits && (name == "" ==> r.value.stale == a.value.stale))
        && (name != "" ==> name in s.projectorCheckpoints && r.value.status == Some(StatusOf(s.Viewed(), name))
                           && (r.value.stale <==> !WaitSatisfied(wait, StatusOf(s.Viewed(), name))))
        && var around, q := MatchedNodes(s.nodes, r.value.hits), NormalizeNodeQuery(expansion);
           ExpansionOf(s, around, q, r.value.expanded) && SpansOf(s, around, r.value.expanded, q, r.value.spans)
    ensures r.Ok? ==>
      var cp := if Trim(rawName) in s.projectorCheckpoints then s.projectorCheckpoints[Trim(rawName)] else 0;
      && SearchAnswer(metric, index.entries, query, r.value.hits)
      && (r.value.stale <==>
            if Trim(rawName) == "" then index.indexedSeq < query.minIndexedSeq
            else cp < wait.minIndexedSeq || (wait.enforceMaxLag && s.durableSeq > cp + wait.maxLag))
    ensures r.Ok? ==>
      && (forall x :: x in MatchedNodes(s.nodes, r.value.hits) <==>
            exists h :: h in r.value.hits && h.nodeID in s.nodes && s.nodes[h.nodeID] == x && !x.deleted)
      && ExpansionAnswer(s, expansion, MatchedNodes(s.nodes, r.value.hits), r.value.expanded)
      && SpansAnswer(s, expansion, MatchedNodes(s.nodes, r.value.hits) + r.value.expanded.nodes, r.value.spans)
    ensures r.Ok? <== (Trim(rawName) == "" || Trim(rawName) in s.projectorCheckpoints)
      && (exists a: Result<SearchResult> :: Answers(metric, index.entries, index.indexedSeq, query, a) && a.Ok?)
    ensures r == Err(NotFound) <== Trim(rawName) != "" && Trim(rawName) !in s.projectorCheckpoints
      && (exists a: Result<SearchResult> :: Answers(metric, index.entries, index.indexedSeq, query, a) && a.Ok?)
  {
    hide SearchAnswer, ExpansionAnswer, SpansAnswer, Trim, Answers, ExpansionOf, SpansOf, NormalizeNodeQuery,
      Indexes.Indexed, Integrity.Sound, Backed;
    var name := Trim(rawName);
    var searched := index.SearchVectors(metric, query);
    BackedKeyed(index);
    forall a: Result<SearchResult> | Answers(metric, index.entries, index.indexedSeq, query, a)
      ensures a.Ok? <==> searched.Ok?
    {
      SearchesAgree(metric, index.entries, index.indexedSeq, query, a, searched);
    }
    SearchAnswerIs(metric, index.entries, index.indexedSeq, query, searched);
    if searched.Err? { return Err(searched.error); }
    var status := None;
    var stale := searched.value.stale;
    if name != "" {
      status := ProjectorStatus(s, name);
      if status.None? { return Err(NotFound); }
      stale := !WaitSatisfied(wait, status.value);
    }
    var matched := Matched(s, searched.value.hits);
    var q := NormalizeNodeQuery(expansion);
    var expanded := ExpandQueryResult(s, matched, q);
    var spans := ReadSpansOf(s, matched, expanded, q);
    ExpansionAnswerIs(s, expansion, matched, expanded);
    SpansAnswerIs(s, expansion, matched, expanded, spans.value);
    r := Ok(StoreSearch(searched.value.hits, status, stale, expanded, spans.value));
  }

  lemma BackedKeyed(index: FileVectorIndex)
    requires index.Valid()
    ensures VectorIndexes.Keyed(index.entries)
  {
    hide NormalEntry, Encoded;
  }
}
