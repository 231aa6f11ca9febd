/** Traversal, relation and expansion queries over the node and edge maps. */
module Graphs {
  import opened Text
  import opened Sorting
  import opened Types
  import opened Normalize
  import opened Integrity
  import opened Indexes
  import opened Stores
  import opened Queries

  datatype EdgeQuery = EdgeQuery(edgeType: string, includeDeleted: bool)

  datatype Traversal = Traversal(nodes: seq<Node>, edges: seq<Edge>)

  datatype NodeQuery = NodeQuery(
    nodeType: string, attributes: map<string, string>, updatedAfter: Time, updatedBefore: Time,
    relatedNodeID: string, relatedEdgeType: string, relatedDirection: string,
    expandParents: bool, parentEdgeType: string, expandChildren: bool, childEdgeType: string,
    expandEvidence: bool, evidenceEdgeType: string, expandSourceSpans: bool, spanAttribute: string,
    includeDeleted: bool, includeCandidates: bool, limit: int)

  // ---------------------------------------------------------------- adjacency

  /** The adjacency sets hold exactly the edges, tombstones included, by endpoint. */
  lemma AdjacencyExact(s: Store, nodeID: string)
    requires s.Consistent() && nodeID != ""
    ensures Bucket(s.graph.outgoing, nodeID) == set id | id in s.edges && s.edges[id].fromNodeID == nodeID
    ensures Bucket(s.graph.incoming, nodeID) == set id | id in s.edges && s.edges[id].toNodeID == nodeID
  {
    hide Exact, Bucket, Sound;
    NamedEdges(s);
    ExactBucket(s.graph.outgoing, s.edges, (e: Edge) => [e.fromNodeID], nodeID);
    ExactBucket(s.graph.incoming, s.edges, (e: Edge) => [e.toNodeID], nodeID);
  }

  lemma NamedEdges(s: Store)
    requires s.Consistent()
    ensures "" !in s.edges && "" !in s.nodes && EdgesExact(s.graph, s.edges)
    ensures forall id :: id in s.edges ==> s.edges[id].id == id
    ensures forall id :: id in s.nodes ==> s.nodes[id].id == id
    ensures forall id :: id in s.edges ==> s.edges[id].fromNodeID in s.nodes && s.edges[id].toNodeID in s.nodes
  {
    hide RecordsExact, ChunksExact, SpansExact, EdgesExact, SpanSound;
  }

  /** No edge starts or ends at a blank id. */
  lemma BlankHasNoEdges(s: Store)
    requires s.Consistent()
    ensures Bucket(s.graph.outgoing, "") == {} && Bucket(s.graph.incoming, "") == {}
  {
    NamedEdges(s);
    BlankBucket(s.graph.outgoing, s.edges, (e: Edge) => [e.fromNodeID]);
    BlankBucket(s.graph.incoming, s.edges, (e: Edge) => [e.toNodeID]);
  }

  lemma BlankBucket<T(!new)>(ix: Index, entities: map<string, T>, values: T -> seq<string>)
    requires Exact(ix, entities, values)
    ensures Bucket(ix, "") == {}
  {
    if "" in ix {
      var id :| id in ix[""];
      assert Has(ix, "", id);
    }
  }

  function Adjacent(s: Store, nodeID: string, forward: bool): set<string>
    reads s
  {
    if forward then Bucket(s.graph.outgoing, nodeID) else Bucket(s.graph.incoming, nodeID)
  }

  function Near(e: Edge, forward: bool): string {
    if forward then e.fromNodeID else e.toNodeID
  }

  function Far(e: Edge, forward: bool): string {
    if forward then e.toNodeID else e.fromNodeID
  }

  lemma AdjacentExact(s: Store, nodeID: string, forward: bool)
    requires s.Consistent()
    ensures Adjacent(s, nodeID, forward) == set id | id in s.edges && Near(s.edges[id], forward) == nodeID
  {
    hide Indexed, Sound, Bucket, EdgesExact;
    NamedEdges(s);
    if nodeID == "" { BlankHasNoEdges(s); } else { AdjacencyExact(s, nodeID); }
  }

  // ---------------------------------------------------------------- traversal

  /** The edge may be followed: right type, and neither it nor its far node hidden. */
  predicate Followed(nodes: map<string, Node>, e: Edge, q: EdgeQuery, forward: bool) {
    && Wants(q.edgeType, e.edgeType)
    && (q.includeDeleted || !e.deleted)
    && Far(e, forward) in nodes
    && (q.includeDeleted || !nodes[Far(e, forward)].deleted)
  }

  /** The edges of `ids` that may be followed, in order, each with its far node. */
  function Followable(nodes: map<string, Node>, edges: map<string, Edge>, ids: seq<string>, q: EdgeQuery,
                      forward: bool): Traversal
  {
    if ids == [] then Traversal([], [])
    else
      var before := Followable(nodes, edges, ids[..|ids| - 1], q, forward);
      var id := ids[|ids| - 1];
      if id in edges && Followed(nodes, edges[id], q, forward) then
        Traversal(before.nodes + [nodes[Far(edges[id], forward)]], before.edges + [edges[id]])
      else before
  }

  method TraverseEdges(s: Store, ids: seq<string>, q: EdgeQuery, forward: bool) returns (t: Traversal)
    requires forall id :: id in ids ==> id in s.edges
    ensures t == Followable(s.nodes, s.edges, ids, q, forward)
  {
    t := Traversal([], []);
    for i := 0 to |ids|
      invariant t == Followable(s.nodes, s.edges, ids[..i], q, forward)
    {
      assert ids[..i + 1][..i] == ids[..i];
      var edge := s.edges[ids[i]];
      if q.edgeType != "" && edge.edgeType != q.edgeType { continue; }
      if !q.includeDeleted && edge.deleted { continue; }
      var next := if forward then edge.toNodeID else edge.fromNodeID;
      if next !in s.nodes || (!q.includeDeleted && s.nodes[next].deleted) { continue; }
      t := Traversal(t.nodes + [s.nodes[next]], t.edges + [edge]);
    }
    assert ids[..|ids|] == ids;
  }

  /** The edges of one node that may be followed. */
  ghost function NeighbourEdges(s: Store, nodeID: string, q: EdgeQuery, forward: bool): set<string>
    reads s
  {
    set id | id in s.edges && Near(s.edges[id], forward) == nodeID && Followed(s.nodes, s.edges[id], q, forward)
  }

  function EdgeIDs(edges: seq<Edge>): (ids: seq<string>)
    ensures |ids| == |edges| && forall i :: 0 <= i < |edges| ==> ids[i] == edges[i].id
  {
    seq(|edges|, i requires 0 <= i < |edges| => edges[i].id)
  }

  function NodeIDs(nodes: seq<Node>): (ids: seq<string>)
    ensures |ids| == |nodes| && forall i :: 0 <= i < |nodes| ==> ids[i] == nodes[i].id
  {
    seq(|nodes|, i requires 0 <= i < |nodes| => nodes[i].id)
  }

  /** `e` is a stored edge and `n` its far node. */
  predicate Beside(s: Store, e: Edge, n: Node, forward: bool)
    reads s
  {
    && e.id in s.edges && s.edges[e.id] == e
    && Far(e, forward) in s.nodes && n == s.nodes[Far(e, forward)]
  }

  /** `t` lists the edges `ids` in id order, each once, and beside each its far node. */
  ghost predicate Walks(s: Store, ids: set<string>, forward: bool, t: Traversal)
    reads s
  {
    && Ranks(Less, ids, EdgeIDs(t.edges))
    && |t.nodes| == |t.edges|
    && forall i :: 0 <= i < |t.edges| ==> Beside(s, t.edges[i], t.nodes[i], forward)
  }

  lemma RanksSnoc(ids: set<string>, list: seq<string>, id: string)
    requires Ranks(Less, ids, list) && forall x :: x in ids ==> Less(x, id)
    ensures Ranks(Less, ids + {id}, list + [id])
  {
    hide Less;
    assert forall i :: 0 <= i < |list| ==> list[i] in Members(list);
    assert Members(list + [id]) == Members(list) + {id};
  }

  ghost function Passing(s: Store, ids: seq<string>, q: EdgeQuery, forward: bool): set<string>
    reads s
  {
    set id | id in ids && id in s.edges && Followed(s.nodes, s.edges[id], q, forward)
  }

  lemma WalksOneMore(s: Store, ids: set<string>, forward: bool, t: Traversal, id: string)
    requires Walks(s, ids, forward, t) && id in s.edges && s.edges[id].id == id && Far(s.edges[id], forward) in s.nodes
    requires forall x :: x in ids ==> Less(x, id)
    ensures Walks(s, ids + {id}, forward,
                  Traversal(t.nodes + [s.nodes[Far(s.edges[id], forward)]], t.edges + [s.edges[id]]))
  {
    hide Less, Far, Ranks;
    RanksSnoc(ids, EdgeIDs(t.edges), id);
    assert EdgeIDs(t.edges + [s.edges[id]]) == EdgeIDs(t.edges) + [id];
  }

  lemma PassingSnoc(s: Store, ids: seq<string>, id: string, q: EdgeQuery, forward: bool)
    requires Ascending(Less, ids + [id]) && id in s.edges
    ensures Passing(s, ids + [id], q, forward)
         == Passing(s, ids, q, forward) + if Followed(s.nodes, s.edges[id], q, forward) then {id} else {}
    ensures forall x :: x in Passing(s, ids, q, forward) ==> Less(x, id)
    ensures Ascending(Less, ids)
  {
    hide Less, Followed;
    var all := ids + [id];
    forall x | x in Passing(s, ids, q, forward) ensures Less(x, id) {
      var j :| 0 <= j < |ids| && ids[j] == x;
      assert all[j] == x && all[|ids|] == id;
    }
    forall i, j | 0 <= i < j < |ids| ensures Less(ids[i], ids[j]) {
      assert all[i] == ids[i] && all[j] == ids[j];
    }
  }

  lemma {:induction false} FollowableWalks(s: Store, ids: seq<string>, q: EdgeQuery, forward: bool)
    requires s.Consistent() && Ascending(Less, ids) && forall id :: id in ids ==> id in s.edges
    ensures Walks(s, Passing(s, ids, q, forward), forward, Followable(s.nodes, s.edges, ids, q, forward))
  {
    hide Indexed, Sound, Less, Followed, Walks, Far, Passing, Ascending;
    if ids == [] {
      NothingWalked(s, q, forward);
    } else {
      var init, id := ids[..|ids| - 1], ids[|ids| - 1];
      assert ids == init + [id];
      PassingSnoc(s, init, id, q, forward);
      FollowableWalks(s, init, q, forward);
      NamedEdges(s);
      if Followed(s.nodes, s.edges[id], q, forward) {
        FollowedFar(s.nodes, s.edges[id], q, forward);
        WalksOneMore(s, Passing(s, init, q, forward), forward, Followable(s.nodes, s.edges, init, q, forward), id);
      } else {
        assert Passing(s, init, q, forward) + {} == Passing(s, init, q, forward);
      }
    }
  }

  lemma NothingWalked(s: Store, q: EdgeQuery, forward: bool)
    ensures Walks(s, Passing(s, [], q, forward), forward, Traversal([], []))
  {
    assert Passing(s, [], q, forward) == {};
  }

  lemma FollowedFar(nodes: map<string, Node>, e: Edge, q: EdgeQuery, forward: bool)
    requires Followed(nodes, e, q, forward)
    ensures Far(e, forward) in nodes
  {
  }

  /** Follow the edges of one node: exactly its neighbour edges, in id order. */
  method TraverseIDs(s: Store, nodeID: string, q: EdgeQuery, forward: bool) returns (t: Traversal)
    requires s.Consistent()
    ensures Walks(s, NeighbourEdges(s, nodeID, q, forward), forward, t)
  {
    hide Indexed, Sound, Less, Followed, Walks, Bucket;
    AdjacentExact(s, nodeID, forward);
    var ids := Listed(Adjacent(s, nodeID, forward));
    assert forall id :: id in ids ==> id in Members(ids);
    t := TraverseEdges(s, ids, q, forward);
    FollowableWalks(s, ids, q, forward);
    assert Passing(s, ids, q, forward) == NeighbourEdges(s, nodeID, q, forward) by {
      assert forall id :: id in ids <==> id in Members(ids);
    }
  }

  /** A traversal in plain terms, `forward` from the start of an edge to its end: exactly the edges
      of the node in that direction which have the type asked for and which, with their other
      node, are not deleted, unless deleted ones are asked for; by id, each with its other node. */
  ghost predicate NeighboursOf(s: Store, id: string, edgeType: string, includeDeleted: bool, forward: bool,
                               t: Traversal)
    reads s
  {
    && |t.nodes| == |t.edges|
    && (forall i, j :: 0 <= i < j < |t.edges| ==> Less(t.edges[i].id, t.edges[j].id))
    && (forall i :: 0 <= i < |t.edges| ==>
          && t.edges[i].id in s.edges && s.edges[t.edges[i].id] == t.edges[i]
          && var other := if forward then t.edges[i].toNodeID else t.edges[i].fromNodeID;
             other in s.nodes && t.nodes[i] == s.nodes[other])
    && forall k :: k in s.edges ==>
         var e := s.edges[k];
         var other := if forward then e.toNodeID else e.fromNodeID;
         e in t.edges <==>
           && (if forward then e.fromNodeID else e.toNodeID) == id && (edgeType == "" || e.edgeType == edgeType)
           && (includeDeleted || !e.deleted)
           && other in s.nodes && (includeDeleted || !s.nodes[other].deleted)
  }

  lemma WalksNeighbours(s: Store, id: string, q: EdgeQuery, forward: bool, t: Traversal)
    requires s.Consistent() && Walks(s, NeighbourEdges(s, id, q, forward), forward, t)
    ensures NeighboursOf(s, id, q.edgeType, q.includeDeleted, forward, t)
  {
    hide Less, Sound, Indexed;
    NamedEdges(s);
    var ids := EdgeIDs(t.edges);
    forall i | 0 <= i < |t.edges| ensures Beside(s, t.edges[i], t.nodes[i], forward) {}
    forall i, j | 0 <= i < j < |t.edges| ensures Less(t.edges[i].id, t.edges[j].id) {
      assert Less(ids[i], ids[j]);
    }
    forall k | k in s.edges ensures s.edges[k] in t.edges <==> k in Members(ids) {
      if k in Members(ids) {
        var i :| 0 <= i < |ids| && ids[i] == k;
        assert t.edges[i] == s.edges[k];
      }
      if s.edges[k] in t.edges {
        var i :| 0 <= i < |t.edges| && t.edges[i] == s.edges[k];
        assert ids[i] == k;
      }
    }
  }

  /** `Children` and `Parents`. */
  method Traverse(s: Store, rawID: string, rawQuery: EdgeQuery, forward: bool) returns (r: Result<Traversal>)
    requires s.Consistent()
    ensures var id, q := Trim(rawID), rawQuery.(edgeType := Trim(rawQuery.edgeType));
      if id !in s.nodes || (!q.includeDeleted && s.nodes[id].deleted) then r == Err(NotFound)
      else r.Ok? && Walks(s, NeighbourEdges(s, id, q, forward), forward, r.value)
    ensures r.Ok? ==> NeighboursOf(s, Trim(rawID), Trim(rawQuery.edgeType), rawQuery.includeDeleted, forward, r.value)
  {
    hide Trim, Indexed, Sound, Walks, NeighbourEdges, NeighboursOf;
    var id, q := Trim(rawID), rawQuery.(edgeType := Trim(rawQuery.edgeType));
    if id !in s.nodes || (!q.includeDeleted && s.nodes[id].deleted) { return Err(NotFound); }
    var t := TraverseIDs(s, id, q, forward);
    WalksNeighbours(s, id, q, forward, t);
    r := Ok(t);
  }

  // ---------------------------------------------------------------- expansion

  ghost function FarNodes(s: Store, ids: set<string>, forward: bool): set<string>
    reads s
  {
    set id | id in ids && id in s.edges :: Far(s.edges[id], forward)
  }

  function ParentQuery(q: NodeQuery): EdgeQuery {
    EdgeQuery(q.parentEdgeType, q.includeDeleted)
  }

  function ChildQuery(q: NodeQuery): EdgeQuery {
    EdgeQuery(q.childEdgeType, q.includeDeleted)
  }

  /** Without a type of its own, evidence is what the edges of type `evidence_for` lead to. */
  function EvidenceQuery(q: NodeQuery): EdgeQuery {
    EdgeQuery(if Trim(q.evidenceEdgeType) != "" then Trim(q.evidenceEdgeType) else "evidence_for", q.includeDeleted)
  }

  /** The edges one matched node contributes to the expansion. */
  ghost function ExpansionEdges(s: Store, nodeID: string, q: NodeQuery): set<string>
    reads s
  {
    (if q.expandParents then NeighbourEdges(s, nodeID, ParentQuery(q), false) else {})
    + (if q.expandChildren then NeighbourEdges(s, nodeID, ChildQuery(q), true) else {})
    + (if q.expandEvidence then NeighbourEdges(s, nodeID, EvidenceQuery(q), false) else {})
  }

  ghost function ExpansionNodes(s: Store, nodeID: string, q: NodeQuery): set<string>
    reads s
  {
    (if q.expandParents then FarNodes(s, NeighbourEdges(s, nodeID, ParentQuery(q), false), false) else {})
    + (if q.expandChildren then FarNodes(s, NeighbourEdges(s, nodeID, ChildQuery(q), true), true) else {})
    + (if q.expandEvidence then FarNodes(s, NeighbourEdges(s, nodeID, EvidenceQuery(q), false), false) else {})
  }

  /** The union over all matched nodes. */
  ghost function AllExpansionEdges(s: Store, nodes: seq<Node>, q: NodeQuery): set<string>
    reads s
  {
    set n, id | n in nodes && id in ExpansionEdges(s, n.id, q) :: id
  }

  ghost function AllExpansionNodes(s: Store, nodes: seq<Node>, q: NodeQuery): set<string>
    reads s
  {
    set n, id | n in nodes && id in ExpansionNodes(s, n.id, q) :: id
  }

  ghost predicate StoredEdges(s: Store, m: map<string, Edge>)
    reads s
  {
    forall id :: id in m ==> id in s.edges && m[id] == s.edges[id]
  }

  ghost predicate StoredNodes(s: Store, m: map<string, Node>)
    reads s
  {
    forall id :: id in m ==> id in s.nodes && m[id] == s.nodes[id]
  }

  /** Each pair of a walk is a stored edge and the stored node at its far end. */
  lemma WalkStored(s: Store, ids: set<string>, forward: bool, t: Traversal, i: nat)
    requires s.Consistent() && Walks(s, ids, forward, t) && i < |t.edges|
    ensures t.edges[i].id in s.edges && s.edges[t.edges[i].id] == t.edges[i] && t.edges[i].id in ids
    ensures t.nodes[i].id in s.nodes && s.nodes[t.nodes[i].id] == t.nodes[i]
    ensures t.nodes[i].id == Far(t.edges[i], forward)
  {
    hide Less, Far, Sound, Indexed;
    NamedEdges(s);
    assert Beside(s, t.edges[i], t.nodes[i], forward);
    assert EdgeIDs(t.edges)[i] in Members(EdgeIDs(t.edges));
  }

  lemma WalksNodes(s: Store, ids: set<string>, forward: bool, t: Traversal)
    requires s.Consistent() && Walks(s, ids, forward, t)
    ensures Members(EdgeIDs(t.edges)) == ids
    ensures Members(NodeIDs(t.nodes)) == FarNodes(s, ids, forward)
    ensures forall e :: e in t.edges ==> e.id in s.edges && s.edges[e.id] == e
    ensures forall n :: n in t.nodes ==> n.id in s.nodes && s.nodes[n.id] == n
  {
    hide Less, Far, Sound, Indexed, Beside;
    var es, ns := EdgeIDs(t.edges), NodeIDs(t.nodes);
    forall i | 0 <= i < |t.edges|
      ensures es[i] in s.edges && s.edges[es[i]] == t.edges[i] && es[i] in ids
      ensures ns[i] in s.nodes && s.nodes[ns[i]] == t.nodes[i] && ns[i] == Far(t.edges[i], forward)
    {
      WalkStored(s, ids, forward, t, i);
    }
    forall x ensures x in Members(ns) <==> x in FarNodes(s, ids, forward) {
      if x in Members(ns) {
        var i :| 0 <= i < |ns| && ns[i] == x;
        assert es[i] in ids;
      }
      if x in FarNodes(s, ids, forward) {
        var id :| id in ids && id in s.edges && Far(s.edges[id], forward) == x;
        assert id in Members(es);
        var i :| 0 <= i < |es| && es[i] == id;
        assert ns[i] == x;
      }
    }
  }

  /** The maps that make an expansion free of duplicates: by id, nodes and edges as stored. */
  datatype Found = Found(nodes: map<string, Node>, edges: map<string, Edge>) {
    ghost predicate Stored(s: Store)
      reads s
    {
      StoredNodes(s, nodes) && StoredEdges(s, edges)
    }
  }

  method AddNodes(s: Store, list: seq<Node>, nodes: map<string, Node>) returns (out: map<string, Node>)
    requires StoredNodes(s, nodes) && forall n :: n in list ==> n.id in s.nodes && s.nodes[n.id] == n
    ensures StoredNodes(s, out) && out.Keys == nodes.Keys + Members(NodeIDs(list))
  {
    out := nodes;
    var ids := NodeIDs(list);
    for i := 0 to |list|
      invariant StoredNodes(s, out) && out.Keys == nodes.Keys + Members(ids[..i])
    {
      assert list[i] in list;
      assert ids[..i + 1] == ids[..i] + [list[i].id];
      out := out[list[i].id := list[i]];
    }
    assert ids[..|list|] == ids;
  }

  method AddEdges(s: Store, list: seq<Edge>, edges: map<string, Edge>) returns (out: map<string, Edge>)
    requires StoredEdges(s, edges) && forall e :: e in list ==> e.id in s.edges && s.edges[e.id] == e
    ensures StoredEdges(s, out) && out.Keys == edges.Keys + Members(EdgeIDs(list))
  {
    out := edges;
    var ids := EdgeIDs(list);
    for i := 0 to |list|
      invariant StoredEdges(s, out) && out.Keys == edges.Keys + Members(ids[..i])
    {
      assert list[i] in list;
      assert ids[..i + 1] == ids[..i] + [list[i].id];
      out := out[list[i].id := list[i]];
    }
    assert ids[..|list|] == ids;
  }

  /** Follow the edges of one node and add what they lead to. */
  method AddTraversal(s: Store, found: Found, nodeID: string, q: EdgeQuery, forward: bool) returns (out: Found)
    requires s.Consistent() && found.Stored(s)
    ensures out.Stored(s)
    ensures out.edges.Keys == found.edges.Keys + NeighbourEdges(s, nodeID, q, forward)
    ensures out.nodes.Keys == found.nodes.Keys + FarNodes(s, NeighbourEdges(s, nodeID, q, forward), forward)
  {
    hide Indexed, Sound, Walks, FarNodes, NeighbourEdges, StoredNodes, StoredEdges;
    var t := TraverseIDs(s, nodeID, q, forward);
    WalksNodes(s, NeighbourEdges(s, nodeID, q, forward), forward, t);
    var nodes := AddNodes(s, t.nodes, found.nodes);
    var edges := AddEdges(s, t.edges, found.edges);
    out := Found(nodes, edges);
  }

  /** Parents, children and evidence of one node. */
  method ExpandNode(s: Store, found: Found, nodeID: string, q: NodeQuery) returns (out: Found)
    requires s.Consistent() && found.Stored(s)
    ensures out.Stored(s)
    ensures out.edges.Keys == found.edges.Keys + ExpansionEdges(s, nodeID, q)
    ensures out.nodes.Keys == found.nodes.Keys + ExpansionNodes(s, nodeID, q)
  {
    hide Indexed, Sound, FarNodes, NeighbourEdges, Trim, StoredNodes, StoredEdges;
    out := found;
    if q.expandParents { out := AddTraversal(s, out, nodeID, ParentQuery(q), false); }
    if q.expandChildren { out := AddTraversal(s, out, nodeID, ChildQuery(q), true); }
    if q.expandEvidence { out := AddTraversal(s, out, nodeID, EvidenceQuery(q), false); }
  }

  method SortedNodes(nodes: map<string, Node>) returns (out: seq<Node>)
    requires forall id :: id in nodes ==> nodes[id].id == id
    ensures Ranks(Less, nodes.Keys, NodeIDs(out))
    ensures forall n :: n in out ==> n.id in nodes && nodes[n.id] == n
  {
    hide Less, Ranks;
    var ids := Listed(nodes.Keys);
    RankedIDs(nodes.Keys, ids);
    out := [];
    for i := 0 to |ids|
      invariant NodeIDs(out) == ids[..i]
      invariant forall n :: n in out ==> n.id in nodes && nodes[n.id] == n
    {
      assert ids[i] in Members(ids);
      out := out + [nodes[ids[i]]];
    }
    assert NodeIDs(out) == ids;
  }

  method SortedEdges(edges: map<string, Edge>) returns (out: seq<Edge>)
    requires forall id :: id in edges ==> edges[id].id == id
    ensures Ranks(Less, edges.Keys, EdgeIDs(out))
    ensures forall e :: e in out ==> e.id in edges && edges[e.id] == e
  {
    hide Less, Ranks;
    var ids := Listed(edges.Keys);
    RankedIDs(edges.Keys, ids);
    out := [];
    for i := 0 to |ids|
      invariant EdgeIDs(out) == ids[..i]
      invariant forall e :: e in out ==> e.id in edges && edges[e.id] == e
    {
      assert ids[i] in Members(ids);
      out := out + [edges[ids[i]]];
    }
    assert EdgeIDs(out) == ids;
  }

  /** `t` is the expansion of the matched nodes: the union of their allowed neighbours and
      edges, each once, in id order, as stored. */
  ghost predicate ExpansionOf(s: Store, nodes: seq<Node>, q: NodeQuery, t: Traversal)
    reads s
  {
    && Ranks(Less, AllExpansionNodes(s, nodes, q), NodeIDs(t.nodes))
    && Ranks(Less, AllExpansionEdges(s, nodes, q), EdgeIDs(t.edges))
    && (forall n :: n in t.nodes ==> n.id in s.nodes && s.nodes[n.id] == n)
    && (forall e :: e in t.edges ==> e.id in s.edges && s.edges[e.id] == e)
  }

  lemma ExpansionSnoc(s: Store, nodes: seq<Node>, n: Node, q: NodeQuery)
    ensures AllExpansionNodes(s, nodes + [n], q) == AllExpansionNodes(s, nodes, q) + ExpansionNodes(s, n.id, q)
    ensures AllExpansionEdges(s, nodes + [n], q) == AllExpansionEdges(s, nodes, q) + ExpansionEdges(s, n.id, q)
  {
    hide ExpansionNodes, ExpansionEdges;
    assert forall x :: x in nodes + [n] <==> x in nodes || x == n;
  }

  method ExpandQueryResult(s: Store, nodes: seq<Node>, q: NodeQuery) returns (t: Traversal)
    requires s.Consistent()
    ensures ExpansionOf(s, nodes, q, t)
  {
    hide Indexed, Sound, Less, Ranks, ExpansionNodes, ExpansionEdges, AllExpansionNodes, AllExpansionEdges;
    var found := Found(map[], map[]);
    EmptyExpansion(s, q);
    for i := 0 to |nodes|
      invariant found.Stored(s)
      invariant found.nodes.Keys == AllExpansionNodes(s, nodes[..i], q)
      invariant found.edges.Keys == AllExpansionEdges(s, nodes[..i], q)
    {
      assert nodes[..i + 1] == nodes[..i] + [nodes[i]];
      ExpansionSnoc(s, nodes[..i], nodes[i], q);
      found := ExpandNode(s, found, nodes[i].id, q);
    }
    assert nodes[..|nodes|] == nodes;
    NamedEdges(s);
    var ns := SortedNodes(found.nodes);
    var es := SortedEdges(found.edges);
    t := Traversal(ns, es);
  }

  lemma EmptyExpansion(s: Store, q: NodeQuery)
    ensures AllExpansionNodes(s, [], q) == {} && AllExpansionEdges(s, [], q) == {}
  {
  }

  // ---------------------------------------------------------------- node queries

  function AttributeOf(m: map<string, string>, key: string): string {
    if key in m then m[key] else ""
  }

  /** `nodeMatchesQuery`; a missing attribute reads as the empty string. */
  predicate NodeMatches(n: Node, q: NodeQuery) {
    && (q.includeDeleted || !n.deleted)
    && Wants(q.nodeType, n.nodeType)
    && (q.updatedAfter != 0 ==> n.stamp.updatedAt > q.updatedAfter)
    && (q.updatedBefore != 0 ==> n.stamp.updatedAt < q.updatedBefore)
    && forall k :: k in q.attributes ==> AttributeOf(n.attributes, k) == q.attributes[k]
  }

  predicate RelationAllowed(e: Edge, q: NodeQuery) {
    (q.includeDeleted || !e.deleted) && Wants(q.relatedEdgeType, e.edgeType)
  }

  predicate Outgoing(q: NodeQuery) {
    q.relatedDirection == "" || q.relatedDirection == "outgoing"
  }

  predicate Incoming(q: NodeQuery) {
    q.relatedDirection == "" || q.relatedDirection == "incoming"
  }

  /** The edge relates the node to the one the query names, in a direction it asks for. */
  predicate Related(e: Edge, nodeID: string, q: NodeQuery) {
    && RelationAllowed(e, q)
    && ((Outgoing(q) && e.fromNodeID == q.relatedNodeID && e.toNodeID == nodeID)
        || (Incoming(q) && e.toNodeID == q.relatedNodeID && e.fromNodeID == nodeID))
  }

  ghost function RelatedEdgesOf(s: Store, nodeID: string, q: NodeQuery): set<Edge>
    reads s
  {
    if q.relatedNodeID == "" then {}
    else set id | id in s.edges && Related(s.edges[id], nodeID, q) :: s.edges[id]
  }

  /** How often the edge is listed: once for each direction that relates it, so a loop twice. */
  function Times(e: Edge, nodeID: string, q: NodeQuery): nat {
    (if OneWay(e, nodeID, q, true) && Outgoing(q) then 1 else 0)
    + (if OneWay(e, nodeID, q, false) && Incoming(q) then 1 else 0)
  }

  predicate OneWay(e: Edge, nodeID: string, q: NodeQuery, forward: bool) {
    RelationAllowed(e, q) && Near(e, forward) == q.relatedNodeID && Far(e, forward) == nodeID
  }

  /** The edges of `relatedNodeID` in one direction that lead to `nodeID`, each once. */
  method RelatedOneWay(s: Store, nodeID: string, q: NodeQuery, forward: bool) returns (edges: seq<Edge>)
    requires s.Consistent()
    ensures Members(edges) == OneWayEdges(s, nodeID, q, forward) && Distinct(edges)
  {
    hide Indexed, Sound, RelationAllowed, Far, Near;
    AdjacentExact(s, q.relatedNodeID, forward);
    NamedEdges(s);
    var all := Adjacent(s, q.relatedNodeID, forward);
    var todo := all;
    edges := [];
    while todo != {}
      invariant todo <= all
      invariant Members(edges) == set id | id in all - todo && id in s.edges && RelationAllowed(s.edges[id], q)
        && Far(s.edges[id], forward) == nodeID :: s.edges[id]
      invariant Distinct(edges) && forall e :: e in edges ==> e.id in all - todo
      decreases todo
    {
      var id :| id in todo;
      ghost var before := all - todo;
      todo := todo - {id};
      assert all - todo == before + {id};
      if Far(s.edges[id], forward) == nodeID && RelationAllowed(s.edges[id], q) {
        assert Members(edges + [s.edges[id]]) == Members(edges) + {s.edges[id]};
        edges := edges + [s.edges[id]];
      }
    }
    assert all - todo == all;
  }

  function EdgeIDLess(): (Edge, Edge) -> bool {
    (a: Edge, b: Edge) => Less(a.id, b.id)
  }

  lemma CountDistinct<T(!new)>(list: seq<T>, x: T)
    requires Distinct(list)
    ensures multiset(list)[x] == if x in list then 1 else 0
  {
    if x in list {
      var i :| 0 <= i < |list| && list[i] == x;
      assert list == list[..i] + [x] + list[i + 1..];
      assert x !in list[..i] && x !in list[i + 1..];
    }
  }

  /** Exactly the related edges, by id, each as often as it is related. */
  method RelatedEdges(s: Store, nodeID: string, q: NodeQuery) returns (edges: seq<Edge>)
    requires s.Consistent()
    ensures Members(edges) == RelatedEdgesOf(s, nodeID, q)
    ensures q.relatedNodeID != "" ==>
      forall id :: id in s.edges ==> multiset(edges)[s.edges[id]] == Times(s.edges[id], nodeID, q)
    ensures Ordered(EdgeIDLess(), edges)
  {
    hide Indexed, Sound, RelationAllowed, Less, Sort;
    edges := [];
    if q.relatedNodeID == "" { return; }
    var out, back: seq<Edge> := [], [];
    if Outgoing(q) { out := RelatedOneWay(s, nodeID, q, true); }
    if Incoming(q) { back := RelatedOneWay(s, nodeID, q, false); }
    edges := out + back;
    assert Members(edges) == Members(out) + Members(back);
    assert Members(edges) == RelatedEdgesOf(s, nodeID, q);
    forall id | id in s.edges ensures multiset(edges)[s.edges[id]] == Times(s.edges[id], nodeID, q) {
      CountBoth(s, nodeID, q, out, back, id);
    }
    EdgeIDsWeak();
    SortOrders(EdgeIDLess(), edges);
    MembersOf(edges, Sort(EdgeIDLess(), edges));
    edges := Sort(EdgeIDLess(), edges);
  }

  lemma CountBoth(s: Store, nodeID: string, q: NodeQuery, out: seq<Edge>, back: seq<Edge>, id: string)
    requires s.Consistent() && id in s.edges && Distinct(out) && Distinct(back)
    requires Members(out) == if Outgoing(q) then OneWayEdges(s, nodeID, q, true) else {}
    requires Members(back) == if Incoming(q) then OneWayEdges(s, nodeID, q, false) else {}
    ensures multiset(out + back)[s.edges[id]] == Times(s.edges[id], nodeID, q)
  {
    hide Indexed, Sound, OneWay, Outgoing, Incoming;
    var e := s.edges[id];
    NamedEdges(s);
    CountDistinct(out, e);
    CountDistinct(back, e);
    assert e in out <==> e in Members(out);
    assert e in back <==> e in Members(back);
  }

  ghost function OneWayEdges(s: Store, nodeID: string, q: NodeQuery, forward: bool): set<Edge>
    reads s
  {
    set id | id in s.edges && OneWay(s.edges[id], nodeID, q, forward) :: s.edges[id]
  }

  lemma EdgeIDsWeak()
    ensures Weak(EdgeIDLess())
  {
    hide Less;
    forall a: string, b: string, c: string
      ensures Less(a, b) ==> !Less(b, a)
      ensures !Less(a, b) && !Less(b, c) ==> !Less(a, c)
    {
      LessWeak(a, b, c);
    }
  }

  /** Latest update first, then by id. */
  function NodeBefore(): (Node, Node) -> bool {
    By((n: Node) => -(n.stamp.updatedSeq as int), (n: Node) => n.id)
  }

  ghost predicate Selected(s: Store, n: Node, q: NodeQuery)
    reads s
  {
    NodeMatches(n, q) && (q.relatedNodeID != "" ==> RelatedEdgesOf(s, n.id, q) != {})
  }

  ghost function MatchingNodes(s: Store, q: NodeQuery): set<Node>
    reads s
  {
    set id | id in s.nodes && Selected(s, s.nodes[id], q) :: s.nodes[id]
  }

  /** The edges that relate the selected nodes to the node the query names. */
  ghost function AllRelated(s: Store, nodes: seq<Node>, q: NodeQuery): set<Edge>
    reads s
  {
    set n, e | n in nodes && e in RelatedEdgesOf(s, n.id, q) :: e
  }

  lemma RelatedSnoc(s: Store, nodes: seq<Node>, n: Node, q: NodeQuery)
    ensures AllRelated(s, nodes + [n], q) == AllRelated(s, nodes, q) + RelatedEdgesOf(s, n.id, q)
  {
    hide RelatedEdgesOf;
    assert forall x :: x in nodes + [n] <==> x in nodes || x == n;
  }

  /** The nodes that match and, when the query names a related node, have an edge to it; and
      all those edges. */
  method SelectNodes(s: Store, q: NodeQuery) returns (found: seq<Node>, related: seq<Edge>)
    requires s.Consistent()
    ensures Members(found) == MatchingNodes(s, q) && Distinct(found)
    ensures Members(related) == AllRelated(s, found, q)
  {
    hide Indexed, Sound, Less, NodeMatches, RelatedEdgesOf, Ranks, AllRelated;
    NamedEdges(s);
    var ids := Listed(s.nodes.Keys);
    RankedIDs(s.nodes.Keys, ids);
    found, related := [], [];
    NoneRelated(s, q);
    for i := 0 to |ids|
      invariant Members(found) == set id | id in ids[..i] && id in s.nodes && Selected(s, s.nodes[id], q) :: s.nodes[id]
      invariant Distinct(found) && forall n :: n in found ==> n.id in ids[..i]
      invariant Members(related) == AllRelated(s, found, q)
    {
      assert ids[i] in Members(ids);
      assert ids[..i + 1] == ids[..i] + [ids[i]];
      var node := s.nodes[ids[i]];
      if !NodeMatches(node, q) { continue; }
      var edges := RelatedEdges(s, node.id, q);
      if q.relatedNodeID != "" && |edges| == 0 { continue; }
      assert Selected(s, node, q) by {
        if q.relatedNodeID != "" { assert edges[0] in Members(edges); }
      }
      assert Members(found + [node]) == Members(found) + {node};
      assert Members(related + edges) == Members(related) + Members(edges);
      RelatedSnoc(s, found, node, q);
      found := found + [node];
      related := related + edges;
    }
    assert ids[..|ids|] == ids;
    assert forall id :: id in ids <==> id in Members(ids);
  }

  lemma NoneRelated(s: Store, q: NodeQuery)
    ensures AllRelated(s, [], q) == {}
  {
  }

  predicate Touches(e: Edge, ids: set<string>) {
    e.fromNodeID in ids || e.toNodeID in ids
  }

  /** `filterEdgesForNodes`: the edges that touch a returned node. */
  method FilterEdges(edges: seq<Edge>, nodes: seq<Node>) returns (out: seq<Edge>)
    ensures Members(out) == set e | e in edges && Touches(e, Members(NodeIDs(nodes)))
  {
    out := [];
    if edges == [] || nodes == [] { return; }
    var selected := Members(NodeIDs(nodes));
    for i := 0 to |edges|
      invariant Members(out) == set e | e in edges[..i] && Touches(e, selected)
    {
      assert edges[..i + 1] == edges[..i] + [edges[i]];
      if edges[i].fromNodeID in selected || edges[i].toNodeID in selected {
        assert Members(out + [edges[i]]) == Members(out) + {edges[i]};
        out := out + [edges[i]];
      }
    }
    assert edges[..|edges|] == edges;
  }

  // ---------------------------------------------------------------- cited spans

  /** The records the nodes name in the attribute the query asks for. */
  ghost function CitedRecords(nodes: seq<Node>, attribute: string): set<string> {
    set n | n in nodes && Trim(AttributeOf(n.attributes, attribute)) != "" :: Trim(AttributeOf(n.attributes, attribute))
  }

  method RecordIDsOf(nodes: seq<Node>, attribute: string) returns (ids: set<string>)
    ensures ids == CitedRecords(nodes, attribute)
  {
    hide Trim;
    ids := {};
    for i := 0 to |nodes|
      invariant ids == CitedRecords(nodes[..i], attribute)
    {
      assert nodes[..i + 1] == nodes[..i] + [nodes[i]];
      var id := Trim(AttributeOf(nodes[i].attributes, attribute));
      if id != "" { ids := ids + {id}; }
    }
    assert nodes[..|nodes|] == nodes;
  }

  ghost function SpansOfRecords(s: Store, recordIDs: set<string>): set<string>
    reads s
  {
    set id | id in s.sourceSpans && s.sourceSpans[id].recordID in recordIDs
  }

  /** Read every span of the cited records: none of the reads can fail. */
  method ExpandSourceSpans(s: Store, matched: seq<Node>, expanded: seq<Node>, attribute: string)
      returns (r: Result<seq<SpanRead>>)
    requires s.Consistent()
    ensures r.Ok?
    ensures Members(SpanIDs(r.value)) == SpansOfRecords(s, CitedRecords(matched + expanded, attribute))
    ensures forall x :: x in r.value ==> x.span.id in s.sourceSpans && ReadOf(s.chunks, s.sourceSpans[x.span.id], x)
    ensures Ascending(SpanReadBefore(), r.value)
  {
    hide Indexed, Less, Trim, ReadOf, SpanSound, EdgeSound, Exact, Ranks, Bucket, By, Sort;
    StoreIDs(s);
    var recordIDs := RecordIDsOf(matched + expanded, attribute);
    var spanIDs: set<string> := {};
    var todo := recordIDs;
    while todo != {}
      invariant todo <= recordIDs && spanIDs == SpansOfRecords(s, recordIDs - todo)
      decreases todo
    {
      var id :| id in todo;
      ExactBucket(s.spanIndexes.recordID, s.sourceSpans, (x: SourceSpan) => [x.recordID], id);
      assert recordIDs - (todo - {id}) == (recordIDs - todo) + {id};
      todo := todo - {id};
      spanIDs := spanIDs + Bucket(s.spanIndexes.recordID, id);
    }
    assert recordIDs - todo == recordIDs;
    var ids := Listed(spanIDs);
    RankedIDs(spanIDs, ids);
    var found: seq<SpanRead> := [];
    for i := 0 to |ids|
      invariant SpanIDs(found) == ids[..i]
      invariant forall x :: x in found ==> x.span.id in s.sourceSpans && ReadOf(s.chunks, s.sourceSpans[x.span.id], x)
    {
      assert ids[i] in Members(ids);
      var read := ReadSpan(s, s.sourceSpans[ids[i]]);
      ReadKeepsID(s.chunks, s.sourceSpans[ids[i]], read.value);
      found := found + [read.value];
    }
    assert SpanIDs(found) == ids;
    SortReads(found);
    r := Ok(Sort(SpanReadBefore(), found));
  }

  function SpanReadBefore(): (SpanRead, SpanRead) -> bool {
    By((r: SpanRead) => -(r.span.stamp.updatedSeq as int), (r: SpanRead) => r.span.id)
  }

  lemma SortReads(list: seq<SpanRead>)
    requires Distinct(SpanIDs(list))
    ensures Ascending(SpanReadBefore(), Sort(SpanReadBefore(), list))
    ensures forall x :: x in Sort(SpanReadBefore(), list) <==> x in list
    ensures Members(SpanIDs(Sort(SpanReadBefore(), list))) == Members(SpanIDs(list))
  {
    hide By, Sort, Less;
    var sorted := Sort(SpanReadBefore(), list);
    forall i, j | 0 <= i < j < |list| ensures list[i].span.id != list[j].span.id {
      assert SpanIDs(list)[i] != SpanIDs(list)[j];
    }
    ByOrders((r: SpanRead) => -(r.span.stamp.updatedSeq as int), (r: SpanRead) => r.span.id, Members(list));
    SortRanks(SpanReadBefore(), list);
    assert forall x :: x in sorted <==> x in Members(sorted);
    assert forall x :: x in list <==> x in Members(list);
    MembersOfIDs(sorted);
    MembersOfIDs(list);
  }

  lemma MembersOfIDs(list: seq<SpanRead>)
    ensures Members(SpanIDs(list)) == set x | x in list :: x.span.id
  {
    forall x | x in list ensures x.span.id in Members(SpanIDs(list)) {
      var i :| 0 <= i < |list| && list[i] == x;
      assert SpanIDs(list)[i] == x.span.id;
    }
    forall id | id in Members(SpanIDs(list)) ensures exists x :: x in list && x.span.id == id {
      var i :| 0 <= i < |list| && SpanIDs(list)[i] == id;
      assert list[i] in list;
    }
  }

  lemma ReadKeepsID(chunks: map<string, Chunk>, span: SourceSpan, r: SpanRead)
    requires ReadOf(chunks, span, r)
    ensures r.span.id == span.id
  {
  }

  function SpanIDs(list: seq<SpanRead>): (ids: seq<string>)
    ensures |ids| == |list| && forall i :: 0 <= i < |list| ==> ids[i] == list[i].span.id
  {
    seq(|list|, i requires 0 <= i < |list| => list[i].span.id)
  }

  // ---------------------------------------------------------------- the whole query

  /** Blank means the attribute `record_id`. */
  function NormalizeNodeQuery(q: NodeQuery): NodeQuery {
    q.(nodeType := Trim(q.nodeType), attributes := NormalizeMap(q.attributes), relatedNodeID := Trim(q.relatedNodeID),
       relatedEdgeType := Trim(q.relatedEdgeType), relatedDirection := Trim(q.relatedDirection),
       parentEdgeType := Trim(q.parentEdgeType), childEdgeType := Trim(q.childEdgeType),
       evidenceEdgeType := Trim(q.evidenceEdgeType),
       spanAttribute := if Trim(q.spanAttribute) == "" then "record_id" else Trim(q.spanAttribute))
  }

  /** The spans cited around a query result, none unless asked for. */
  ghost predicate SpansOf(s: Store, nodes: seq<Node>, expanded: Traversal, q: NodeQuery, spans: seq<SpanRead>)
    reads s
  {
    if q.expandSourceSpans then
      && Members(SpanIDs(spans)) == SpansOfRecords(s, CitedRecords(nodes + expanded.nodes, q.spanAttribute))
      && (forall x :: x in spans ==> x.span.id in s.sourceSpans && ReadOf(s.chunks, s.sourceSpans[x.span.id], x))
      && Ascending(SpanReadBefore(), spans)
    else spans == []
  }

  method ReadSpansOf(s: Store, nodes: seq<Node>, expanded: Traversal, q: NodeQuery) returns (r: Result<seq<SpanRead>>)
    requires s.Consistent()
    ensures r.Ok? && SpansOf(s, nodes, expanded, q, r.value)
  {
    hide Indexed, Sound, ReadOf, CitedRecords, SpansOfRecords, Ascending;
    if q.expandSourceSpans {
      r := ExpandSourceSpans(s, nodes, expanded.nodes, q.spanAttribute);
    } else {
      r := Ok([]);
    }
  }

  datatype NodeQueryResult = NodeQueryResult(
    nodes: seq<Node>, matchEdges: seq<Edge>, candidateIDs: seq<string>, expanded: Traversal, spans: seq<SpanRead>)

  /** `edges` are the related edges of all matching nodes, also of those the limit cut off, as
      far as they touch a returned node. */
  ghost predicate MatchEdgesOf(s: Store, nodes: seq<Node>, q: NodeQuery, edges: seq<Edge>)
    reads s
  {
    && Ordered(EdgeIDLess(), edges)
    && Members(edges) == set n, e | n in MatchingNodes(s, q) && e in RelatedEdgesOf(s, n.id, q)
                                    && Touches(e, Members(NodeIDs(nodes))) :: e
  }

  method MatchEdges(s: Store, found: seq<Node>, related: seq<Edge>, nodes: seq<Node>, q: NodeQuery)
      returns (edges: seq<Edge>)
    requires Members(found) == MatchingNodes(s, q) && Members(related) == AllRelated(s, found, q)
    ensures MatchEdgesOf(s, nodes, q, edges)
  {
    hide Selected, RelatedEdgesOf, Touches, Less, Sort;
    edges := FilterEdges(related, nodes);
    assert forall e :: e in related <==> e in Members(related);
    assert forall n :: n in found <==> n in Members(found);
    EdgeIDsWeak();
    SortOrders(EdgeIDLess(), edges);
    MembersOf(edges, Sort(EdgeIDLess(), edges));
    edges := Sort(EdgeIDLess(), edges);
  }

  // ---------------------------------------------------------------- the answer in plain terms

  /** The edge connects the node to the one the query names, in a direction the query asks for. */
  ghost predicate Connects(e: Edge, id: string, query: NodeQuery) {
    var to, way := Trim(query.relatedNodeID), Trim(query.relatedDirection);
    && to != "" && (query.includeDeleted || !e.deleted)
    && (Trim(query.relatedEdgeType) == "" || e.edgeType == Trim(query.relatedEdgeType))
    && (|| ((way == "" || way == "outgoing") && e.fromNodeID == to && e.toNodeID == id)
        || ((way == "" || way == "incoming") && e.toNodeID == to && e.fromNodeID == id))
  }

  ghost predicate NodeAskedFor(s: Store, n: Node, query: NodeQuery)
    reads s
  {
    && (query.includeDeleted || !n.deleted)
    && (Trim(query.nodeType) == "" || n.nodeType == Trim(query.nodeType))
    && (query.updatedAfter == 0 || query.updatedAfter < n.stamp.updatedAt)
    && (query.updatedBefore == 0 || n.stamp.updatedAt < query.updatedBefore)
    && (var wanted := NormalizeMap(query.attributes);
        forall k :: k in wanted ==> (if k in n.attributes then n.attributes[k] else "") == wanted[k])
    && (Trim(query.relatedNodeID) == "" || exists k :: k in s.edges && Connects(s.edges[k], n.id, query))
  }

  /** The nodes of an answer: the most recently updated first, ties by id; one that is left out is
      no more recent than any that is in, and then the limit is reached. */
  ghost predicate NodesAnswer(s: Store, query: NodeQuery, nodes: seq<Node>)
    reads s
  {
    && (forall i, j :: 0 <= i < j < |nodes| ==>
          || nodes[i].stamp.updatedSeq > nodes[j].stamp.updatedSeq
          || (nodes[i].stamp.updatedSeq == nodes[j].stamp.updatedSeq && Less(nodes[i].id, nodes[j].id)))
    && (forall x :: x in nodes ==> x.id in s.nodes && s.nodes[x.id] == x && NodeAskedFor(s, x, query))
    && (forall id :: id in s.nodes && NodeAskedFor(s, s.nodes[id], query) && s.nodes[id] !in nodes ==>
          && 0 < query.limit == |nodes|
          && forall x :: x in nodes ==>
               || x.stamp.updatedSeq > s.nodes[id].stamp.updatedSeq
               || (x.stamp.updatedSeq == s.nodes[id].stamp.updatedSeq && Less(x.id, id)))
    && (0 < query.limit ==> |nodes| <= query.limit)
  }

  lemma ConnectsIff(e: Edge, id: string, query: NodeQuery)
    ensures Trim(query.relatedNodeID) != "" && Related(e, id, NormalizeNodeQuery(query)) <==> Connects(e, id, query)
  {
    hide Trim, NormalizeMap;
  }

  lemma NodeAskedForIff(s: Store, n: Node, query: NodeQuery)
    ensures Selected(s, n, NormalizeNodeQuery(query)) <==> NodeAskedFor(s, n, query)
  {
    hide Trim, NormalizeMap, Related, Connects;
    var q := NormalizeNodeQuery(query);
    forall k | k in s.edges
      ensures q.relatedNodeID != "" && Related(s.edges[k], n.id, q) <==> Connects(s.edges[k], n.id, query)
    {
      ConnectsIff(s.edges[k], n.id, query);
    }
    if q.relatedNodeID != "" {
      RelatedEdgesExist(s, n.id, q);
    }
  }

  lemma RelatedEdgesExist(s: Store, id: string, q: NodeQuery)
    requires q.relatedNodeID != ""
    ensures RelatedEdgesOf(s, id, q) != {} <==> exists k :: k in s.edges && Related(s.edges[k], id, q)
  {
    hide Related;
    if k :| k in s.edges && Related(s.edges[k], id, q) { assert s.edges[k] in RelatedEdgesOf(s, id, q); }
  }

  lemma NodesAnswerIs(s: Store, query: NodeQuery, nodes: seq<Node>)
    requires forall id :: id in s.nodes ==> s.nodes[id].id == id
    requires var q := NormalizeNodeQuery(query); TopOf(NodeBefore(), MatchingNodes(s, q), q.limit, nodes)
    ensures NodesAnswer(s, query, nodes)
  {
    hide Less, Trim, NormalizeMap, Selected, NodeAskedFor, TopOf, Orders;
    var q := NormalizeNodeQuery(query);
    var of := MatchingNodes(s, q);
    forall id | id in s.nodes ensures Selected(s, s.nodes[id], q) <==> NodeAskedFor(s, s.nodes[id], query) {
      NodeAskedForIff(s, s.nodes[id], query);
    }
    ByOrders((x: Node) => -(x.stamp.updatedSeq as int), (x: Node) => x.id, of);
    TopMeans(NodeBefore(), of, q.limit, nodes);
    assert forall id :: id in s.nodes && NodeAskedFor(s, s.nodes[id], query) ==> s.nodes[id] in of;
  }

  /** The edges of an answer: those that connect a matching node, even one the limit cut off, as
      far as they start or end at a node of the answer; by id. */
  ghost predicate EdgesAnswer(s: Store, query: NodeQuery, nodes: seq<Node>, edges: seq<Edge>)
    reads s
  {
    && (forall i, j :: 0 <= i < j < |edges| ==> !Less(edges[j].id, edges[i].id))
    && (forall e :: e in edges ==> e.id in s.edges && s.edges[e.id] == e)
    && forall k :: k in s.edges ==>
         (s.edges[k] in edges <==>
            && (exists id :: id in s.nodes && NodeAskedFor(s, s.nodes[id], query) && Connects(s.edges[k], id, query))
            && exists x :: x in nodes && (x.id == s.edges[k].fromNodeID || x.id == s.edges[k].toNodeID))
  }

  lemma EdgesAnswerIs(s: Store, query: NodeQuery, nodes: seq<Node>, edges: seq<Edge>)
    requires s.Consistent() && MatchEdgesOf(s, nodes, NormalizeNodeQuery(query), edges)
    ensures EdgesAnswer(s, query, nodes, edges)
  {
    hide Less, Trim, NormalizeMap, Selected, NodeAskedFor, Related, Connects, Indexed, Sound;
    NamedEdges(s);
    var q := NormalizeNodeQuery(query);
    forall id | id in s.nodes ensures Selected(s, s.nodes[id], q) <==> NodeAskedFor(s, s.nodes[id], query) {
      NodeAskedForIff(s, s.nodes[id], query);
    }
    forall k, id | k in s.edges && id in s.nodes
      ensures Connects(s.edges[k], id, query) <==> s.edges[k] in RelatedEdgesOf(s, id, q)
    {
      ConnectsIff(s.edges[k], id, query);
    }
    forall e ensures e in edges <==> e in Members(edges) {}
    forall k | k in s.edges
      ensures Touches(s.edges[k], Members(NodeIDs(nodes))) <==>
        exists x :: x in nodes && (x.id == s.edges[k].fromNodeID || x.id == s.edges[k].toNodeID)
    {
      TouchesIff(s.edges[k], nodes);
    }
    forall i, j | 0 <= i < j < |edges| ensures !Less(edges[j].id, edges[i].id) {
      assert !EdgeIDLess()(edges[j], edges[i]);
    }
  }

  lemma TouchesIff(e: Edge, nodes: seq<Node>)
    ensures Touches(e, Members(NodeIDs(nodes))) <==>
      exists x :: x in nodes && (x.id == e.fromNodeID || x.id == e.toNodeID)
  {
    var ids := NodeIDs(nodes);
    if x :| x in nodes && (x.id == e.fromNodeID || x.id == e.toNodeID) {
      var i :| 0 <= i < |nodes| && nodes[i] == x;
      assert ids[i] in Members(ids);
    }
    if Touches(e, Members(ids)) {
      var i :| 0 <= i < |ids| && (ids[i] == e.fromNodeID || ids[i] == e.toNodeID);
      assert nodes[i] in nodes;
    }
  }

  /** The query draws the edge into the expansion of a node, with the node at its other end: as a
      parent, a child or evidence, of the type asked for, and not deleted unless that is asked for. */
  ghost predicate Draws(s: Store, e: Edge, id: string, other: string, query: NodeQuery)
    reads s
  {
    && (query.includeDeleted || !e.deleted)
    && other in s.nodes && (query.includeDeleted || !s.nodes[other].deleted)
    && (|| (query.expandParents && e.toNodeID == id && e.fromNodeID == other
            && (Trim(query.parentEdgeType) == "" || e.edgeType == Trim(query.parentEdgeType)))
        || (query.expandChildren && e.fromNodeID == id && e.toNodeID == other
            && (Trim(query.childEdgeType) == "" || e.edgeType == Trim(query.childEdgeType)))
        || (query.expandEvidence && e.toNodeID == id && e.fromNodeID == other
            && e.edgeType == if Trim(query.evidenceEdgeType) == "" then "evidence_for"
                             else Trim(query.evidenceEdgeType)))
  }

  /** The expansion of an answer: what the query draws from its nodes, by id, each once. */
  ghost predicate ExpansionAnswer(s: Store, query: NodeQuery, nodes: seq<Node>, t: Traversal)
    reads s
  {
    && (forall i, j :: 0 <= i < j < |t.nodes| ==> Less(t.nodes[i].id, t.nodes[j].id))
    && (forall i, j :: 0 <= i < j < |t.edges| ==> Less(t.edges[i].id, t.edges[j].id))
    && (forall x :: x in t.nodes ==> x.id in s.nodes && s.nodes[x.id] == x)
    && (forall e :: e in t.edges ==> e.id in s.edges && s.edges[e.id] == e)
    && (forall k :: k in s.edges ==>
          (s.edges[k] in t.edges <==> exists x, other :: x in nodes && Draws(s, s.edges[k], x.id, other, query)))
    && (forall other :: other in s.nodes ==>
          (s.nodes[other] in t.nodes <==>
             exists x, k :: x in nodes && k in s.edges && Draws(s, s.edges[k], x.id, other, query)))
  }

  lemma DrawsIff(s: Store, k: string, id: string, query: NodeQuery)
    requires k in s.edges
    ensures k in ExpansionEdges(s, id, NormalizeNodeQuery(query)) <==>
      exists other :: Draws(s, s.edges[k], id, other, query)
  {
    hide Trim, NormalizeMap;
    var e := s.edges[k];
    TrimFixes(Trim(query.evidenceEdgeType));
    if k in ExpansionEdges(s, id, NormalizeNodeQuery(query)) {
      assert Draws(s, e, id, e.fromNodeID, query) || Draws(s, e, id, e.toNodeID, query);
    }
  }

  lemma DrawnIff(s: Store, other: string, id: string, query: NodeQuery)
    ensures other in ExpansionNodes(s, id, NormalizeNodeQuery(query)) <==>
      exists k :: k in s.edges && Draws(s, s.edges[k], id, other, query)
  {
    hide Trim, NormalizeMap;
    TrimFixes(Trim(query.evidenceEdgeType));
    var q := NormalizeNodeQuery(query);
    if k :| k in s.edges && Draws(s, s.edges[k], id, other, query) {
      assert k in NeighbourEdges(s, id, ParentQuery(q), false) || k in NeighbourEdges(s, id, ChildQuery(q), true)
          || k in NeighbourEdges(s, id, EvidenceQuery(q), false);
    }
  }

  lemma ListedByID(s: Store, q: NodeQuery, nodes: seq<Node>, t: Traversal)
    requires s.Consistent() && ExpansionOf(s, nodes, q, t)
    ensures forall i, j :: 0 <= i < j < |t.nodes| ==> Less(t.nodes[i].id, t.nodes[j].id)
    ensures forall i, j :: 0 <= i < j < |t.edges| ==> Less(t.edges[i].id, t.edges[j].id)
    ensures forall k :: k in s.edges ==> (s.edges[k] in t.edges <==> k in AllExpansionEdges(s, nodes, q))
    ensures forall k :: k in s.nodes ==> (s.nodes[k] in t.nodes <==> k in AllExpansionNodes(s, nodes, q))
  {
    hide Less, Indexed, Sound, AllExpansionNodes, AllExpansionEdges;
    NamedEdges(s);
    var ns, es := NodeIDs(t.nodes), EdgeIDs(t.edges);
    forall i, j | 0 <= i < j < |t.nodes| ensures Less(t.nodes[i].id, t.nodes[j].id) { assert Less(ns[i], ns[j]); }
    forall i, j | 0 <= i < j < |t.edges| ensures Less(t.edges[i].id, t.edges[j].id) { assert Less(es[i], es[j]); }
    forall k | k in s.edges ensures s.edges[k] in t.edges <==> k in Members(es) {
      if s.edges[k] in t.edges { var i :| 0 <= i < |es| && t.edges[i] == s.edges[k]; assert es[i] == k; }
      if k in Members(es) { var i :| 0 <= i < |es| && es[i] == k; assert t.edges[i] in t.edges; }
    }
    forall k | k in s.nodes ensures s.nodes[k] in t.nodes <==> k in Members(ns) {
      if s.nodes[k] in t.nodes { var i :| 0 <= i < |ns| && t.nodes[i] == s.nodes[k]; assert ns[i] == k; }
      if k in Members(ns) { var i :| 0 <= i < |ns| && ns[i] == k; assert t.nodes[i] in t.nodes; }
    }
  }

  lemma ExpansionAnswerIs(s: Store, query: NodeQuery, nodes: seq<Node>, t: Traversal)
    requires s.Consistent() && ExpansionOf(s, nodes, NormalizeNodeQuery(query), t)
    ensures ExpansionAnswer(s, query, nodes, t)
  {
    hide Less, Trim, NormalizeMap, Indexed, Sound, Draws, ExpansionNodes, ExpansionEdges;
    var q := NormalizeNodeQuery(query);
    ListedByID(s, q, nodes, t);
    forall k, x | k in s.edges && x in nodes
      ensures k in ExpansionEdges(s, x.id, q) <==> exists other :: Draws(s, s.edges[k], x.id, other, query)
    {
      DrawsIff(s, k, x.id, query);
    }
    forall other, x | other in s.nodes && x in nodes
      ensures other in ExpansionNodes(s, x.id, q) <==>
        exists k :: k in s.edges && Draws(s, s.edges[k], x.id, other, query)
    {
      DrawnIff(s, other, x.id, query);
    }
  }

  /** A node of the answer or of its expansion names the record, in the attribute asked for. */
  ghost predicate Cites(nodes: seq<Node>, query: NodeQuery, recordID: string) {
    var key := if Trim(query.spanAttribute) == "" then "record_id" else Trim(query.spanAttribute);
    recordID != "" && exists x :: x in nodes && key in x.attributes && Trim(x.attributes[key]) == recordID
  }

  /** The spans of an answer: none unless asked for, otherwise every span of a cited record, read,
      the most recently updated first, ties by id. */
  ghost predicate SpansAnswer(s: Store, query: NodeQuery, nodes: seq<Node>, spans: seq<SpanRead>)
    reads s
  {
    && (forall i, j :: 0 <= i < j < |spans| ==>
          || spans[i].span.stamp.updatedSeq > spans[j].span.stamp.updatedSeq
          || (spans[i].span.stamp.updatedSeq == spans[j].span.stamp.updatedSeq
              && Less(spans[i].span.id, spans[j].span.id)))
    && (forall x :: x in spans ==> x.span.id in s.sourceSpans && ReadOf(s.chunks, s.sourceSpans[x.span.id], x))
    && forall id :: (exists x :: x in spans && x.span.id == id) <==>
         query.expandSourceSpans && id in s.sourceSpans && Cites(nodes, query, s.sourceSpans[id].recordID)
  }

  lemma CitesIff(nodes: seq<Node>, query: NodeQuery, recordID: string)
    ensures recordID in CitedRecords(nodes, NormalizeNodeQuery(query).spanAttribute) <==> Cites(nodes, query, recordID)
  {
    hide Trim, NormalizeMap;
    TrimEmpty();
  }

  lemma TrimEmpty()
    ensures Trim("") == ""
  {
  }

  lemma SpansAnswerIs(s: Store, query: NodeQuery, nodes: seq<Node>, expanded: Traversal, spans: seq<SpanRead>)
    requires SpansOf(s, nodes, expanded, NormalizeNodeQuery(query), spans)
    ensures SpansAnswer(s, query, nodes + expanded.nodes, spans)
  {
    hide Less, Trim, NormalizeMap, ReadOf, CitedRecords, Cites;
    var all, key := nodes + expanded.nodes, NormalizeNodeQuery(query).spanAttribute;
    MembersOfIDs(spans);
    forall id | id in s.sourceSpans
      ensures s.sourceSpans[id].recordID in CitedRecords(all, key) <==> Cites(all, query, s.sourceSpans[id].recordID)
    {
      CitesIff(all, query, s.sourceSpans[id].recordID);
    }
    if query.expandSourceSpans {
      forall i, j | 0 <= i < j < |spans| ensures SpanReadBefore()(spans[i], spans[j]) {}
      forall id ensures (exists x :: x in spans && x.span.id == id) <==>
        id in s.sourceSpans && Cites(all, query, s.sourceSpans[id].recordID)
      {
        assert (exists x :: x in spans && x.span.id == id) <==> id in Members(SpanIDs(spans));
      }
    }
  }

  /** Exactly the selected nodes, latest first, cut at the limit, with the edges that select
      them, their expansion and the spans they cite. The query never fails. */
  method QueryNodes(s: Store, query: NodeQuery) returns (r: Result<NodeQueryResult>)
    requires s.Consistent()
    ensures r.Ok?
    ensures var q := NormalizeNodeQuery(query);
      && TopOf(NodeBefore(), MatchingNodes(s, q), q.limit, r.value.nodes)
      && MatchEdgesOf(s, r.value.nodes, q, r.value.matchEdges)
      && (q.includeCandidates ==> Ranks(Less, Members(NodeIDs(r.value.nodes)), r.value.candidateIDs))
      && ExpansionOf(s, r.value.nodes, q, r.value.expanded)
      && SpansOf(s, r.value.nodes, r.value.expanded, q, r.value.spans)
    ensures NodesAnswer(s, query, r.value.nodes) && EdgesAnswer(s, query, r.value.nodes, r.value.matchEdges)
    ensures ExpansionAnswer(s, query, r.value.nodes, r.value.expanded)
    ensures SpansAnswer(s, query, r.value.nodes + r.value.expanded.nodes, r.value.spans)
    ensures Members(r.value.candidateIDs) == if query.includeCandidates then set x | x in r.value.nodes :: x.id else {}
  {
    hide NodesAnswer, EdgesAnswer, ExpansionAnswer, SpansAnswer, Indexed, Sound, Less, Selected, By, TopOf,
      ExpansionOf, SpansOf, Sort, Orders, Trim, NormalizeMap, MatchEdgesOf, Ranks, AllRelated;
    var q := NormalizeNodeQuery(query);
    var found, related := SelectNodes(s, q);
    NamedEdges(s);
    assert forall n :: n in MatchingNodes(s, q) ==> n.id in s.nodes && s.nodes[n.id] == n;
    ByOrders((n: Node) => -(n.stamp.updatedSeq as int), (n: Node) => n.id, MatchingNodes(s, q));
    SortIsTop(NodeBefore(), found, MatchingNodes(s, q), q.limit);
    var nodes := Limited(Sort(NodeBefore(), found), q.limit);
    var edges := MatchEdges(s, found, related, nodes, q);
    var candidates: seq<string> := [];
    if q.includeCandidates { candidates := Listed(Members(NodeIDs(nodes))); }
    var expanded := ExpandQueryResult(s, nodes, q);
    var spans := ReadSpansOf(s, nodes, expanded, q);
    NodesAnswerIs(s, query, nodes);
    EdgesAnswerIs(s, query, nodes, edges);
    ExpansionAnswerIs(s, query, nodes, expanded);
    SpansAnswerIs(s, query, nodes, expanded, spans.value);
    CandidatesAre(nodes, q.includeCandidates, candidates);
    r := Ok(NodeQueryResult(nodes, edges, candidates, expanded, spans.value));
  }

  lemma CandidatesAre(nodes: seq<Node>, wanted: bool, candidates: seq<string>)
    requires if wanted then Ranks(Less, Members(NodeIDs(nodes)), candidates) else candidates == []
    ensures Members(candidates) == if wanted then set x | x in nodes :: x.id else {}
  {
    hide Less;
    var ids := NodeIDs(nodes);
    forall x | x in nodes ensures x.id in Members(ids) {
      var i :| 0 <= i < |nodes| && nodes[i] == x;
      assert ids[i] == x.id;
    }
    forall id | id in Members(ids) ensures exists x :: x in nodes && x.id == id {
      var i :| 0 <= i < |ids| && ids[i] == id;
      assert nodes[i] in nodes;
    }
  }
}
