/** The layout: ranked cells, forward edges chained rank by rank, and cells ordered within ranks. */
module GraphLayouts {
  import opened GraphPaths
  import opened GraphEdges
  import opened BackEdges
  import opened GraphLevels
  import opened GraphRanks
  import opened GraphCells

  datatype GraphLayout = GraphLayout(
    ranks: seq<seq<Cell>>, edges: seq<GraphEdge>, segments: seq<Segment>, rankOfNode: map<NodeId, nat>)

  // ---- What the layout should hold -----------------------------------------------------------

  /** The edges drawn as forward chains. */
  predicate Kept(e: GraphEdge, rank: map<NodeId, nat>) {
    !e.isBackEdge && e.from in rank && e.to in rank && rank[e.from] < rank[e.to]
  }

  function NodesAt(ordered: seq<NodeId>, rank: map<NodeId, nat>, r: nat): seq<Cell> {
    if ordered == [] then []
    else
      var v := ordered[|ordered| - 1];
      NodesAt(ordered[..|ordered| - 1], rank, r) + if v in rank && rank[v] == r then [Node(v)] else []
  }

  predicate PassesThrough(e: GraphEdge, rank: map<NodeId, nat>, r: nat) {
    Kept(e, rank) && rank[e.from] < r < rank[e.to]
  }

  /** One pass-through cell for each kept edge that crosses rank `r`. */
  function VirtualsAt(edges: seq<GraphEdge>, rank: map<NodeId, nat>, r: nat): seq<Cell> {
    if edges == [] then []
    else
      var e := edges[|edges| - 1];
      VirtualsAt(edges[..|edges| - 1], rank, r) + if PassesThrough(e, rank, r) then [Virtual(e.edgeId)] else []
  }

  /** The cell through which the chain of `e` passes rank `r`. */
  function ChainCell(e: GraphEdge, rank: map<NodeId, nat>, r: nat): Cell
    requires Kept(e, rank)
  {
    if r == rank[e.from] then Node(e.from) else if r == rank[e.to] then Node(e.to) else Virtual(e.edgeId)
  }

  function ChainLink(e: GraphEdge, rank: map<NodeId, nat>, r: nat): Link
    requires Kept(e, rank)
  {
    Link(e.edgeId, r, ChainCell(e, rank, r), ChainCell(e, rank, r + 1), if r == rank[e.from] then e.caseLabel else None)
  }

  /** One link per rank gap, from the source node through the edge's own cells to the target node. */
  function ChainLinks(e: GraphEdge, rank: map<NodeId, nat>): (links: seq<Link>)
    requires Kept(e, rank)
    ensures |links| == rank[e.to] - rank[e.from]
    ensures forall k :: 0 <= k < |links| ==> links[k] == ChainLink(e, rank, rank[e.from] + k)
  {
    seq(rank[e.to] - rank[e.from], k requires k >= 0 => ChainLink(e, rank, rank[e.from] + k))
  }

  function Links(edges: seq<GraphEdge>, rank: map<NodeId, nat>): seq<Link> {
    if edges == [] then []
    else
      var e := edges[|edges| - 1];
      Links(edges[..|edges| - 1], rank) + if Kept(e, rank) then ChainLinks(e, rank) else []
  }

  /** Each rank holds its nodes and its pass-through cells, each once. */
  ghost predicate HoldsCells(
    ranks: seq<seq<Cell>>, ordered: seq<NodeId>, edges: seq<GraphEdge>, rank: map<NodeId, nat>)
  {
    forall r :: 0 <= r < |ranks| ==>
      multiset(ranks[r]) == multiset(NodesAt(ordered, rank, r) + VirtualsAt(edges, rank, r))
  }

  // ---- Placing nodes -------------------------------------------------------------------------

  datatype CellRef = CellRef(rank: nat, index: nat)

  /** `ref` points at `cell`. */
  ghost predicate PointsAt(ranks: seq<seq<Cell>>, ref: CellRef, cell: Cell) {
    ref.rank < |ranks| && ref.index < |ranks[ref.rank]| && ranks[ref.rank][ref.index] == cell
  }

  ghost predicate RefsHold(ranks: seq<seq<Cell>>, refs: map<NodeId, CellRef>, rank: map<NodeId, nat>) {
    forall v :: v in refs ==> v in rank && refs[v].rank == rank[v] && PointsAt(ranks, refs[v], Node(v))
  }

  /** `ranks` is `was` with cells appended to some ranks. */
  ghost predicate Appended(ranks: seq<seq<Cell>>, was: seq<seq<Cell>>) {
    |ranks| == |was| && forall r :: 0 <= r < |ranks| ==> was[r] <= ranks[r]
  }

  lemma AppendKeepsRefs(ranks: seq<seq<Cell>>, was: seq<seq<Cell>>, refs: map<NodeId, CellRef>, rank: map<NodeId, nat>)
    requires Appended(ranks, was) && RefsHold(was, refs, rank)
    ensures RefsHold(ranks, refs, rank)
  {
    forall v | v in refs ensures PointsAt(ranks, refs[v], Node(v)) {
      assert PointsAt(was, refs[v], Node(v));
    }
  }

  lemma AppendKeepsView(ranks: seq<seq<Cell>>, was: seq<seq<Cell>>, segments: seq<Segment>, links: seq<Link>)
    requires Appended(ranks, was) && View(was, segments, links)
    ensures View(ranks, segments, links)
  {
    forall i | 0 <= i < |links| ensures Joins(ranks, segments[i], links[i]) {
      assert Joins(was, segments[i], links[i]);
      assert was[segments[i].rank] <= ranks[segments[i].rank];
      assert was[segments[i].rank + 1] <= ranks[segments[i].rank + 1];
    }
  }

  /** Appending a node to its rank leaves its reference, and every other, in place. */
  lemma PlacedRefsHold(was: seq<seq<Cell>>, ranks: seq<seq<Cell>>, refs: map<NodeId, CellRef>, rank: map<NodeId, nat>,
      nodeId: NodeId)
    requires RefsHold(was, refs, rank) && nodeId in rank && rank[nodeId] < |was|
    requires ranks == was[rank[nodeId] := was[rank[nodeId]] + [Node(nodeId)]]
    ensures RefsHold(ranks, refs[nodeId := CellRef(rank[nodeId], |was[rank[nodeId]]|)], rank)
  {
    assert Appended(ranks, was);
    AppendKeepsRefs(ranks, was, refs, rank);
    assert PointsAt(ranks, CellRef(rank[nodeId], |was[rank[nodeId]]|), Node(nodeId));
    hide PointsAt, Appended;
  }

  lemma NodesAtNext(ordered: seq<NodeId>, rank: map<NodeId, nat>, k: nat, r: nat)
    requires k < |ordered| && forall v :: v in ordered ==> v in rank
    ensures NodesAt(ordered[..k + 1], rank, r) == NodesAt(ordered[..k], rank, r) + if rank[ordered[k]] == r
        then [Node(ordered[k])] else []
  {
    assert ordered[..k + 1][..k] == ordered[..k];
  }

  lemma NothingReferred(ranks: seq<seq<Cell>>, rank: map<NodeId, nat>)
    ensures RefsHold(ranks, map[], rank)
  {
  }

  lemma NothingAt(ordered: seq<NodeId>, rank: map<NodeId, nat>, r: nat)
    requires ordered == []
    ensures NodesAt(ordered, rank, r) == []
  {
  }

  method PlaceNodes(ordered: seq<NodeId>, rank: map<NodeId, nat>, ranks: array<seq<Cell>>)
      returns (refs: map<NodeId, CellRef>)
    requires forall v :: v in ordered ==> v in rank && rank[v] < ranks.Length
    requires forall r :: 0 <= r < ranks.Length ==> ranks[r] == []
    modifies ranks
    ensures forall r :: 0 <= r < ranks.Length ==> ranks[r] == NodesAt(ordered, rank, r)
    ensures refs.Keys == (set v | v in ordered)
    ensures RefsHold(ranks[..], refs, rank)
  {
    refs := map[];
    hide RefsHold, NodesAt;
    assert RefsHold(ranks[..], refs, rank) by { NothingReferred(ranks[..], rank); }
    forall r | 0 <= r < ranks.Length { NothingAt(ordered[..0], rank, r); }
    for k := 0 to |ordered|
      invariant forall r :: 0 <= r < ranks.Length ==> ranks[r] == NodesAt(ordered[..k], rank, r)
      invariant refs.Keys == (set v | v in ordered[..k])
      invariant RefsHold(ranks[..], refs, rank)
    {
      var nodeId := ordered[k];
      assert ordered[..k + 1] == ordered[..k] + [nodeId];
      forall r | 0 <= r < ranks.Length { NodesAtNext(ordered, rank, k, r); }
      ghost var was := ranks[..];
      var r := rank[nodeId];
      PlacedRefsHold(was, was[r := was[r] + [Node(nodeId)]], refs, rank, nodeId);
      refs := refs[nodeId := CellRef(r, |ranks[r]|)];
      ranks[r] := ranks[r] + [Node(nodeId)];
      assert ranks[..] == was[r := was[r] + [Node(nodeId)]];
    }
    assert ordered[..|ordered|] == ordered;
  }

  // ---- Chaining edges ------------------------------------------------------------------------

  /** A segment from `previous` to cell `index` of the next rank. */
  function SegmentTo(e: GraphEdge, fromRank: nat, previous: CellRef, index: nat): Segment {
    Segment(e.edgeId, previous.rank, previous.index, index, if previous.rank == fromRank then e.caseLabel else None)
  }

  lemma SegmentJoins(ranks: seq<seq<Cell>>, e: GraphEdge, rank: map<NodeId, nat>, previous: CellRef, next: CellRef)
    requires Kept(e, rank) && next.rank == previous.rank + 1
    requires PointsAt(ranks, previous, ChainCell(e, rank, previous.rank))
    requires PointsAt(ranks, next, ChainCell(e, rank, next.rank))
    ensures Joins(ranks, SegmentTo(e, rank[e.from], previous, next.index), ChainLink(e, rank, previous.rank))
  {
  }

  lemma ViewSnoc(ranks: seq<seq<Cell>>, segments: seq<Segment>, links: seq<Link>, s: Segment, link: Link)
    requires View(ranks, segments, links) && Joins(ranks, s, link)
    ensures View(ranks, segments + [s], links + [link])
  {
  }

  method ChainEdge(e: GraphEdge, rank: map<NodeId, nat>, refs: map<NodeId, CellRef>, ranks: array<seq<Cell>>,
                   segments: seq<Segment>, ghost links: seq<Link>) returns (segments': seq<Segment>)
    requires Kept(e, rank) && e.from in refs && e.to in refs
    requires RefsHold(ranks[..], refs, rank)
    requires View(ranks[..], segments, links)
    modifies ranks
    ensures forall r :: 0 <= r < ranks.Length ==>
      ranks[r] == old(ranks[r]) + if PassesThrough(e, rank, r) then [Virtual(e.edgeId)] else []
    ensures RefsHold(ranks[..], refs, rank)
    ensures View(ranks[..], segments', links + ChainLinks(e, rank))
  {
    hide View, RefsHold, Joins;
    var fromRank, toRank := rank[e.from], rank[e.to];
    EndsHold(ranks[..], refs, rank, e);
    var previous := refs[e.from];
    ghost var chain := ChainLinks(e, rank);
    segments' := segments;
    assert links + chain[..0] == links;
    for r := fromRank + 1 to toRank
      invariant forall k :: 0 <= k < ranks.Length ==>
        ranks[k] == old(ranks[k]) + if fromRank < k < r then [Virtual(e.edgeId)] else []
      invariant previous.rank == r - 1 && PointsAt(ranks[..], previous, ChainCell(e, rank, r - 1))
      invariant RefsHold(ranks[..], refs, rank)
      invariant View(ranks[..], segments', links + chain[..r - 1 - fromRank])
    {
      ghost var was := ranks[..];
      var index := |ranks[r]|;
      ranks[r] := ranks[r] + [Virtual(e.edgeId)];
      assert Appended(ranks[..], was);
      AppendKeepsRefs(ranks[..], was, refs, rank);
      AppendKeepsView(ranks[..], was, segments', links + chain[..r - 1 - fromRank]);
      assert PointsAt(ranks[..], CellRef(r, index), ChainCell(e, rank, r));
      SegmentJoins(ranks[..], e, rank, previous, CellRef(r, index));
      ViewSnoc(ranks[..], segments', links + chain[..r - 1 - fromRank],
               SegmentTo(e, fromRank, previous, index), ChainLink(e, rank, r - 1));
      assert links + chain[..r - fromRank] == links + chain[..r - 1 - fromRank] + [ChainLink(e, rank, r - 1)];
      segments' := segments' + [SegmentTo(e, fromRank, previous, index)];
      previous := CellRef(r, index);
    }
    EndsHold(ranks[..], refs, rank, e);
    SegmentJoins(ranks[..], e, rank, previous, refs[e.to]);
    ViewSnoc(ranks[..], segments', links + chain[..toRank - 1 - fromRank],
             SegmentTo(e, fromRank, previous, refs[e.to].index), ChainLink(e, rank, toRank - 1));
    assert links + chain == links + chain[..toRank - 1 - fromRank] + [ChainLink(e, rank, toRank - 1)];
    segments' := segments' + [SegmentTo(e, fromRank, previous, refs[e.to].index)];
  }

  lemma EndsHold(ranks: seq<seq<Cell>>, refs: map<NodeId, CellRef>, rank: map<NodeId, nat>, e: GraphEdge)
    requires RefsHold(ranks, refs, rank) && Kept(e, rank) && e.from in refs && e.to in refs
    ensures refs[e.from].rank == rank[e.from] && PointsAt(ranks, refs[e.from], ChainCell(e, rank, rank[e.from]))
    ensures refs[e.to].rank == rank[e.to] && PointsAt(ranks, refs[e.to], ChainCell(e, rank, rank[e.to]))
  {
  }

  lemma NothingChained(edges: seq<GraphEdge>, rank: map<NodeId, nat>, ranks: seq<seq<Cell>>)
    requires edges == []
    ensures (forall r :: VirtualsAt(edges, rank, r) == []) && View(ranks, [], Links(edges, rank))
  {
  }

  lemma ChainedNext(edges: seq<GraphEdge>, rank: map<NodeId, nat>, j: nat)
    requires j < |edges|
    ensures Links(edges[..j + 1], rank) == Links(edges[..j], rank) + if Kept(edges[j], rank)
        then ChainLinks(edges[j], rank) else []
    ensures forall r :: VirtualsAt(edges[..j + 1], rank, r)
                        == VirtualsAt(edges[..j], rank, r) + if PassesThrough(edges[j], rank, r)
                          then [Virtual(edges[j].edgeId)] else []
    ensures !Kept(edges[j], rank) ==> forall r :: !PassesThrough(edges[j], rank, r)
  {
    assert edges[..j + 1][..j] == edges[..j];
  }

  method ChainEdges(edges: array<GraphEdge>, rank: map<NodeId, nat>, refs: map<NodeId, CellRef>,
      ranks: array<seq<Cell>>)
    returns (segments: seq<Segment>)
    requires refs.Keys == rank.Keys && RefsHold(ranks[..], refs, rank)
    modifies ranks
    ensures forall r :: 0 <= r < ranks.Length ==> ranks[r] == old(ranks[r]) + VirtualsAt(edges[..], rank, r)
    ensures View(ranks[..], segments, Links(edges[..], rank))
  {
    segments := [];
    hide View, RefsHold, VirtualsAt, Links, PassesThrough;
    NothingChained(edges[..0], rank, ranks[..]);
    for j := 0 to edges.Length
      invariant forall r :: 0 <= r < ranks.Length ==> ranks[r] == old(ranks[r]) + VirtualsAt(edges[..j], rank, r)
      invariant RefsHold(ranks[..], refs, rank)
      invariant View(ranks[..], segments, Links(edges[..j], rank))
    {
      ChainedNext(edges[..], rank, j);
      assert edges[..][..j] == edges[..j] && edges[..][..j + 1] == edges[..j + 1];
      assert Links(edges[..j], rank) + [] == Links(edges[..j], rank);
      if Kept(edges[j], rank) {
        segments := ChainEdge(edges[j], rank, refs, ranks, segments, Links(edges[..j], rank));
      }
    }
    assert edges[..edges.Length] == edges[..];
  }

  // ---- The whole layout ----------------------------------------------------------------------

  /** What a layout of `snapshot` promises; `ordered` is the order its nodes were listed in. */
  ghost predicate LaysOut(snapshot: Snapshot, layout: GraphLayout, ordered: seq<NodeId>) {
    var g := Arcs(layout.edges);
    && SameEdges(layout.edges, ExpandEdges(snapshot))
    && Covers(g, snapshot.startAt, snapshot.nodes, ordered)
    && ByDistance(g, snapshot.startAt, ordered)
    && (exists order :: Marked(layout.edges, ordered, order))
    && Ranked(snapshot.startAt, ordered, ForwardEdges(layout.edges), layout.rankOfNode)
    && layout.rankOfNode.Keys == (set v | v in ordered)
    && |layout.ranks| > 0 && IsMax(layout.rankOfNode, |layout.ranks| - 1)
    && HoldsCells(layout.ranks, ordered, layout.edges, layout.rankOfNode)
    && View(layout.ranks, layout.segments, Links(layout.edges, layout.rankOfNode))
    && SettledFrom(layout.ranks, layout.segments, 0)
    && (forall e :: e in layout.edges && !e.isBackEdge && Reaches(g, snapshot.startAt, e.from) ==>
          Kept(e, layout.rankOfNode))
  }

  method LayoutGraph(snapshot: Snapshot) returns (layout: GraphLayout)
    ensures exists ordered :: LaysOut(snapshot, layout, ordered)
  {
    var expanded := ExpandEdges(snapshot);
    ExpandedUnmarked(snapshot);
    hide HoldsCells, View, SettledFrom, Covers, ByDistance, Marked, Ranked, Kept, Reaches, IsMax, ExpandEdges,
        ForwardEdges, Links;
    var edges := new GraphEdge[|expanded|](i requires 0 <= i < |expanded| => expanded[i]);
    assert edges[..] == expanded;
    var orderedNodeIds := BfsOrder(snapshot.startAt, snapshot.nodes, edges);
    var rankOfNode;
    rankOfNode := MarkAndRank(snapshot, edges, orderedNodeIds);
    var ranks, segments := DrawRanks(orderedNodeIds, rankOfNode, edges);
    layout := GraphLayout(ranks, edges[..], segments, rankOfNode);
    assert LaysOut(snapshot, layout, orderedNodeIds);
  }

  /** Place the nodes, chain the kept edges, and order every rank. */
  method DrawRanks(ordered: seq<NodeId>, rankOfNode: map<NodeId, nat>, edges: array<GraphEdge>)
    returns (drawn: seq<seq<Cell>>, joined: seq<Segment>)
    requires rankOfNode.Keys == (set v | v in ordered)
    ensures HoldsCells(drawn, ordered, edges[..], rankOfNode)
    ensures View(drawn, joined, Links(edges[..], rankOfNode)) && SettledFrom(drawn, joined, 0)
    ensures |drawn| > 0 && IsMax(rankOfNode, |drawn| - 1)
  {
    hide View, RefsHold, SettledFrom;
    var top := MaxValue(rankOfNode);
    var ranks := new seq<Cell>[top + 1](_ => []);
    var refs := PlaceNodes(ordered, rankOfNode, ranks);
    var chained := ChainEdges(edges, rankOfNode, refs, ranks);
    var segments := new Segment[|chained|](i requires 0 <= i < |chained| => chained[i]);
    assert segments[..] == chained;
    ghost var placed := ranks[..];
    assert HoldsCells(placed, ordered, edges[..], rankOfNode);
    OrderRanksByBarycenter(ranks, segments, Links(edges[..], rankOfNode));
    drawn, joined := ranks[..], segments[..];
    SameCellsHold(drawn, placed, ordered, edges[..], rankOfNode);
  }

  lemma SameCellsHold(ranks: seq<seq<Cell>>, was: seq<seq<Cell>>, ordered: seq<NodeId>, edges: seq<GraphEdge>,
      rank: map<NodeId, nat>)
    requires SameCells(ranks, was) && HoldsCells(was, ordered, edges, rank)
    ensures HoldsCells(ranks, ordered, edges, rank)
  {
    forall r | 0 <= r < |ranks|
      ensures multiset(ranks[r]) == multiset(NodesAt(ordered, rank, r) + VirtualsAt(edges, rank, r))
    {
      assert multiset(ranks[r]) == multiset(was[r]);
    }
  }

  lemma ExpandedUnmarked(snapshot: Snapshot)
    ensures forall e :: e in ExpandEdges(snapshot) ==> !e.isBackEdge
  {
    ExpandFromExact(snapshot.edges, 0);
    forall e | e in ExpandEdges(snapshot) ensures !e.isBackEdge {
      var index: nat, branch: nat :| IsBranch(snapshot.edges, 0, index, branch, e);
    }
  }

  /** Mark the back edges, then rank: every unmarked edge out of a reachable node ends up kept. */
  method MarkAndRank(snapshot: Snapshot, edges: array<GraphEdge>, ordered: seq<NodeId>)
      returns (rankOfNode: map<NodeId, nat>)
    requires forall e :: e in edges[..] ==> !e.isBackEdge
    requires Covers(Arcs(edges[..]), snapshot.startAt, snapshot.nodes, ordered)
    modifies edges
    ensures SameEdges(edges[..], old(edges[..])) && Arcs(edges[..]) == old(Arcs(edges[..]))
    ensures exists order :: Marked(edges[..], ordered, order)
    ensures Ranked(snapshot.startAt, ordered, ForwardEdges(edges[..]), rankOfNode)
    ensures rankOfNode.Keys == (set v | v in ordered)
    ensures forall e :: e in edges[..] && !e.isBackEdge && Reaches(Arcs(edges[..]), snapshot.startAt, e.from) ==>
      Kept(e, rankOfNode)
  {
    ghost var order := MarkBackEdges(edges, ordered);
    SameEdgesSameArcs(edges[..], old(edges[..]));
    OrderedNumbered(edges[..], ordered, order);
    assert KeepsReach(edges[..], snapshot.startAt);
    hide Reaches, Connects, Acyclic;
    rankOfNode := ComputeNodeRanks(snapshot.startAt, ordered, edges, order);
    forall e | e in edges[..] && !e.isBackEdge && Reaches(Arcs(edges[..]), snapshot.startAt, e.from)
      ensures Kept(e, rankOfNode)
    {
      assert e in ForwardEdges(edges[..]);
      assert Reaches(ForwardArcs(edges[..]), snapshot.startAt, e.from);
    }
  }

  lemma OrderedNumbered(es: seq<GraphEdge>, ordered: seq<NodeId>, order: map<NodeId, nat>)
    requires Marked(es, ordered, order)
    ensures forall v :: v in ordered ==> v in order
  {
    forall v | v in ordered ensures v in order {
      ConnectsSelf(Arcs(es), v);
      assert ReachedFrom(Arcs(es), ordered, v);
    }
  }
}
