/** What a finished layout means for the reader of the drawing. */
module GraphTheorems {
  import opened GraphPaths
  import opened GraphEdges
  import opened BackEdges
  import opened GraphLevels
  import opened GraphRanks
  import opened GraphCells
  import opened GraphLayouts

  /** A definition that passed validation: known nodes only, every node reachable. */
  ghost predicate Validated(s: Snapshot) {
    && s.startAt in s.nodes
    && (forall e :: e in ExpandEdges(s) ==> e.from in s.nodes && e.to in s.nodes)
    && (forall v :: v in s.nodes ==> Reaches(Arcs(ExpandEdges(s)), s.startAt, v))
  }

  /** In a validated definition the edges drawn forward are exactly the unmarked ones, and they hold no cycle. */
  lemma ValidatedDrawsEveryForwardEdge(s: Snapshot, layout: GraphLayout, ordered: seq<NodeId>)
    requires Validated(s) && LaysOut(s, layout, ordered)
    ensures forall e :: e in layout.edges ==> (Kept(e, layout.rankOfNode) <==> !e.isBackEdge)
    ensures Acyclic(ForwardArcs(layout.edges))
  {
    SameEdgesSameArcs(layout.edges, ExpandEdges(s));
    forall e | e in layout.edges ensures e.from in s.nodes && e.from in ordered {
      var k :| 0 <= k < |layout.edges| && layout.edges[k] == e;
      assert ExpandEdges(s)[k] in ExpandEdges(s);
    }
    hide Reaches, Acyclic, View, HoldsCells, Ranked;
    var order :| Marked(layout.edges, ordered, order);
    UnmarkedAcyclic(layout.edges, ordered, order);
  }

  /** The nodes listed reach what the start and the definition's nodes reach. */
  lemma ListedReachSame(g: set<Arc>, startAt: NodeId, nodes: seq<NodeId>, ordered: seq<NodeId>, v: NodeId)
    requires Covers(g, startAt, nodes, ordered)
    ensures ReachedFrom(g, ordered, v) <==> ReachedFrom(g, [startAt] + nodes, v)
  {
    var roots := [startAt] + nodes;
    assert roots[0] == startAt && startAt in roots;
    forall u | u in nodes ensures u in roots {
      var k :| 0 <= k < |nodes| && nodes[k] == u;
      assert roots[k + 1] == u;
    }
    if ReachedFrom(g, ordered, v) {
      var r :| r in ordered && Reaches(g, r, v);
      if r !in nodes { ReachesTrans(g, startAt, r, v); }
    }
    if ReachedFrom(g, roots, v) {
      var r :| r in roots && Reaches(g, r, v);
      assert r in ordered;
    }
  }

  /**
   * Without validation a cycle can survive marking, and does exactly when one lives among the
   * edges that leave nodes reached neither from the start nor from a node of the definition.
   */
  lemma CycleSurvivesIff(s: Snapshot, layout: GraphLayout, ordered: seq<NodeId>)
    requires LaysOut(s, layout, ordered)
    ensures Acyclic(ForwardArcs(layout.edges)) <==> Acyclic(Unsearched(Arcs(ExpandEdges(s)), [s.startAt] + s.nodes))
  {
    SameEdgesSameArcs(layout.edges, ExpandEdges(s));
    var order :| Marked(layout.edges, ordered, order);
    assert Covers(Arcs(layout.edges), s.startAt, s.nodes, ordered);
    hide LaysOut, Reaches, ReachedFrom, Covers, Acyclic;
    UnmarkedAcyclicIff(layout.edges, ordered, order);
    forall a | a in Arcs(layout.edges)
      ensures ReachedFrom(Arcs(layout.edges), ordered, a.from)
              <==> ReachedFrom(Arcs(layout.edges), [s.startAt] + s.nodes, a.from)
    {
      ListedReachSame(Arcs(layout.edges), s.startAt, s.nodes, ordered, a.from);
    }
    assert Unsearched(Arcs(layout.edges), ordered) == Unsearched(Arcs(layout.edges), [s.startAt] + s.nodes);
  }

  const STRAY := Snapshot("start", ["start"], [SourceEdge("stray", Direct("stray"))])

  lemma StrayEdge(layout: GraphLayout) returns (e: GraphEdge)
    requires SameEdges(layout.edges, ExpandEdges(STRAY))
    ensures layout.edges == [e] && e.ToArc() == Arc("stray", "stray")
    ensures Arcs(layout.edges) == {Arc("stray", "stray")}
  {
    assert ExpandFrom([], 1) == [];
    assert ExpandEdges(STRAY) == [GraphEdge(EdgeIdOf("stray", "stray", 0, 0), "stray", "stray", None, false)];
    e := layout.edges[0];
    assert e in layout.edges;
  }

  lemma StrayNotReached(g: set<Arc>, ordered: seq<NodeId>)
    requires g == {Arc("stray", "stray")} && Covers(g, "start", ["start"], ordered)
    ensures !ReachedFrom(g, ordered, "stray")
  {
    forall r | r in ordered ensures !Reaches(g, r, "stray") {
      if Reaches(g, r, "stray") {
        OnlyStrayReachesStray(g, r);
        OnlyStrayReachesStray(g, "start");
      }
    }
  }

  /** A self-loop on a node the definition does not list stays unmarked. */
  lemma StrayLoopSurvives(layout: GraphLayout, ordered: seq<NodeId>)
    requires LaysOut(STRAY, layout, ordered)
    ensures !Acyclic(ForwardArcs(layout.edges))
  {
    var e := StrayEdge(layout);
    StrayNotReached(Arcs(layout.edges), ordered);
    var order :| Marked(layout.edges, ordered, order);
    hide LaysOut, Reaches, ReachedFrom;
    assert "stray" !in order;
    assert e in layout.edges && !e.isBackEdge;
    assert e.ToArc() in ForwardArcs(layout.edges);
    ConnectsSelf(ForwardArcs(layout.edges), "stray");
    ConnectsExtend(ForwardArcs(layout.edges), "stray", "stray", "stray", 0);
  }

  lemma OnlyStrayReachesStray(g: set<Arc>, r: NodeId)
    requires g == {Arc("stray", "stray")} && Reaches(g, r, "stray")
    ensures r == "stray"
  {
    var n: nat :| Connects(g, r, "stray", n);
    var p: Walk :| IsWalk(g, p) && p[0] == r && Last(p) == "stray" && |p| == n + 1;
    if n > 0 { assert Arc(p[0], p[0 + 1]) in g; }
  }

  // ---- Identity of cells ---------------------------------------------------------------------

  lemma {:induction false} NodesAtDistinct(ordered: seq<NodeId>, rank: map<NodeId, nat>, r: nat)
    requires NoDup(ordered)
    ensures NoDup(NodesAt(ordered, rank, r))
    ensures forall c :: c in NodesAt(ordered, rank, r) <==>
      c.Node? && c.nodeId in ordered && c.nodeId in rank && rank[c.nodeId] == r
    decreases |ordered|
  {
    if ordered == [] {
    } else {
      var rest, v := ordered[..|ordered| - 1], ordered[|ordered| - 1];
      assert ordered == rest + [v];
      NodesAtDistinct(rest, rank, r);
    }
  }

  /** The pass-through cells of a rank are those of the edges that pass it. */
  lemma {:induction false} VirtualsAtExact(edges: seq<GraphEdge>, rank: map<NodeId, nat>, r: nat, c: Cell)
    ensures c in VirtualsAt(edges, rank, r) <==>
      c.Virtual? && exists e :: e in edges && e.edgeId == c.edgeId && PassesThrough(e, rank, r)
    decreases |edges|
  {
    if edges == [] {
    } else {
      var rest, last := edges[..|edges| - 1], edges[|edges| - 1];
      assert edges == rest + [last];
      VirtualsAtExact(rest, rank, r, c);
      hide PassesThrough;
    }
  }

  lemma {:induction false} VirtualsAtDistinct(edges: seq<GraphEdge>, rank: map<NodeId, nat>, r: nat)
    requires forall i, j :: 0 <= i < j < |edges| ==> edges[i].edgeId != edges[j].edgeId
    ensures NoDup(VirtualsAt(edges, rank, r))
    decreases |edges|
  {
    if edges == [] {
    } else {
      var rest, last := edges[..|edges| - 1], edges[|edges| - 1];
      VirtualsAtDistinct(rest, rank, r);
      VirtualsAtExact(rest, rank, r, Virtual(last.edgeId));
      hide PassesThrough;
      forall e | e in rest ensures e.edgeId != last.edgeId {
        var k :| 0 <= k < |rest| && rest[k] == e;
        assert edges[k] == e;
      }
    }
  }

  lemma NoDupByMultiset(a: seq<Cell>, b: seq<Cell>)
    requires multiset(a) == multiset(b) && NoDup(b)
    ensures NoDup(a)
  {
    forall i, j | 0 <= i < j < |a| ensures a[i] != a[j] {
      if a[i] == a[j] {
        assert a == a[..i] + [a[i]] + a[i + 1..j] + [a[j]] + a[j + 1..];
        assert multiset(a)[a[i]] >= 2;
        AtMostOnce(b, a[i]);
      }
    }
  }

  lemma {:induction false} AtMostOnce(b: seq<Cell>, c: Cell)
    requires NoDup(b)
    ensures multiset(b)[c] <= 1
    decreases |b|
  {
    if b == [] {
    } else {
      var rest := b[..|b| - 1];
      assert b == rest + [b[|b| - 1]];
      AtMostOnce(rest, c);
      if b[|b| - 1] == c { assert c !in rest; }
    }
  }

  lemma SameEdgesSameIds(es: seq<GraphEdge>, s: Snapshot)
    requires SameEdges(es, ExpandEdges(s))
    ensures forall i, j :: 0 <= i < j < |es| ==> es[i].edgeId != es[j].edgeId
  {
    EdgeIdsDistinct(s.edges, 0);
    forall i, j | 0 <= i < j < |es| ensures es[i].edgeId != es[j].edgeId {
      assert ExpandFrom(s.edges, 0)[i].edgeId != ExpandFrom(s.edges, 0)[j].edgeId;
    }
  }

  /** No cell appears twice on a rank, so a segment's end cell names one position. */
  lemma CellsDistinct(s: Snapshot, layout: GraphLayout, ordered: seq<NodeId>, r: nat)
    requires LaysOut(s, layout, ordered) && r < |layout.ranks|
    ensures NoDup(layout.ranks[r])
  {
    var nodes := NodesAt(ordered, layout.rankOfNode, r);
    var virtuals := VirtualsAt(layout.edges, layout.rankOfNode, r);
    assert multiset(layout.ranks[r]) == multiset(nodes + virtuals);
    assert NoDup(ordered);
    SameEdgesSameIds(layout.edges, s);
    hide LaysOut;
    NodesAtDistinct(ordered, layout.rankOfNode, r);
    VirtualsAtDistinct(layout.edges, layout.rankOfNode, r);
    forall i, j | 0 <= i < |nodes| && 0 <= j < |virtuals| ensures nodes[i] != virtuals[j] {
      VirtualsAtExact(layout.edges, layout.rankOfNode, r, virtuals[j]);
      assert nodes[i] in nodes && virtuals[j] in virtuals;
    }
    NoDupByMultiset(layout.ranks[r], nodes + virtuals);
  }

  // ---- The segments of one edge --------------------------------------------------------------

  /** Every link belongs to one kept edge, and every kept edge has all its links. */
  lemma {:induction false} LinksExact(edges: seq<GraphEdge>, rank: map<NodeId, nat>)
    ensures forall link :: link in Links(edges, rank) <==>
      exists e :: e in edges && Kept(e, rank) && link in ChainLinks(e, rank)
    decreases |edges|
  {
    if edges == [] {
    } else {
      var rest, last := edges[..|edges| - 1], edges[|edges| - 1];
      assert edges == rest + [last];
      LinksExact(rest, rank);
    }
  }

  lemma SegmentIsChainLink(edges: seq<GraphEdge>, rank: map<NodeId, nat>, ranks: seq<seq<Cell>>, segments: seq<Segment>,
                           e: GraphEdge, g: Segment)
    requires View(ranks, segments, Links(edges, rank))
    requires forall i, j :: 0 <= i < j < |edges| ==> edges[i].edgeId != edges[j].edgeId
    requires e in edges && g in segments && g.edgeId == e.edgeId
    ensures Kept(e, rank) && rank[e.from] <= g.rank < rank[e.to]
    ensures Joins(ranks, g, ChainLink(e, rank, g.rank))
  {
    var links := Links(edges, rank);
    LinksExact(edges, rank);
    var i :| 0 <= i < |segments| && segments[i] == g;
    assert Joins(ranks, segments[i], links[i]) && links[i] in links;
    hide Links, View, Kept;
    var d :| d in edges && Kept(d, rank) && links[i] in ChainLinks(d, rank);
    ChainLinkOf(d, rank, links[i]);
    SameIdSameEdge(edges, d, e);
  }

  lemma CrossedHasSegment(edges: seq<GraphEdge>, rank: map<NodeId, nat>, ranks: seq<seq<Cell>>, segments: seq<Segment>,
                          e: GraphEdge, r: nat)
    requires View(ranks, segments, Links(edges, rank))
    requires e in edges && Kept(e, rank) && rank[e.from] <= r < rank[e.to]
    ensures exists g :: g in segments && g.edgeId == e.edgeId && g.rank == r
  {
    var links := Links(edges, rank);
    var link := ChainLink(e, rank, r);
    assert ChainLinks(e, rank)[r - rank[e.from]] == link;
    assert link in ChainLinks(e, rank);
    LinksExact(edges, rank);
    assert link in links;
    var i :| 0 <= i < |links| && links[i] == link;
    assert Joins(ranks, segments[i], links[i]);
    assert segments[i] in segments;
  }

  /**
   * Between two adjacent ranks an edge has a segment exactly when its chain crosses that gap, and
   * then the segment joins the chain's cells there.
   */
  lemma SegmentIffCrossed(s: Snapshot, layout: GraphLayout, ordered: seq<NodeId>, e: GraphEdge, r: nat)
    requires LaysOut(s, layout, ordered) && e in layout.edges
    ensures (exists g :: g in layout.segments && g.edgeId == e.edgeId && g.rank == r)
      <==> Kept(e, layout.rankOfNode) && layout.rankOfNode[e.from] <= r < layout.rankOfNode[e.to]
    ensures forall g :: g in layout.segments && g.edgeId == e.edgeId ==>
      Kept(e, layout.rankOfNode) && Joins(layout.ranks, g, ChainLink(e, layout.rankOfNode, g.rank))
  {
    SameEdgesSameIds(layout.edges, s);
    assert View(layout.ranks, layout.segments, Links(layout.edges, layout.rankOfNode));
    hide LaysOut, View, Joins, Links;
    forall g | g in layout.segments && g.edgeId == e.edgeId
      ensures Kept(e, layout.rankOfNode) && Joins(layout.ranks, g, ChainLink(e, layout.rankOfNode, g.rank))
      ensures layout.rankOfNode[e.from] <= g.rank < layout.rankOfNode[e.to]
    {
      SegmentIsChainLink(layout.edges, layout.rankOfNode, layout.ranks, layout.segments, e, g);
    }
    if Kept(e, layout.rankOfNode) && layout.rankOfNode[e.from] <= r < layout.rankOfNode[e.to] {
      CrossedHasSegment(layout.edges, layout.rankOfNode, layout.ranks, layout.segments, e, r);
    }
  }

  lemma ChainLinkOf(e: GraphEdge, rank: map<NodeId, nat>, link: Link)
    requires Kept(e, rank) && link in ChainLinks(e, rank)
    ensures rank[e.from] <= link.rank < rank[e.to] && link == ChainLink(e, rank, link.rank)
  {
    var k :| 0 <= k < |ChainLinks(e, rank)| && ChainLinks(e, rank)[k] == link;
  }

  lemma SameIdSameEdge(edges: seq<GraphEdge>, d: GraphEdge, e: GraphEdge)
    requires forall i, j :: 0 <= i < j < |edges| ==> edges[i].edgeId != edges[j].edgeId
    requires d in edges && e in edges && d.edgeId == e.edgeId
    ensures d == e
  {
    var i :| 0 <= i < |edges| && edges[i] == d;
    var j :| 0 <= j < |edges| && edges[j] == e;
    assert i == j;
  }
}
