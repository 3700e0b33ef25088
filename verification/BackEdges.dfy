/** Depth-first marking of the edges that close a cycle. */
module BackEdges {
  import opened GraphPaths
  import opened GraphEdges

  datatype Color = Gray | Black

  /** `es` is `was` but for the back-edge marks. */
  ghost predicate SameEdges(es: seq<GraphEdge>, was: seq<GraphEdge>) {
    |es| == |was| && forall i :: 0 <= i < |es| ==> es[i] == was[i].(isBackEdge := es[i].isBackEdge)
  }

  /**
   * What the search keeps. `order` numbers the black nodes as they finish;
   * `settled` holds the arcs that were followed or found finished, which stay unmarked.
   */
  ghost predicate Searching(es: seq<GraphEdge>, color: map<NodeId, Color>, order: map<NodeId, nat>, settled: set<Arc>) {
    && order.Keys == (set v | v in color && color[v] == Black)
    && (forall v :: v in order ==> order[v] < |order|)
    && settled <= ForwardArcs(es)
    && Descends(settled, order)
    && (forall a :: a in settled ==> a.from in color)
    && (forall e :: e in es && e.from !in color ==> !e.isBackEdge)
    && (forall e :: e in es && e.isBackEdge ==> Reaches(settled, e.to, e.from))
    && (forall e :: e in es && e.from in order ==> e.to in color && (e.isBackEdge || e.ToArc() in settled))
  }

  /** Every node on the search stack reaches `v` along settled arcs. */
  ghost predicate StackReaches(color: map<NodeId, Color>, settled: set<Arc>, v: NodeId) {
    forall w :: w in color && color[w] == Gray ==> Reaches(settled, w, v)
  }

  /** The edges of the gray node `v` before position `i` have been handled, and none after it. */
  ghost predicate Handled(
    es: seq<GraphEdge>, color: map<NodeId, Color>, order: map<NodeId, nat>, settled: set<Arc>, v: NodeId, i: nat)
  {
    && v in color && color[v] == Gray
    && i <= |es|
    && (forall k :: 0 <= k < i && es[k].from == v ==>
        es[k].to in color
        && (es[k].isBackEdge || es[k].ToArc() in settled))
    && (forall k :: i <= k < |es| && es[k].from == v ==> !es[k].isBackEdge)
    && (forall a :: a in settled && a.from == v ==> a.to in order)
  }

  /** A search step only adds: colours stay, new nodes are black and reachable from `root`, new arcs leave new nodes. */
  ghost predicate Grown(
    es: seq<GraphEdge>, color: map<NodeId, Color>, settled: set<Arc>,
    es': seq<GraphEdge>, color': map<NodeId, Color>, settled': set<Arc>, root: NodeId)
  {
    && SameEdges(es', es)
    && (forall k :: 0 <= k < |es| && es[k].from in color ==> es'[k] == es[k])
    && (forall w :: w in color ==> w in color' && color'[w] == color[w])
    && (forall w :: w in color' && w !in color ==> color'[w] == Black && Reaches(settled', root, w))
    && settled <= settled'
    && (forall a :: a in settled' && a !in settled ==> a.from !in color)
  }

  lemma StackReachesMonotone(color: map<NodeId, Color>, settled: set<Arc>, settled': set<Arc>, v: NodeId)
    requires StackReaches(color, settled, v) && settled <= settled'
    ensures StackReaches(color, settled', v)
  {
    forall w | w in color && color[w] == Gray ensures Reaches(settled', w, v) {
      ReachesMonotone(settled, settled', w, v);
    }
  }

  /** Colouring `v` gray puts it on the stack. */
  lemma EnterKeeps(es: seq<GraphEdge>, color: map<NodeId, Color>, order: map<NodeId, nat>, settled: set<Arc>, v: NodeId)
    requires Searching(es, color, order, settled) && StackReaches(color, settled, v) && v !in color
    ensures Searching(es, color[v := Gray], order, settled)
    ensures StackReaches(color[v := Gray], settled, v)
    ensures Handled(es, color[v := Gray], order, settled, v, 0)
  {
    ConnectsSelf(settled, v);
    forall k | 0 <= k < |es| && es[k].from == v ensures !es[k].isBackEdge { assert es[k] in es; }
  }

  /** Marking an edge whose target is on the stack closes a cycle along settled arcs and breaks none of them. */
  lemma MarkKeeps(es: seq<GraphEdge>, color: map<NodeId, Color>, order: map<NodeId, nat>, settled: set<Arc>,
      v: NodeId, i: nat)
    requires Searching(es, color, order, settled) && StackReaches(color, settled, v)
    requires Handled(es, color, order, settled, v, i)
    requires i < |es| && es[i].from == v && es[i].to in color && color[es[i].to] == Gray
    ensures Searching(es[i := es[i].(isBackEdge := true)], color, order, settled)
    ensures Handled(es[i := es[i].(isBackEdge := true)], color, order, settled, v, i + 1)
  {
    var es' := es[i := es[i].(isBackEdge := true)];
    forall a | a in settled ensures a in ForwardArcs(es') {
      var e :| e in es && !e.isBackEdge && e.ToArc() == a;
      var k :| 0 <= k < |es| && es[k] == e;
      assert k != i;
      assert es'[k] in es';
    }
    forall e | e in es' && e.isBackEdge ensures Reaches(settled, e.to, e.from) {
      if e != es'[i] { assert e in es; }
    }
    forall e | e in es' ensures (e in es) || e == es'[i] {}
  }

  /** Following an arc out of the gray node `v` settles it. */
  lemma SettleKeeps(es: seq<GraphEdge>, color: map<NodeId, Color>, order: map<NodeId, nat>, settled: set<Arc>,
      v: NodeId, i: nat)
    requires Searching(es, color, order, settled) && StackReaches(color, settled, v)
    requires Handled(es, color, order, settled, v, i)
    requires i < |es| && es[i].from == v && !es[i].isBackEdge
    ensures Searching(es, color, order, settled + {es[i].ToArc()})
    ensures StackReaches(color, settled + {es[i].ToArc()}, v)
    ensures StackReaches(color, settled + {es[i].ToArc()}, es[i].to)
    ensures Reaches(settled + {es[i].ToArc()}, v, es[i].to)
    ensures es[i].to in order ==> Handled(es, color, order, settled + {es[i].ToArc()}, v, i + 1)
  {
    var settled' := settled + {es[i].ToArc()};
    StackReachesMonotone(color, settled, settled', v);
    forall w | w in color && color[w] == Gray ensures Reaches(settled', w, es[i].to) {
      ReachesExtend(settled', w, v, es[i].to);
    }
    assert es[i] in es;
    forall e | e in es && e.isBackEdge ensures Reaches(settled', e.to, e.from) {
      ReachesMonotone(settled, settled', e.to, e.from);
    }
  }

  /** Finishing `v` numbers it above everything its unmarked edges lead to. */
  lemma FinishKeeps(es: seq<GraphEdge>, color: map<NodeId, Color>, order: map<NodeId, nat>, settled: set<Arc>,
      v: NodeId)
    requires Searching(es, color, order, settled)
    requires Handled(es, color, order, settled, v, |es|)
    ensures Searching(es, color[v := Black], order[v := |order|], settled)
  {
    assert v !in order;
    forall e | e in es && e.from == v ensures e.to in color && (e.isBackEdge || e.ToArc() in settled) {
      var k :| 0 <= k < |es| && es[k] == e;
    }
  }

  /** Returning from the target of edge `i`, now black, resumes the gray node `v` at the next edge. */
  lemma ReturnKeeps(
    es: seq<GraphEdge>, color: map<NodeId, Color>, order: map<NodeId, nat>, settled: set<Arc>,
    es': seq<GraphEdge>, color': map<NodeId, Color>, order': map<NodeId, nat>, settled': set<Arc>, v: NodeId, i: nat)
    requires i < |es| && es[i].from == v && es[i].ToArc() in settled
    requires Handled(es, color, order, settled - {es[i].ToArc()}, v, i)
    requires StackReaches(color, settled, v)
    requires Grown(es, color, settled, es', color', settled', es[i].to)
    requires Searching(es', color', order', settled') && es[i].to in order'
    requires forall w :: w in order ==> w in order'
    ensures Handled(es', color', order', settled', v, i + 1)
    ensures StackReaches(color', settled', v)
  {
    forall w | w in color' && color'[w] == Gray ensures Reaches(settled', w, v) {
      assert w in color;
      ReachesMonotone(settled, settled', w, v);
    }
  }

  /** Growth composes with work that happened below the same root. */
  lemma GrownTrans(
    es0: seq<GraphEdge>, color0: map<NodeId, Color>, settled0: set<Arc>,
    es1: seq<GraphEdge>, color1: map<NodeId, Color>, settled1: set<Arc>,
    es2: seq<GraphEdge>, color2: map<NodeId, Color>, settled2: set<Arc>, v: NodeId, t: NodeId)
    requires v !in color0 && v in color1
    requires Grown(es0, color0, settled0, es1, color1[v := Black], settled1, v)
    requires Grown(es1, color1, settled1, es2, color2, settled2, t)
    requires Reaches(settled1, v, t)
    ensures Grown(es0, color0, settled0, es2, color2[v := Black], settled2, v)
  {
    forall w | w in color2 && w !in color0 ensures Reaches(settled2, v, w) {
      if w in color1 {
        ReachesMonotone(settled1, settled2, v, w);
      } else {
        ReachesMonotone(settled1, settled2, v, t);
        ReachesTrans(settled2, v, t, w);
      }
    }
  }

  lemma GrownColors(
    es: seq<GraphEdge>, color: map<NodeId, Color>, settled: set<Arc>,
    es': seq<GraphEdge>, color': map<NodeId, Color>, settled': set<Arc>, root: NodeId)
    requires Grown(es, color, settled, es', color', settled', root)
    ensures color.Keys <= color'.Keys
  {
  }

  lemma GrownEnter(es: seq<GraphEdge>, color: map<NodeId, Color>, settled: set<Arc>, v: NodeId)
    requires v !in color
    ensures Grown(es, color, settled, es, color[v := Gray][v := Black], settled, v)
  {
    ConnectsSelf(settled, v);
  }

  lemma GrownMarked(
    es0: seq<GraphEdge>, color0: map<NodeId, Color>, settled0: set<Arc>,
    es: seq<GraphEdge>, color: map<NodeId, Color>, settled: set<Arc>, v: NodeId, i: nat)
    requires i < |es| && es[i].from == v && v !in color0
    requires Grown(es0, color0, settled0, es, color[v := Black], settled, v)
    ensures Grown(es0, color0, settled0, es[i := es[i].(isBackEdge := true)], color[v := Black], settled, v)
  {
  }

  lemma GrownSettled(
    es0: seq<GraphEdge>, color0: map<NodeId, Color>, settled0: set<Arc>,
    es: seq<GraphEdge>, color: map<NodeId, Color>, settled: set<Arc>, v: NodeId, i: nat)
    requires i < |es| && es[i].from == v && v !in color0
    requires Grown(es0, color0, settled0, es, color[v := Black], settled, v)
    ensures Grown(es0, color0, settled0, es, color[v := Black], settled + {es[i].ToArc()}, v)
  {
    var settled' := settled + {es[i].ToArc()};
    forall w | w in color[v := Black] && w !in color0 ensures Reaches(settled', v, w) {
      ReachesMonotone(settled, settled', v, w);
    }
  }

  class DepthFirst {
    const edges: array<GraphEdge>
    var color: map<NodeId, Color>
    ghost var order: map<NodeId, nat>
    ghost var settled: set<Arc>

    constructor (edges: array<GraphEdge>)
      requires forall e :: e in edges[..] ==> !e.isBackEdge
      ensures this.edges == edges && color == map[] && order == map[] && settled == {}
      ensures Searching(edges[..], color, order, settled)
    {
      this.edges := edges;
      color := map[];
      order := map[];
      settled := {};
    }

    method Visit(nodeId: NodeId, ghost universe: set<NodeId>)
      requires Searching(edges[..], color, order, settled)
      requires StackReaches(color, settled, nodeId) && nodeId !in color
      requires nodeId in universe && (forall e :: e in edges[..] ==> e.to in universe)
      modifies this, edges
      ensures Searching(edges[..], color, order, settled)
      ensures Grown(old(edges[..]), old(color), old(settled), edges[..], color, settled, nodeId)
      ensures nodeId in order
      ensures forall e :: e in edges[..] ==> e.to in universe
      ensures forall w :: w in old(order) ==> w in order && order[w] == old(order[w])
      decreases universe - color.Keys, 0
    {
      hide Searching, Grown, StackReaches, Reaches;
      ghost var es0, color0, settled0 := edges[..], color, settled;
      EnterKeeps(edges[..], color, order, settled, nodeId);
      GrownEnter(es0, color0, settled0, nodeId);
      color := color[nodeId := Gray];
      for i := 0 to edges.Length
        invariant Searching(edges[..], color, order, settled)
        invariant StackReaches(color, settled, nodeId)
        invariant Handled(edges[..], color, order, settled, nodeId, i)
        invariant Grown(es0, color0, settled0, edges[..], color[nodeId := Black], settled, nodeId)
        invariant forall w :: w in old(order) ==> w in order && order[w] == old(order[w])
        invariant color0.Keys + {nodeId} <= color.Keys
        invariant forall e :: e in edges[..] ==> e.to in universe
      {
        if edges[i].from == nodeId {
          Examine(nodeId, i, universe, es0, color0, settled0);
        }
      }
      FinishKeeps(edges[..], color, order, settled, nodeId);
      order := order[nodeId := |order|];
      color := color[nodeId := Black];
    }

    /** One turn of the loop over the edges of `nodeId`. */
    method Examine(nodeId: NodeId, i: nat, ghost universe: set<NodeId>,
                   ghost es0: seq<GraphEdge>, ghost color0: map<NodeId, Color>, ghost settled0: set<Arc>)
      requires i < edges.Length && edges[i].from == nodeId && nodeId !in color0
      requires forall e :: e in edges[..] ==> e.to in universe
      requires Searching(edges[..], color, order, settled)
      requires StackReaches(color, settled, nodeId)
      requires Handled(edges[..], color, order, settled, nodeId, i)
      requires Grown(es0, color0, settled0, edges[..], color[nodeId := Black], settled, nodeId)
      modifies this, edges
      ensures Searching(edges[..], color, order, settled)
      ensures StackReaches(color, settled, nodeId)
      ensures Handled(edges[..], color, order, settled, nodeId, i + 1)
      ensures Grown(es0, color0, settled0, edges[..], color[nodeId := Black], settled, nodeId)
      ensures forall w :: w in old(order) ==> w in order && order[w] == old(order[w])
      ensures old(color.Keys) <= color.Keys
      ensures forall e :: e in edges[..] ==> e.to in universe
      decreases universe - color.Keys, 1
    {
      hide Searching, Grown, StackReaches, Reaches;
      var target := edges[i].to;
      ghost var es1 := edges[..];
      if target in color && color[target] == Gray {
        MarkKeeps(es1, color, order, settled, nodeId, i);
        GrownMarked(es0, color0, settled0, es1, color, settled, nodeId, i);
        edges[i] := edges[i].(isBackEdge := true);
        assert edges[..] == es1[i := es1[i].(isBackEdge := true)];
      } else {
        SettleKeeps(es1, color, order, settled, nodeId, i);
        GrownSettled(es0, color0, settled0, es1, color, settled, nodeId, i);
        settled := settled + {es1[i].ToArc()};
        if target !in color {
          ghost var color1, order1, settled1 := color, order, settled;
          assert es1[i] in es1;
          Visit(target, universe);
          ReturnKeeps(es1, color1, order1, settled1, edges[..], color, order, settled, nodeId, i);
          GrownTrans(es0, color0, settled0, es1, color1, settled1, edges[..], color, settled, nodeId, target);
          GrownColors(es1, color1, settled1, edges[..], color, settled, target);
        }
      }
    }
  }

  /** Some node of `roots` reaches `v`. */
  ghost predicate ReachedFrom(g: set<Arc>, roots: seq<NodeId>, v: NodeId) {
    exists r :: r in roots && Reaches(g, r, v)
  }

  /** The arcs that leave nodes no root reaches: the search never looks at them. */
  ghost function Unsearched(g: set<Arc>, roots: seq<NodeId>): set<Arc> {
    set a | a in g && !ReachedFrom(g, roots, a.from)
  }

  /**
   * The outcome of marking. `order` numbers exactly the nodes the roots reach; unmarked edges
   * between them fall in it, and every marked edge closes a cycle of unmarked ones.
   */
  ghost predicate Marked(es: seq<GraphEdge>, roots: seq<NodeId>, order: map<NodeId, nat>) {
    && (forall v :: v in order <==> ReachedFrom(Arcs(es), roots, v))
    && Descends(ForwardArcs(es), order)
    && (forall e :: e in es && e.isBackEdge ==> e.from in order && Reaches(ForwardArcs(es), e.to, e.from))
  }

  /** Dropping the marked edges loses no node that `v` reaches. */
  ghost predicate KeepsReach(es: seq<GraphEdge>, v: NodeId) {
    forall w :: Reaches(Arcs(es), v, w) <==> Reaches(ForwardArcs(es), v, w)
  }

  lemma SameEdgesSameArcs(es: seq<GraphEdge>, was: seq<GraphEdge>)
    requires SameEdges(es, was)
    ensures Arcs(es) == Arcs(was)
  {
    forall a | a in Arcs(es) ensures a in Arcs(was) {
      var e :| e in es && e.ToArc() == a;
      var k :| 0 <= k < |es| && es[k] == e;
      assert was[k] in was && was[k].ToArc() == a;
    }
    forall a | a in Arcs(was) ensures a in Arcs(es) {
      var e :| e in was && e.ToArc() == a;
      var k :| 0 <= k < |was| && was[k] == e;
      assert es[k] in es && es[k].ToArc() == a;
    }
  }

  /** Of the searched edges, exactly the marked ones fail to fall in the order. */
  lemma MarkedIffNotFalling(es: seq<GraphEdge>, roots: seq<NodeId>, order: map<NodeId, nat>, e: GraphEdge)
    requires Marked(es, roots, order) && e in es && e.from in order
    ensures e.to in order && (e.isBackEdge <==> order[e.from] <= order[e.to])
  {
    if e.isBackEdge {
      var r :| r in roots && Reaches(Arcs(es), r, e.from);
      assert e.ToArc() in Arcs(es);
      ReachesExtend(Arcs(es), r, e.from, e.to);
      assert ReachedFrom(Arcs(es), roots, e.to);
      var n: nat :| Connects(ForwardArcs(es), e.to, e.from, n);
      WalkSpendsOrder(ForwardArcs(es), order, e.to, e.from, n);
    } else {
      assert e.ToArc() in ForwardArcs(es);
    }
  }

  /** The unmarked edges hold a cycle only where the search never came. */
  lemma UnmarkedAcyclicIff(es: seq<GraphEdge>, roots: seq<NodeId>, order: map<NodeId, nat>)
    requires Marked(es, roots, order)
    ensures Acyclic(ForwardArcs(es)) <==> Acyclic(Unsearched(Arcs(es), roots))
  {
    var outside := Outside(ForwardArcs(es), order);
    forall a | a in Unsearched(Arcs(es), roots) ensures a in outside {
      var e :| e in es && e.ToArc() == a;
      assert !e.isBackEdge;
    }
    assert outside == Unsearched(Arcs(es), roots);
    AcyclicIffOutsideAcyclic(ForwardArcs(es), order);
  }

  /** In a definition whose edges all leave known nodes, the unmarked edges hold no cycle. */
  lemma UnmarkedAcyclic(es: seq<GraphEdge>, roots: seq<NodeId>, order: map<NodeId, nat>)
    requires Marked(es, roots, order)
    requires forall e :: e in es ==> e.from in roots
    ensures Acyclic(ForwardArcs(es))
  {
    forall a | a in Arcs(es) ensures ReachedFrom(Arcs(es), roots, a.from) {
      ConnectsSelf(Arcs(es), a.from);
    }
    assert Unsearched(Arcs(es), roots) == {};
    forall v: NodeId, n: nat | n > 0 ensures !Connects({}, v, v, n) {
      if Connects({}, v, v, n) { var u := ConnectsSplit({}, v, v, n); }
    }
    UnmarkedAcyclicIff(es, roots, order);
  }

  lemma ForwardWithin(es: seq<GraphEdge>)
    ensures ForwardArcs(es) <= Arcs(es)
  {
  }

  lemma ReachedFromMonotone(g: set<Arc>, h: set<Arc>, roots: seq<NodeId>, v: NodeId)
    requires g <= h && ReachedFrom(g, roots, v)
    ensures ReachedFrom(h, roots, v)
  {
    var r :| r in roots && Reaches(g, r, v);
    ReachesMonotone(g, h, r, v);
  }

  lemma ReachedIsColored(
    es: seq<GraphEdge>, color: map<NodeId, Color>, order: map<NodeId, nat>, settled: set<Arc>, roots: seq<NodeId>,
      v: NodeId)
    requires Searching(es, color, order, settled)
    requires forall w :: w in color ==> color[w] == Black
    requires forall w :: w in roots ==> w in color
    requires ReachedFrom(Arcs(es), roots, v)
    ensures v in color
  {
    hide Searching;
    var r :| r in roots && Reaches(Arcs(es), r, v);
    SearchClosed(es, color, order, settled, r, v);
  }

  /** A finished search from the roots has numbered exactly what they reach. */
  lemma SearchNumbersReached(
    es: seq<GraphEdge>, color: map<NodeId, Color>, order: map<NodeId, nat>, settled: set<Arc>, roots: seq<NodeId>,
      v: NodeId)
    requires Searching(es, color, order, settled)
    requires forall w :: w in color ==> color[w] == Black && ReachedFrom(settled, roots, w)
    requires forall w :: w in roots ==> w in color
    ensures v in order <==> ReachedFrom(Arcs(es), roots, v)
  {
    ForwardWithin(es);
    assert v in order <==> v in color;
    assert settled <= Arcs(es);
    hide *;
    if v in color {
      ReachedFromMonotone(settled, Arcs(es), roots, v);
    }
    if ReachedFrom(Arcs(es), roots, v) {
      ReachedIsColored(es, color, order, settled, roots, v);
    }
  }

  /** A finished search leaves every unmarked arc between numbered nodes settled, and every marked one a cycle. */
  lemma SearchSettles(es: seq<GraphEdge>, color: map<NodeId, Color>, order: map<NodeId, nat>, settled: set<Arc>)
    requires Searching(es, color, order, settled)
    requires forall v :: v in color ==> color[v] == Black
    ensures Descends(ForwardArcs(es), order)
    ensures forall e :: e in es && e.isBackEdge ==> e.from in order && Reaches(ForwardArcs(es), e.to, e.from)
  {
    forall a | a in ForwardArcs(es) && a.from in order ensures a in settled {
      var e :| e in es && !e.isBackEdge && e.ToArc() == a;
    }
    forall e | e in es && e.isBackEdge ensures e.from in order && Reaches(ForwardArcs(es), e.to, e.from) {
      ReachesMonotone(settled, ForwardArcs(es), e.to, e.from);
    }
  }

  lemma SearchMarks(es: seq<GraphEdge>, color: map<NodeId, Color>, order: map<NodeId, nat>, settled: set<Arc>,
      roots: seq<NodeId>)
    requires Searching(es, color, order, settled)
    requires forall v :: v in color ==> color[v] == Black && ReachedFrom(settled, roots, v)
    requires forall v :: v in roots ==> v in color
    ensures Marked(es, roots, order)
  {
    SearchSettles(es, color, order, settled);
    forall v ensures v in order <==> ReachedFrom(Arcs(es), roots, v) {
      SearchNumbersReached(es, color, order, settled, roots, v);
    }
    hide Searching, ReachedFrom, Reaches;
  }

  lemma FirstRootKeepsReach(
    es: seq<GraphEdge>, color: map<NodeId, Color>, order: map<NodeId, nat>, settled: set<Arc>, root: NodeId, n: nat)
    requires Searching(es, color, order, settled)
    requires RootDone(es, order, settled, root, n)
    ensures KeepsReach(es, root)
  {
    forall w ensures Reaches(Arcs(es), root, w) <==> Reaches(ForwardArcs(es), root, w) {
      if Reaches(Arcs(es), root, w) { ReachesMonotone(settled, ForwardArcs(es), root, w); }
      if Reaches(ForwardArcs(es), root, w) { ReachesMonotone(ForwardArcs(es), Arcs(es), root, w); }
    }
  }

  /** When nothing is gray, the coloured nodes are closed under the edges. */
  lemma SearchClosed(es: seq<GraphEdge>, color: map<NodeId, Color>, order: map<NodeId, nat>, settled: set<Arc>,
      r: NodeId, v: NodeId)
    requires Searching(es, color, order, settled)
    requires forall w :: w in color ==> color[w] == Black
    requires r in color && Reaches(Arcs(es), r, v)
    ensures v in color
  {
    var n: nat :| Connects(Arcs(es), r, v, n);
    forall a | a in Arcs(es) && a.from in color ensures a.to in color {
      var e :| e in es && e.ToArc() == a;
      assert e.from in order;
    }
    ClosedHoldsReachable(Arcs(es), color.Keys, r, v, n);
  }

  /** The first root alone: it settles a walk to everything it reaches, and finishes last among those. */
  ghost predicate RootDone(es: seq<GraphEdge>, order: map<NodeId, nat>, settled: set<Arc>, root: NodeId, n: nat) {
    && root in order && order[root] < n
    && forall w :: Reaches(Arcs(es), root, w) ==> Reaches(settled, root, w)
  }

  lemma FirstRootDone(es: seq<GraphEdge>, color: map<NodeId, Color>, order: map<NodeId, nat>, settled: set<Arc>,
      ordered: seq<NodeId>)
    requires Searching(es, color, order, settled)
    requires ordered != [] && ordered[0] in order
    requires forall w :: w in color ==> color[w] == Black && Reaches(settled, ordered[0], w)
    requires forall w :: Reaches(Arcs(es), ordered[0], w) ==> w in ordered
    ensures RootDone(es, order, settled, ordered[0], |ordered|)
  {
    forall w | w in order ensures w in ordered {
      ReachesMonotone(settled, Arcs(es), ordered[0], w);
    }
    forall w | Reaches(Arcs(es), ordered[0], w) ensures Reaches(settled, ordered[0], w) {
      SearchClosed(es, color, order, settled, ordered[0], w);
    }
    SetWithin(order.Keys, ordered);
  }

  lemma {:induction false} SetWithin(s: set<NodeId>, list: seq<NodeId>)
    requires forall v :: v in s ==> v in list
    ensures |s| <= |list|
    decreases |list|
  {
    if list == [] {
      assert s == {};
    } else {
      var last := list[|list| - 1];
      SetWithin(s - {last}, list[..|list| - 1]);
    }
  }

  method MarkBackEdges(edges: array<GraphEdge>, ordered: seq<NodeId>) returns (ghost order: map<NodeId, nat>)
    requires forall e :: e in edges[..] ==> !e.isBackEdge
    requires ordered != [] && forall w :: Reaches(Arcs(edges[..]), ordered[0], w) ==> w in ordered
    modifies edges
    ensures SameEdges(edges[..], old(edges[..]))
    ensures Marked(edges[..], ordered, order)
    ensures KeepsReach(edges[..], ordered[0])
    ensures ordered[0] in order && order[ordered[0]] < |ordered|
  {
    hide Searching, Reaches, ReachedFrom, Grown;
    var search := new DepthFirst(edges);
    ghost var es0 := edges[..];
    ghost var universe := (set v | v in ordered) + set e | e in es0 :: e.to;
    for k := 0 to |ordered|
      invariant search.edges == edges && SameEdges(edges[..], es0)
      invariant forall e :: e in edges[..] ==> e.to in universe
      invariant Searching(edges[..], search.color, search.order, search.settled)
      invariant forall v :: v in search.color ==> search.color[v] == Black && ReachedFrom(search.settled, ordered, v)
      invariant forall v :: v in ordered[..k] ==> v in search.color
      invariant k == 0 ==> search.color == map[]
      invariant k > 0 ==> RootDone(edges[..], search.order, search.settled, ordered[0], |ordered|)
    {
      if ordered[k] !in search.color {
        ghost var es1, color1, order1, settled1 := edges[..], search.color, search.order, search.settled;
        SameEdgesSameArcs(es1, es0);
        search.Visit(ordered[k], universe);
        RootVisited(es0, es1, color1, order1, settled1, edges[..], search.color, search.order, search.settled,
          ordered, k);
      }
    }
    order := search.order;
    SearchMarks(edges[..], search.color, order, search.settled, ordered);
    FirstRootKeepsReach(edges[..], search.color, order, search.settled, ordered[0], |ordered|);
  }

  /** One more root visited. */
  lemma RootVisited(
    es0: seq<GraphEdge>, es: seq<GraphEdge>, color: map<NodeId, Color>, order: map<NodeId, nat>, settled: set<Arc>,
    es': seq<GraphEdge>, color': map<NodeId, Color>, order': map<NodeId, nat>, settled': set<Arc>,
    ordered: seq<NodeId>, k: nat)
    requires k < |ordered| && SameEdges(es, es0)
    requires Searching(es', color', order', settled') && ordered[k] in order'
    requires Grown(es, color, settled, es', color', settled', ordered[k])
    requires forall v :: v in color ==> color[v] == Black && ReachedFrom(settled, ordered, v)
    requires forall w :: w in order ==> w in order' && order'[w] == order[w]
    requires k == 0 ==> color == map[]
    requires k > 0 ==> RootDone(es, order, settled, ordered[0], |ordered|)
    requires forall w :: Reaches(Arcs(es), ordered[0], w) ==> w in ordered
    ensures forall v :: v in color' ==> color'[v] == Black && ReachedFrom(settled', ordered, v)
    ensures RootDone(es', order', settled', ordered[0], |ordered|)
    ensures SameEdges(es', es0)
    ensures color.Keys + {ordered[k]} <= color'.Keys
  {
    SameEdgesSameArcs(es', es);
    forall v | v in color' ensures ReachedFrom(settled', ordered, v) {
      if v in color {
        var r :| r in ordered && Reaches(settled, r, v);
        ReachesMonotone(settled, settled', r, v);
      }
    }
    if k == 0 {
      FirstRootDone(es', color', order', settled', ordered);
    } else {
      forall w | Reaches(Arcs(es'), ordered[0], w) ensures Reaches(settled', ordered[0], w) {
        ReachesMonotone(settled, settled', ordered[0], w);
      }
    }
  }
}
