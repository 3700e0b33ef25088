/** Ranks: longest levels, with straight tails into a terminal node pulled down to the bottom. */
module GraphRanks {
  import opened GraphPaths
  import opened GraphEdges
  import opened GraphLevels

  // ---- Tail depths ---------------------------------------------------------------------------

  /** A terminal node leaves no edge; a straight node leaves exactly one. */
  ghost predicate IsTail(edges: seq<GraphEdge>, terminal: set<NodeId>, p: Walk) {
    && Last(p) in terminal
    && forall i :: 0 <= i < |p| - 1 ==> p[i] !in terminal && TargetsOf(edges, p[i]) == [p[i + 1]]
  }

  /** A single path of `d` edges runs from `v` into a terminal node, with no branch on the way. */
  ghost predicate HasTail(edges: seq<GraphEdge>, terminal: set<NodeId>, v: NodeId, d: nat) {
    exists p: Walk :: IsTail(edges, terminal, p) && p[0] == v && |p| == d + 1
  }

  /** `depth` is the length of the tail of `v`, or null when it has none. */
  ghost predicate IsTailDepth(edges: seq<GraphEdge>, terminal: set<NodeId>, v: NodeId, depth: Option<nat>) {
    forall d: nat :: HasTail(edges, terminal, v, d) <==> depth == Some(d)
  }

  /** A tail of `d` edges is a terminal node, or one straight step onto a tail of `d - 1`. */
  lemma TailUncons(edges: seq<GraphEdge>, terminal: set<NodeId>, v: NodeId, d: nat)
    requires HasTail(edges, terminal, v, d)
    ensures d == 0 ==> v in terminal
    ensures d > 0 ==> v !in terminal && |TargetsOf(edges, v)| == 1
    ensures d > 0 ==> HasTail(edges, terminal, TargetsOf(edges, v)[0], d - 1)
  {
    hide TargetsOf;
    var q: Walk :| IsTail(edges, terminal, q) && q[0] == v && |q| == d + 1;
    if d > 0 {
      assert TargetsOf(edges, q[0]) == [q[0 + 1]];
      var r: Walk := q[1..];
      forall i | 0 <= i < |r| - 1 ensures r[i] !in terminal && TargetsOf(edges, r[i]) == [r[i + 1]] {
        assert TargetsOf(edges, q[i + 1]) == [q[i + 1 + 1]];
      }
      assert IsTail(edges, terminal, r) && r[0] == q[1] && |r| == (d - 1) + 1;
    }
  }

  lemma TailCons(edges: seq<GraphEdge>, terminal: set<NodeId>, v: NodeId, child: NodeId, d: nat)
    requires v !in terminal && TargetsOf(edges, v) == [child]
    requires HasTail(edges, terminal, child, d)
    ensures HasTail(edges, terminal, v, d + 1)
  {
    hide TargetsOf;
    var r: Walk :| IsTail(edges, terminal, r) && r[0] == child && |r| == d + 1;
    var q: Walk := [v] + r;
    forall i | 0 <= i < |q| - 1 ensures q[i] !in terminal && TargetsOf(edges, q[i]) == [q[i + 1]] {
      if i > 0 {
        assert r[i - 1] !in terminal && TargetsOf(edges, r[i - 1]) == [r[i - 1 + 1]];
        assert q[i] == r[i - 1] && q[i + 1] == r[i];
      }
    }
    assert IsTail(edges, terminal, q) && q[0] == v && |q| == (d + 1) + 1;
  }

  lemma TailOfTerminal(edges: seq<GraphEdge>, terminal: set<NodeId>, v: NodeId)
    requires v in terminal
    ensures IsTailDepth(edges, terminal, v, Some(0))
  {
    var p: Walk := [v];
    assert IsTail(edges, terminal, p) && p[0] == v && |p| == 0 + 1;
    hide HasTail;
    forall d: nat | HasTail(edges, terminal, v, d) ensures d == 0 {
      TailUncons(edges, terminal, v, d);
    }
  }

  lemma TailOfBranch(edges: seq<GraphEdge>, terminal: set<NodeId>, v: NodeId)
    requires v !in terminal && |TargetsOf(edges, v)| != 1
    ensures IsTailDepth(edges, terminal, v, None)
  {
    hide HasTail;
    forall d: nat ensures !HasTail(edges, terminal, v, d) {
      if HasTail(edges, terminal, v, d) { TailUncons(edges, terminal, v, d); }
    }
  }

  lemma TailOfStraight(edges: seq<GraphEdge>, terminal: set<NodeId>, v: NodeId, child: NodeId, depth: Option<nat>)
    requires v !in terminal && TargetsOf(edges, v) == [child]
    requires IsTailDepth(edges, terminal, child, depth)
    ensures IsTailDepth(edges, terminal, v, if depth.None? then None else Some(depth.value + 1))
  {
    hide HasTail;
    forall d: nat
      ensures HasTail(edges, terminal, v, d) <==> d > 0 && HasTail(edges, terminal, child, d - 1)
    {
      if HasTail(edges, terminal, v, d) { TailUncons(edges, terminal, v, d); }
      if d > 0 && HasTail(edges, terminal, child, d - 1) { TailCons(edges, terminal, v, child, d - 1); }
    }
  }

  lemma TargetsDescend(edges: seq<GraphEdge>, order: map<NodeId, nat>, v: NodeId, child: NodeId)
    requires Descends(Arcs(edges), order) && child in TargetsOf(edges, v) && v in order
    ensures child in order && order[child] < order[v]
  {
    assert Arc(v, child) in Arcs(edges);
  }

  /** The memoised recursion over tails. `pending` holds the nodes whose visit is in progress. */
  class TailVisitor {
    const edges: seq<GraphEdge>
    const terminal: set<NodeId>
    const outgoing: map<NodeId, seq<NodeId>>
    var memo: map<NodeId, Option<nat>>
    ghost var pending: set<NodeId>

    ghost predicate Valid()
      reads this
    {
      && (forall v :: v in outgoing <==> TargetsOf(edges, v) != [])
      && (forall v :: v in outgoing ==> outgoing[v] == TargetsOf(edges, v))
      && (forall v :: v in memo && v !in pending ==> IsTailDepth(edges, terminal, v, memo[v]))
      && pending <= memo.Keys
    }

    constructor (edges: seq<GraphEdge>, terminal: set<NodeId>, outgoing: map<NodeId, seq<NodeId>>)
      requires forall v :: v in outgoing <==> TargetsOf(edges, v) != []
      requires forall v :: v in outgoing ==> outgoing[v] == TargetsOf(edges, v)
      ensures Valid() && pending == {} && memo == map[]
      ensures this.edges == edges && this.terminal == terminal
    {
      this.edges, this.terminal, this.outgoing := edges, terminal, outgoing;
      memo, pending := map[], {};
    }

    method Visit(nodeId: NodeId, ghost order: map<NodeId, nat>) returns (depth: Option<nat>)
      requires Valid() && Descends(Arcs(edges), order) && nodeId in order
      requires forall v :: v in pending ==> v in order && order[v] > order[nodeId]
      modifies this
      ensures Valid() && pending == old(pending)
      ensures memo.Keys >= old(memo.Keys) + {nodeId}
      ensures IsTailDepth(edges, terminal, nodeId, depth)
      decreases order[nodeId]
    {
      hide HasTail, IsTailDepth, Descends, TargetsOf;
      if nodeId in memo {
        return memo[nodeId];
      }
      if nodeId in terminal {
        TailOfTerminal(edges, terminal, nodeId);
        memo := memo[nodeId := Some(0)];
        return Some(0);
      }
      var targets := if nodeId in outgoing then outgoing[nodeId] else [];
      if |targets| != 1 {
        TailOfBranch(edges, terminal, nodeId);
        memo := memo[nodeId := None];
        return None;
      }
      var child := targets[0];
      TargetsDescend(edges, order, nodeId, child);
      memo := memo[nodeId := None];
      pending := pending + {nodeId};
      var childDepth := Visit(child, order);
      depth := if childDepth.None? then None else Some(childDepth.value + 1);
      TailOfStraight(edges, terminal, nodeId, child, childDepth);
      memo := memo[nodeId := depth];
      pending := pending - {nodeId};
    }
  }

  /** The targets of each node, in edge order. */
  method GroupTargets(forwardEdges: seq<GraphEdge>) returns (outgoing: map<NodeId, seq<NodeId>>)
    ensures forall v :: v in outgoing <==> TargetsOf(forwardEdges, v) != []
    ensures forall v :: v in outgoing ==> outgoing[v] == TargetsOf(forwardEdges, v)
  {
    outgoing := map[];
    for j := 0 to |forwardEdges|
      invariant forall v :: v in outgoing <==> TargetsOf(forwardEdges[..j], v) != []
      invariant forall v :: v in outgoing ==> outgoing[v] == TargetsOf(forwardEdges[..j], v)
    {
      var edge := forwardEdges[j];
      assert forwardEdges[..j + 1][..j] == forwardEdges[..j];
      outgoing := outgoing[edge.from := (if edge.from in outgoing then outgoing[edge.from] else []) + [edge.to]];
    }
    assert forwardEdges[..|forwardEdges|] == forwardEdges;
  }

  method ComputeTailDepths(orderedNodeIds: seq<NodeId>, forwardEdges: seq<GraphEdge>, terminalNodeIds: set<NodeId>,
                           ghost order: map<NodeId, nat>) returns (depths: map<NodeId, nat>)
    requires Descends(Arcs(forwardEdges), order)
    requires forall v :: v in orderedNodeIds ==> v in order
    ensures forall v :: v in depths ==> HasTail(forwardEdges, terminalNodeIds, v, depths[v])
    ensures forall v, d: nat :: v in orderedNodeIds && HasTail(forwardEdges, terminalNodeIds, v, d) ==>
      v in depths && depths[v] == d
  {
    hide HasTail, TargetsOf, Descends;
    var outgoing := GroupTargets(forwardEdges);
    var visitor := new TailVisitor(forwardEdges, terminalNodeIds, outgoing);
    for k := 0 to |orderedNodeIds|
      invariant visitor.Valid() && visitor.pending == {}
      invariant visitor.edges == forwardEdges && visitor.terminal == terminalNodeIds
      invariant forall v :: v in orderedNodeIds[..k] ==> v in visitor.memo
    {
      var depth := visitor.Visit(orderedNodeIds[k], order);
    }
    depths := map v | v in visitor.memo && visitor.memo[v].Some? :: visitor.memo[v].value;
    forall v | v in depths ensures HasTail(forwardEdges, terminalNodeIds, v, depths[v]) {
      assert IsTailDepth(forwardEdges, terminalNodeIds, v, visitor.memo[v]);
    }
    forall v, d: nat | v in orderedNodeIds && HasTail(forwardEdges, terminalNodeIds, v, d)
      ensures v in depths && depths[v] == d
    {
      assert IsTailDepth(forwardEdges, terminalNodeIds, v, visitor.memo[v]);
    }
  }

  // ---- Ranks ---------------------------------------------------------------------------------

  /** The unmarked edges, in order. */
  function ForwardEdges(edges: seq<GraphEdge>): (forward: seq<GraphEdge>)
    ensures forall e :: e in forward <==> e in edges && !e.isBackEdge
  {
    if edges == [] then []
    else
      var rest, last := edges[..|edges| - 1], edges[|edges| - 1];
      assert edges == rest + [last];
      ForwardEdges(rest) + if last.isBackEdge then [] else [last]
  }

  lemma ForwardArcsOfForwardEdges(edges: seq<GraphEdge>)
    ensures Arcs(ForwardEdges(edges)) == ForwardArcs(edges)
  {
  }

  function Max(a: nat, b: int): nat { if b > a then b else a }

  /** The largest value of `m`, or 0 when it is empty. */
  ghost predicate IsMax(m: map<NodeId, nat>, max: nat) {
    (forall k :: k in m ==> m[k] <= max) && (max == 0 || exists k :: k in m && m[k] == max)
  }

  /** `Math.max(0, ...m.values())` */
  method MaxValue(m: map<NodeId, nat>) returns (max: nat)
    ensures IsMax(m, max)
  {
    max := 0;
    var left := m.Keys;
    while left != {}
      invariant left <= m.Keys
      invariant forall k :: k in m && k !in left ==> m[k] <= max
      invariant max == 0 || exists k :: k in m && m[k] == max
      decreases left
    {
      var k :| k in left;
      if m[k] > max { max := m[k]; }
      left := left - {k};
    }
  }

  /** How many of the nodes have no level. */
  function Unlevelled(nodes: seq<NodeId>, levels: map<NodeId, nat>): nat {
    if nodes == [] then 0
    else Unlevelled(nodes[..|nodes| - 1], levels) + if nodes[|nodes| - 1] in levels then 0 else 1
  }

  /** Levels as first ranks; the nodes without a level get the ranks below the lowest level, one each, as listed. */
  ghost predicate FirstRanks(ordered: seq<NodeId>, levels: map<NodeId, nat>, base: map<NodeId, nat>) {
    && base.Keys == (set v | v in ordered)
    && (forall v :: v in base && v in levels ==> base[v] == levels[v])
    && exists lowest: nat :: IsMax(levels, lowest) && FallbackRanks(ordered, levels, base, lowest)
  }

  ghost predicate FallbackRanks(ordered: seq<NodeId>, levels: map<NodeId, nat>, base: map<NodeId, nat>, lowest: nat) {
    forall k :: 0 <= k < |ordered| && ordered[k] !in levels ==>
      ordered[k] in base && base[ordered[k]] == lowest + 1 + Unlevelled(ordered[..k], levels)
  }

  lemma FallbackIsLower(ordered: seq<NodeId>, levels: map<NodeId, nat>, base: map<NodeId, nat>, u: NodeId, v: NodeId)
    requires FirstRanks(ordered, levels, base) && u in base && u !in levels && v in levels
    ensures levels[v] < base[u]
  {
    var lowest: nat :| IsMax(levels, lowest) && FallbackRanks(ordered, levels, base, lowest);
    assert u in ordered;
    var k :| 0 <= k < |ordered| && ordered[k] == u;
  }

  /** The final rank of `v`: its first rank, or further down so that its tail ends on the bottom rank. */
  function Sunk(base: nat, tail: Option<nat>, maxRank: nat): nat {
    if tail.None? then base else Max(base, maxRank - tail.value)
  }

  /** `rank` sinks every node of `base` by its own tail, down to the lowest of the first ranks. */
  ghost predicate SunkRanks(
    forward: seq<GraphEdge>, terminal: set<NodeId>, base: map<NodeId, nat>, rank: map<NodeId, nat>, maxRank: nat)
  {
    && rank.Keys == base.Keys && IsMax(base, maxRank)
    && forall v :: v in base ==> SunkAt(forward, terminal, v, base[v], rank[v], maxRank)
  }

  ghost predicate SunkAt(
    forward: seq<GraphEdge>, terminal: set<NodeId>, v: NodeId, base: nat, rank: nat, maxRank: nat)
  {
    exists tail: Option<nat> :: IsTailDepth(forward, terminal, v, tail) && rank == Sunk(base, tail, maxRank)
  }

  /** `bottom` is the lowest rank taken, and every node without an unmarked edge out lies on it. */
  ghost predicate BottomRank(ordered: seq<NodeId>, forward: seq<GraphEdge>, rank: map<NodeId, nat>, bottom: nat) {
    && IsMax(rank, bottom)
    && (forall v :: v in Terminals(ordered, forward) ==> v in rank && rank[v] == bottom)
  }

  /** The nodes with no unmarked edge out. */
  ghost function Terminals(ordered: seq<NodeId>, forward: seq<GraphEdge>): set<NodeId> {
    set v | v in ordered && TargetsOf(forward, v) == []
  }

  /** What a ranking of `ordered` promises. */
  ghost predicate Ranked(startAt: NodeId, ordered: seq<NodeId>, forward: seq<GraphEdge>, rank: map<NodeId, nat>) {
    exists levels, base, maxRank: nat ::
      && LongestLevels(Arcs(forward), startAt, levels)
      && FirstRanks(ordered, levels, base)
      && SunkRanks(forward, Terminals(ordered, forward), base, rank, maxRank)
  }

  /** A straight step shortens the tail by one. */
  lemma TailStep(forward: seq<GraphEdge>, terminal: set<NodeId>, e: GraphEdge, tail: Option<nat>, tail': Option<nat>)
    requires e in forward && e.from !in terminal
    requires IsTailDepth(forward, terminal, e.from, tail) && IsTailDepth(forward, terminal, e.to, tail')
    ensures tail.Some? ==> tail.value > 0 && tail' == Some(tail.value - 1)
  {
    assert e.ToArc() in Arcs(forward);
    assert e.to in TargetsOf(forward, e.from);
    if tail.Some? {
      assert HasTail(forward, terminal, e.from, tail.value);
      TailUncons(forward, terminal, e.from, tail.value);
      assert HasTail(forward, terminal, e.to, tail.value - 1);
    }
  }

  /** Along an edge whose source has a level, ranks strictly grow, pulled down or not. */
  lemma EdgeGoesDown(
    ordered: seq<NodeId>, forward: seq<GraphEdge>, levels: map<NodeId, nat>, base: map<NodeId, nat>,
    rank: map<NodeId, nat>, maxRank: nat, e: GraphEdge)
    requires FirstRanks(ordered, levels, base)
    requires SunkRanks(forward, Terminals(ordered, forward), base, rank, maxRank)
    requires e in forward && e.from in levels && Relaxed(e, levels, levels)
    requires e.from in base && e.to in base
    ensures rank[e.from] < rank[e.to]
  {
    var terminal := Terminals(ordered, forward);
    assert e.from !in terminal by {
      assert e.ToArc() in Arcs(forward);
      assert e.to in TargetsOf(forward, e.from);
    }
    assert base[e.from] < base[e.to] by {
      if e.to !in levels { FallbackIsLower(ordered, levels, base, e.to, e.from); }
    }
    assert SunkAt(forward, terminal, e.from, base[e.from], rank[e.from], maxRank);
    assert SunkAt(forward, terminal, e.to, base[e.to], rank[e.to], maxRank);
    hide IsTailDepth, TargetsOf, Terminals;
    var t: Option<nat> :| IsTailDepth(forward, terminal, e.from, t) && rank[e.from] == Sunk(base[e.from], t, maxRank);
    var t': Option<nat> :| IsTailDepth(forward, terminal, e.to, t') && rank[e.to] == Sunk(base[e.to], t', maxRank);
    TailStep(forward, terminal, e, t, t');
  }

  /** Every node without an unmarked edge out lands on the bottom rank, which no node passes. */
  lemma TerminalsAtBottom(
    ordered: seq<NodeId>, forward: seq<GraphEdge>, base: map<NodeId, nat>, rank: map<NodeId, nat>, maxRank: nat,
      v: NodeId)
    requires SunkRanks(forward, Terminals(ordered, forward), base, rank, maxRank)
    requires v in base
    ensures base[v] <= rank[v] <= maxRank
    ensures v in Terminals(ordered, forward) ==> rank[v] == maxRank
  {
    var terminal := Terminals(ordered, forward);
    assert SunkAt(forward, terminal, v, base[v], rank[v], maxRank);
    var t: Option<nat> :| IsTailDepth(forward, terminal, v, t) && rank[v] == Sunk(base[v], t, maxRank);
    if v in terminal {
      TailOfTerminal(forward, terminal, v);
      assert HasTail(forward, terminal, v, 0);
    }
  }

  method FilterForward(edges: array<GraphEdge>) returns (forwardEdges: seq<GraphEdge>)
    ensures forwardEdges == ForwardEdges(edges[..])
  {
    forwardEdges := [];
    for j := 0 to edges.Length
      invariant forwardEdges == ForwardEdges(edges[..j])
    {
      assert edges[..j + 1][..j] == edges[..j];
      if !edges[j].isBackEdge { forwardEdges := forwardEdges + [edges[j]]; }
    }
    assert edges[..edges.Length] == edges[..];
  }

  method FindTerminals(ordered: seq<NodeId>, forwardEdges: seq<GraphEdge>) returns (terminal: set<NodeId>)
    ensures terminal == Terminals(ordered, forwardEdges)
  {
    var counts: map<NodeId, nat> := map[];
    for j := 0 to |forwardEdges|
      invariant forall v :: v in counts <==> TargetsOf(forwardEdges[..j], v) != []
    {
      assert forwardEdges[..j + 1][..j] == forwardEdges[..j];
      var from := forwardEdges[j].from;
      counts := counts[from := (if from in counts then counts[from] else 0) + 1];
    }
    assert forwardEdges[..|forwardEdges|] == forwardEdges;
    terminal := set v | v in ordered && v !in counts;
  }

  /** Listing one more node, with the rank it gets. */
  lemma FallbackNext(ordered: seq<NodeId>, levels: map<NodeId, nat>, base: map<NodeId, nat>, lowest: nat, k: nat,
      rank: nat)
    requires k < |ordered| && NoDup(ordered) && FallbackRanks(ordered[..k], levels, base, lowest)
    requires ordered[k] !in levels ==> rank == lowest + 1 + Unlevelled(ordered[..k], levels)
    ensures FallbackRanks(ordered[..k + 1], levels, base[ordered[k] := rank], lowest)
    ensures Unlevelled(ordered[..k + 1], levels) == Unlevelled(ordered[..k], levels) + if ordered[k] in levels then 0
        else 1
  {
    var longer := ordered[..k + 1];
    assert longer[..k] == ordered[..k];
    hide Unlevelled;
    forall j | 0 <= j < |longer| && longer[j] !in levels
      ensures base[ordered[k] := rank][longer[j]] == lowest + 1 + Unlevelled(longer[..j], levels)
    {
      if j < k {
        assert longer[j] == ordered[..k][j] && longer[j] != ordered[k];
        assert longer[..j] == ordered[..k][..j];
      }
    }
  }

  method AssignFirstRanks(ordered: seq<NodeId>, levels: map<NodeId, nat>) returns (base: map<NodeId, nat>)
    requires NoDup(ordered)
    ensures FirstRanks(ordered, levels, base)
  {
    hide NoDup, FallbackRanks, IsMax;
    base := map[];
    var fallback := MaxValue(levels);
    ghost var lowest := fallback;
    NoneListed(levels, base, lowest);
    for k := 0 to |ordered|
      invariant base.Keys == (set v | v in ordered[..k])
      invariant fallback == lowest + Unlevelled(ordered[..k], levels)
      invariant forall v :: v in base && v in levels ==> base[v] == levels[v]
      invariant FallbackRanks(ordered[..k], levels, base, lowest)
    {
      var nodeId := ordered[k];
      assert ordered[..k + 1] == ordered[..k] + [nodeId];
      FallbackNext(ordered, levels, base, lowest, k, if nodeId in levels then levels[nodeId] else fallback + 1);
      hide Unlevelled;
      if nodeId in levels {
        base := base[nodeId := levels[nodeId]];
      } else {
        fallback := fallback + 1;
        base := base[nodeId := fallback];
      }
    }
    assert ordered[..|ordered|] == ordered;
  }

  lemma NoneListed(levels: map<NodeId, nat>, base: map<NodeId, nat>, lowest: nat)
    ensures FallbackRanks([], levels, base, lowest)
  {
  }

  method SinkTails(ordered: seq<NodeId>, ghost forward: seq<GraphEdge>, base: map<NodeId, nat>,
                   tailDepths: map<NodeId, nat>) returns (rankOfNode: map<NodeId, nat>)
    requires NoDup(ordered) && base.Keys == (set v | v in ordered)
    requires forall v :: v in tailDepths ==> HasTail(forward, Terminals(ordered, forward), v, tailDepths[v])
    requires forall v, d: nat :: v in ordered && HasTail(forward, Terminals(ordered, forward), v, d) ==>
      v in tailDepths && tailDepths[v] == d
    ensures exists maxRank: nat :: SunkRanks(forward, Terminals(ordered, forward), base, rankOfNode, maxRank)
  {
    hide HasTail, Terminals, SunkRanks;
    rankOfNode := base;
    var maxRank := MaxValue(rankOfNode);
    for k := 0 to |ordered|
      invariant rankOfNode.Keys == base.Keys
      invariant forall i :: k <= i < |ordered| ==> rankOfNode[ordered[i]] == base[ordered[i]]
      invariant forall i :: 0 <= i < k ==>
        rankOfNode[ordered[i]] == Sunk(base[ordered[i]], DepthOf(tailDepths, ordered[i]), maxRank)
    {
      var nodeId := ordered[k];
      if nodeId in tailDepths {
        var lifted := (maxRank as int) - (tailDepths[nodeId] as int);
        rankOfNode := rankOfNode[nodeId := Max(rankOfNode[nodeId], lifted)];
      }
    }
    DepthsSink(ordered, forward, base, tailDepths, rankOfNode, maxRank);
  }

  function DepthOf(tailDepths: map<NodeId, nat>, v: NodeId): Option<nat> {
    if v in tailDepths then Some(tailDepths[v]) else None
  }

  lemma DepthsSink(ordered: seq<NodeId>, forward: seq<GraphEdge>, base: map<NodeId, nat>,
                   tailDepths: map<NodeId, nat>, rank: map<NodeId, nat>, maxRank: nat)
    requires base.Keys == (set v | v in ordered) == rank.Keys
    requires forall v :: v in tailDepths ==> HasTail(forward, Terminals(ordered, forward), v, tailDepths[v])
    requires forall v, d: nat :: v in ordered && HasTail(forward, Terminals(ordered, forward), v, d) ==>
      v in tailDepths && tailDepths[v] == d
    requires IsMax(base, maxRank)
    requires forall i :: 0 <= i < |ordered| ==>
      rank[ordered[i]] == Sunk(base[ordered[i]], DepthOf(tailDepths, ordered[i]), maxRank)
    ensures SunkRanks(forward, Terminals(ordered, forward), base, rank, maxRank)
  {
    var terminal := Terminals(ordered, forward);
    hide HasTail;
    forall v | v in base ensures SunkAt(forward, terminal, v, base[v], rank[v], maxRank) {
      var i :| 0 <= i < |ordered| && ordered[i] == v;
      assert IsTailDepth(forward, terminal, v, DepthOf(tailDepths, v));
    }
  }

  method ComputeNodeRanks(startAt: NodeId, ordered: seq<NodeId>, edges: array<GraphEdge>, ghost order: map<NodeId, nat>)
    returns (rankOfNode: map<NodeId, nat>)
    requires NoDup(ordered) && Descends(ForwardArcs(edges[..]), order)
    requires forall v :: v in ordered ==> v in order
    requires startAt in order && order[startAt] < |ordered|
    requires forall v :: Reaches(ForwardArcs(edges[..]), startAt, v) ==> v in ordered
    ensures rankOfNode.Keys == (set v | v in ordered)
    ensures Ranked(startAt, ordered, ForwardEdges(edges[..]), rankOfNode)
    ensures forall e :: e in ForwardEdges(edges[..]) && Reaches(ForwardArcs(edges[..]), startAt, e.from) ==>
      e.from in rankOfNode && e.to in rankOfNode && rankOfNode[e.from] < rankOfNode[e.to]
    ensures exists bottom: nat :: BottomRank(ordered, ForwardEdges(edges[..]), rankOfNode, bottom)
  {
    var forwardEdges := FilterForward(edges);
    ForwardArcsOfForwardEdges(edges[..]);
    var longest := ComputeLongestLevels(startAt, ordered, forwardEdges, order);
    var terminalNodeIds := FindTerminals(ordered, forwardEdges);
    var tailDepths := ComputeTailDepths(ordered, forwardEdges, terminalNodeIds, order);
    var base := AssignFirstRanks(ordered, longest);
    rankOfNode := SinkTails(ordered, forwardEdges, base, tailDepths);
    ghost var maxRank: nat :| SunkRanks(forwardEdges, Terminals(ordered, forwardEdges), base, rankOfNode, maxRank);
    RanksHold(startAt, ordered, forwardEdges, longest, base, rankOfNode, maxRank);
  }

  lemma RanksHold(
    startAt: NodeId, ordered: seq<NodeId>, forward: seq<GraphEdge>, levels: map<NodeId, nat>, base: map<NodeId, nat>,
    rank: map<NodeId, nat>, maxRank: nat)
    requires LongestLevels(Arcs(forward), startAt, levels)
    requires FirstRanks(ordered, levels, base)
    requires SunkRanks(forward, Terminals(ordered, forward), base, rank, maxRank)
    requires forall v :: Reaches(Arcs(forward), startAt, v) ==> v in ordered
    ensures forall e :: e in forward && Reaches(Arcs(forward), startAt, e.from) ==>
      e.from in rank && e.to in rank && rank[e.from] < rank[e.to]
    ensures BottomRank(ordered, forward, rank, maxRank)
  {
    forall e | e in forward && Reaches(Arcs(forward), startAt, e.from)
      ensures e.from in rank && e.to in rank && rank[e.from] < rank[e.to]
    {
      assert e.ToArc() in Arcs(forward);
      ReachesExtend(Arcs(forward), startAt, e.from, e.to);
      LongestIsFixpoint(forward, startAt, levels, e);
      EdgeGoesDown(ordered, forward, levels, base, rank, maxRank, e);
    }
    forall v | v in rank
      ensures base[v] <= rank[v] <= maxRank && (v in Terminals(ordered, forward) ==> rank[v] == maxRank)
    {
      TerminalsAtBottom(ordered, forward, base, rank, maxRank, v);
    }
  }
}
