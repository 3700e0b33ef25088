/** The edge list of a workflow definition, and the breadth-first order its nodes are laid out in. */
module GraphEdges {
  import opened Decimals
  import opened GraphPaths

  datatype Option<+T> = None | Some(value: T)

  datatype Target = Direct(to: NodeId) | Switch(cases: seq<(string, NodeId)>)

  datatype SourceEdge = SourceEdge(from: NodeId, target: Target)

  /** `nodes` lists the keys of the definition's node object. */
  datatype Snapshot = Snapshot(startAt: NodeId, nodes: seq<NodeId>, edges: seq<SourceEdge>)

  datatype GraphEdge = GraphEdge(
    edgeId: string, from: NodeId, to: NodeId, caseLabel: Option<string>, isBackEdge: bool)
  {
    function ToArc(): Arc { Arc(from, to) }
  }

  ghost function Arcs(edges: seq<GraphEdge>): set<Arc> {
    set e | e in edges :: e.ToArc()
  }

  /** The arcs of the edges that are not marked as back edges. */
  ghost function ForwardArcs(edges: seq<GraphEdge>): set<Arc> {
    set e | e in edges && !e.isBackEdge :: e.ToArc()
  }

  ghost predicate NoDup<T>(s: seq<T>) {
    forall i, j :: 0 <= i < j < |s| ==> s[i] != s[j]
  }

  // ---- Expansion of switch edges -------------------------------------------------------------

  function EdgeIdOf(from: NodeId, to: NodeId, index: nat, branch: nat): string {
    from + "->" + to + "#" + Decimal(index) + "." + Decimal(branch)
  }

  function Branches(edge: SourceEdge, index: nat): seq<GraphEdge> {
    match edge.target
    case Direct(to) => [GraphEdge(EdgeIdOf(edge.from, to, index, 0), edge.from, to, None, false)]
    case Switch(cases) =>
      seq(|cases|, b requires 0 <= b < |cases| =>
        GraphEdge(EdgeIdOf(edge.from, cases[b].1, index, b), edge.from, cases[b].1, Some(cases[b].0), false))
  }

  function ExpandFrom(edges: seq<SourceEdge>, index: nat): seq<GraphEdge> {
    if edges == [] then [] else Branches(edges[0], index) + ExpandFrom(edges[1..], index + 1)
  }

  function ExpandEdges(snapshot: Snapshot): seq<GraphEdge> {
    ExpandFrom(snapshot.edges, 0)
  }

  /** `e` is the unmarked edge of branch `branch` of source edge `index`, and its id names both. */
  ghost predicate IsBranch(edges: seq<SourceEdge>, first: nat, index: nat, branch: nat, e: GraphEdge) {
    && first <= index < first + |edges|
    && var s := edges[index - first];
    && e.from == s.from
    && !e.isBackEdge
    && e.edgeId == EdgeIdOf(e.from, e.to, index, branch)
    && match s.target
       case Direct(to) => branch == 0 && e.to == to && e.caseLabel == None
       case Switch(cases) => branch < |cases| && e.to == cases[branch].1 && e.caseLabel == Some(cases[branch].0)
  }

  lemma LongerPrefixHoldsCut(a: string, s: string, b: string, t: string, c: char)
    requires a + [c] + s == b + [c] + t
    requires |a| < |b|
    ensures c in s
  {
    var w := a + [c] + s;
    assert w[|b|] == (b + [c] + t)[|b|] == c;
    assert w[|b|] == s[|b| - |a| - 1];
  }

  /** Two strings cut at the last occurrence of `c` agree on both parts. */
  lemma LastCutUnique(a: string, s: string, b: string, t: string, c: char)
    requires c !in s && c !in t
    requires a + [c] + s == b + [c] + t
    ensures s == t && a == b
  {
    var w := a + [c] + s;
    if |a| < |b| {
      LongerPrefixHoldsCut(a, s, b, t, c);
    } else if |b| < |a| {
      LongerPrefixHoldsCut(b, t, a, s, c);
    }
    assert a == w[..|a|] && b == w[..|b|];
    assert s == w[|a| + 1..] && t == w[|b| + 1..];
  }

  lemma EdgeIdInjective(f: NodeId, t: NodeId, i: nat, b: nat, f': NodeId, t': NodeId, i': nat, b': nat)
    requires EdgeIdOf(f, t, i, b) == EdgeIdOf(f', t', i', b')
    ensures i == i' && b == b'
  {
    var s, s' := Decimal(i) + "." + Decimal(b), Decimal(i') + "." + Decimal(b');
    var p, p' := f + "->" + t, f' + "->" + t';
    assert EdgeIdOf(f, t, i, b) == p + ['#'] + s;
    assert EdgeIdOf(f', t', i', b') == p' + ['#'] + s';
    LastCutUnique(p, s, p', s', '#');
    LastCutUnique(Decimal(i), Decimal(b), Decimal(i'), Decimal(b'), '.');
    DecimalInjective(i, i');
    DecimalInjective(b, b');
  }

  /** Expansion yields exactly the branches of the source edges. */
  lemma {:induction false} ExpandFromExact(edges: seq<SourceEdge>, first: nat)
    ensures forall e :: e in ExpandFrom(edges, first) ==>
      exists index: nat, branch: nat :: IsBranch(edges, first, index, branch, e)
    ensures forall e, index: nat, branch: nat :: IsBranch(edges, first, index, branch, e) ==>
      e in ExpandFrom(edges, first)
    decreases |edges|
  {
    if edges == [] {
    } else {
      var head, tail := Branches(edges[0], first), ExpandFrom(edges[1..], first + 1);
      ExpandFromExact(edges[1..], first + 1);
      forall e | e in head + tail
        ensures exists index: nat, branch: nat :: IsBranch(edges, first, index, branch, e)
      {
        if e in head {
          var b :| 0 <= b < |head| && head[b] == e;
          assert IsBranch(edges, first, first, b, e);
        } else {
          var index: nat, branch: nat :| IsBranch(edges[1..], first + 1, index, branch, e);
          assert IsBranch(edges, first, index, branch, e);
        }
      }
      forall e, index: nat, branch: nat | IsBranch(edges, first, index, branch, e)
        ensures e in head + tail
      {
        if index == first {
          assert head[branch] == e;
        } else {
          assert IsBranch(edges[1..], first + 1, index, branch, e);
        }
      }
    }
  }

  /** No two edges of one expansion share an id. */
  lemma {:induction false} EdgeIdsDistinct(edges: seq<SourceEdge>, first: nat)
    ensures forall i, j :: 0 <= i < j < |ExpandFrom(edges, first)| ==>
      ExpandFrom(edges, first)[i].edgeId != ExpandFrom(edges, first)[j].edgeId
    decreases |edges|
  {
    if edges == [] {
    } else {
      var head, tail := Branches(edges[0], first), ExpandFrom(edges[1..], first + 1);
      EdgeIdsDistinct(edges[1..], first + 1);
      ExpandFromExact(edges[1..], first + 1);
      var all: seq<GraphEdge> := head + tail;
      forall i, j | 0 <= i < j < |all|
        ensures all[i].edgeId != all[j].edgeId
      {
        if i < |head| {
          var e, e' := head[i], all[j];
          if j < |head| {
            if e.edgeId == e'.edgeId { EdgeIdInjective(e.from, e.to, first, i, e'.from, e'.to, first, j); }
          } else {
            assert e' == tail[j - |head|] && e' in ExpandFrom(edges[1..], first + 1);
            var index: nat, branch: nat :| IsBranch(edges[1..], first + 1, index, branch, e');
            if e.edgeId == e'.edgeId { EdgeIdInjective(e.from, e.to, first, i, e'.from, e'.to, index, branch); }
          }
        } else {
          assert all[i] == tail[i - |head|] && all[j] == tail[j - |head|];
        }
      }
    }
  }

  // ---- Breadth-first order -------------------------------------------------------------------

  /** What the order lists: everything `startAt` reaches, and every node of the definition. */
  ghost predicate Covers(g: set<Arc>, startAt: NodeId, nodes: seq<NodeId>, ordered: seq<NodeId>) {
    && NoDup(ordered)
    && |ordered| > 0 && ordered[0] == startAt
    && (forall v :: v in ordered <==> v in nodes || Reaches(g, startAt, v))
  }

  /** `a` is no further from `startAt` than `b`, where an unreachable node is infinitely far. */
  ghost predicate Nearer(g: set<Arc>, startAt: NodeId, a: NodeId, b: NodeId) {
    forall n: nat :: ShortestWalk(g, startAt, b, n) ==>
      exists m: nat :: ShortestWalk(g, startAt, a, m) && m <= n
  }

  /** Nodes come in order of their distance from `startAt`, unreachable nodes last. */
  ghost predicate ByDistance(g: set<Arc>, startAt: NodeId, ordered: seq<NodeId>) {
    forall i, j :: 0 <= i < j < |ordered| ==> Nearer(g, startAt, ordered[i], ordered[j])
  }

  /** The taken nodes with their distances, nearest first. */
  ghost predicate Taken(g: set<Arc>, startAt: NodeId, ordered: seq<NodeId>, dist: map<NodeId, nat>) {
    && NoDup(ordered)
    && dist.Keys == (set v | v in ordered)
    && (ordered != [] ==> ordered[0] == startAt && dist[startAt] == 0)
    && (forall v :: v in dist ==> ShortestWalk(g, startAt, v, dist[v]))
    && (forall i, j :: 0 <= i < j < |ordered| ==> dist[ordered[i]] <= dist[ordered[j]])
  }

  /** The queued nodes with the lengths of the walks that queued them: at most two lengths, shorter first. */
  ghost predicate Queued(g: set<Arc>, startAt: NodeId, queue: seq<NodeId>, depths: seq<nat>) {
    && |depths| == |queue|
    && (forall k :: 0 <= k < |queue| ==> Connects(g, startAt, queue[k], depths[k]))
    && (forall i, j :: 0 <= i <= j < |depths| ==> depths[i] <= depths[j] <= depths[0] + 1)
  }

  /** `v` has been taken, or waits in the queue, at distance at most `n`. */
  ghost predicate Settled(v: NodeId, n: nat, queue: seq<NodeId>, depths: seq<nat>, dist: map<NodeId, nat>)
    requires |depths| == |queue|
  {
    || (v in dist && dist[v] <= n)
    || (exists k :: 0 <= k < |queue| && queue[k] == v && depths[k] <= n)
  }

  ghost predicate BfsInvariant(
    g: set<Arc>, startAt: NodeId, queue: seq<NodeId>, depths: seq<nat>, ordered: seq<NodeId>, dist: map<NodeId, nat>)
  {
    && Taken(g, startAt, ordered, dist)
    && Queued(g, startAt, queue, depths)
    && (ordered == [] ==> queue == [startAt] && depths == [0])
    && (forall v, k :: v in dist && 0 <= k < |depths| ==> dist[v] <= depths[k])
    && (forall a :: a in g && a.from in dist ==> Settled(a.to, dist[a.from] + 1, queue, depths, dist))
  }

  /** Every node nearer than the head of the queue has been taken. */
  lemma {:induction false} NearerIsTaken(
    g: set<Arc>, startAt: NodeId, queue: seq<NodeId>, depths: seq<nat>, ordered: seq<NodeId>, dist: map<NodeId, nat>,
    v: NodeId, n: nat)
    requires BfsInvariant(g, startAt, queue, depths, ordered, dist)
    requires |queue| > 0 ==> n < depths[0]
    requires Connects(g, startAt, v, n)
    requires ordered != []
    ensures v in dist && dist[v] <= n
    decreases n
  {
    if n == 0 {
      assert v == startAt;
    } else {
      var u := ConnectsSplit(g, startAt, v, n);
      NearerIsTaken(g, startAt, queue, depths, ordered, dist, u, n - 1);
      assert Settled(v, dist[u] + 1, queue, depths, dist);
    }
  }

  /** The targets of the edges that leave `nodeId`, in edge order. */
  function TargetsOf(edges: seq<GraphEdge>, nodeId: NodeId): (targets: seq<NodeId>)
    ensures forall t :: t in targets <==> Arc(nodeId, t) in Arcs(edges)
  {
    if edges == [] then []
    else
      var rest, last := edges[..|edges| - 1], edges[|edges| - 1];
      assert edges == rest + [last];
      assert forall e :: e in edges <==> e in rest || e == last;
      assert Arcs(edges) == Arcs(rest) + {last.ToArc()};
      TargetsOf(rest, nodeId) + if last.from == nodeId then [last.to] else []
  }

  /** Taking a node again changes nothing but the queue. */
  lemma SkipKeepsInvariant(
    g: set<Arc>, startAt: NodeId, queue: seq<NodeId>, depths: seq<nat>, ordered: seq<NodeId>, dist: map<NodeId, nat>)
    requires BfsInvariant(g, startAt, queue, depths, ordered, dist)
    requires |queue| > 0 && queue[0] in dist
    ensures BfsInvariant(g, startAt, queue[1..], depths[1..], ordered, dist)
  {
    forall a | a in g && a.from in dist
      ensures Settled(a.to, dist[a.from] + 1, queue[1..], depths[1..], dist)
    {
      SettledAfterTake(a.to, dist[a.from] + 1, queue, depths, dist);
    }
  }

  /** Dropping the head of the queue leaves every other node as settled as it was. */
  lemma SettledAfterTake(v: NodeId, n: nat, queue: seq<NodeId>, depths: seq<nat>, dist: map<NodeId, nat>)
    requires |depths| == |queue| > 0
    requires Settled(v, n, queue, depths, dist)
    ensures Settled(v, n, queue[1..], depths[1..], dist) || (v == queue[0] && depths[0] <= n)
  {
    if !(v in dist && dist[v] <= n) {
      var k :| 0 <= k < |queue| && queue[k] == v && depths[k] <= n;
      if k > 0 { assert queue[1..][k - 1] == v && depths[1..][k - 1] == depths[k]; }
    }
  }

  function Repeat(n: nat, d: nat): (s: seq<nat>)
    ensures |s| == n && forall k :: 0 <= k < n ==> s[k] == d
  {
    seq(n, _ => d)
  }

  /** The head of the queue, when new, is taken at its shortest distance. */
  lemma TakenAtShortest(
    g: set<Arc>, startAt: NodeId, queue: seq<NodeId>, depths: seq<nat>, ordered: seq<NodeId>, dist: map<NodeId, nat>)
    requires BfsInvariant(g, startAt, queue, depths, ordered, dist)
    requires |queue| > 0 && queue[0] !in dist
    ensures Taken(g, startAt, ordered + [queue[0]], dist[queue[0] := depths[0]])
  {
    var v, d := queue[0], depths[0];
    forall n: nat | Connects(g, startAt, v, n) ensures d <= n {
      if n < d && ordered != [] {
        NearerIsTaken(g, startAt, queue, depths, ordered, dist, v, n);
      }
    }
    assert Connects(g, startAt, v, d);
    assert ShortestWalk(g, startAt, v, d);
    assert v !in ordered;
  }

  lemma QueuedAfterTake(g: set<Arc>, startAt: NodeId, queue: seq<NodeId>, depths: seq<nat>, targets: seq<NodeId>)
    requires Queued(g, startAt, queue, depths) && |queue| > 0
    requires forall t :: t in targets ==> Arc(queue[0], t) in g
    ensures Queued(g, startAt, queue[1..] + targets, depths[1..] + Repeat(|targets|, depths[0] + 1))
  {
    var queue', depths' := queue[1..] + targets, depths[1..] + Repeat(|targets|, depths[0] + 1);
    forall k | 0 <= k < |queue'| ensures Connects(g, startAt, queue'[k], depths'[k]) {
      if k < |queue| - 1 {
        assert queue'[k] == queue[k + 1] && depths'[k] == depths[k + 1];
      } else {
        assert queue'[k] == targets[k - (|queue| - 1)];
        assert Connects(g, startAt, queue[0], depths[0]);
        ConnectsExtend(g, startAt, queue[0], queue'[k], depths[0]);
      }
    }
    forall i, j | 0 <= i <= j < |depths'| ensures depths'[i] <= depths'[j] <= depths'[0] + 1 {
      assert forall k :: 0 <= k < |depths'| ==>
        depths'[k] == if k < |depths| - 1 then depths[k + 1] else depths[0] + 1;
    }
  }

  /** Every arc out of a taken node stays settled when the head of the queue is taken. */
  lemma ArcsSettledAfterTake(
    g: set<Arc>, queue: seq<NodeId>, depths: seq<nat>, dist: map<NodeId, nat>, targets: seq<NodeId>)
    requires |depths| == |queue| > 0 && queue[0] !in dist
    requires forall a :: a in g && a.from in dist ==> Settled(a.to, dist[a.from] + 1, queue, depths, dist)
    requires forall t :: t in targets <==> Arc(queue[0], t) in g
    ensures forall a :: a in g && a.from in dist[queue[0] := depths[0]] ==>
      Settled(a.to, dist[queue[0] := depths[0]][a.from] + 1, queue[1..] + targets,
              depths[1..] + Repeat(|targets|, depths[0] + 1), dist[queue[0] := depths[0]])
  {
    var v, d := queue[0], depths[0];
    var queue', dist' := queue[1..] + targets, dist[v := d];
    var depths' := depths[1..] + Repeat(|targets|, d + 1);
    forall a | a in g && a.from in dist'
      ensures Settled(a.to, dist'[a.from] + 1, queue', depths', dist')
    {
      if a.from == v {
        assert a == Arc(v, a.to) && a.to in targets;
        var k :| 0 <= k < |targets| && targets[k] == a.to;
        assert queue'[|queue| - 1 + k] == a.to && depths'[|queue| - 1 + k] == d + 1;
      } else {
        SettledAfterTake(a.to, dist[a.from] + 1, queue, depths, dist);
        SettledGrows(a.to, dist[a.from] + 1, queue[1..], depths[1..], dist, queue', depths', dist');
      }
    }
  }

  /** Taking a new node settles it at its shortest distance and queues its targets one step further. */
  lemma TakeKeepsInvariant(
    g: set<Arc>, startAt: NodeId, queue: seq<NodeId>, depths: seq<nat>, ordered: seq<NodeId>, dist: map<NodeId, nat>,
    targets: seq<NodeId>)
    requires BfsInvariant(g, startAt, queue, depths, ordered, dist)
    requires |queue| > 0 && queue[0] !in dist
    requires forall t :: t in targets <==> Arc(queue[0], t) in g
    ensures BfsInvariant(g, startAt, queue[1..] + targets, depths[1..] + Repeat(|targets|, depths[0] + 1),
                         ordered + [queue[0]], dist[queue[0] := depths[0]])
  {
    TakenAtShortest(g, startAt, queue, depths, ordered, dist);
    QueuedAfterTake(g, startAt, queue, depths, targets);
    ArcsSettledAfterTake(g, queue, depths, dist, targets);
    var depths' := depths[1..] + Repeat(|targets|, depths[0] + 1);
    forall k | 0 <= k < |depths'| ensures depths[0] <= depths'[k] {
      if k < |depths| - 1 { assert depths'[k] == depths[k + 1]; }
    }
    hide Taken, Settled;
  }

  lemma SettledGrows(v: NodeId, n: nat, queue: seq<NodeId>, depths: seq<nat>, dist: map<NodeId, nat>,
                     queue': seq<NodeId>, depths': seq<nat>, dist': map<NodeId, nat>)
    requires |depths| == |queue| && |depths'| == |queue'|
    requires queue <= queue' && depths <= depths'
    requires forall u :: u in dist ==> u in dist' && dist'[u] == dist[u]
    ensures Settled(v, n, queue, depths, dist) ==> Settled(v, n, queue', depths', dist')
  {
    if k :| 0 <= k < |queue| && queue[k] == v && depths[k] <= n {
      assert queue'[k] == v && depths'[k] <= n;
    }
  }

  /** Once the queue is empty the taken nodes are exactly the reachable ones, nearest first. */
  lemma BfsDone(g: set<Arc>, startAt: NodeId, ordered: seq<NodeId>, dist: map<NodeId, nat>)
    requires BfsInvariant(g, startAt, [], [], ordered, dist)
    ensures forall v :: v in ordered <==> Reaches(g, startAt, v)
    ensures ordered != [] && ordered[0] == startAt && NoDup(ordered)
    ensures ByDistance(g, startAt, ordered)
  {
    forall v | Reaches(g, startAt, v) ensures v in ordered {
      var n: nat :| Connects(g, startAt, v, n);
      NearerIsTaken(g, startAt, [], [], ordered, dist, v, n);
    }
    forall v | v in ordered ensures Reaches(g, startAt, v) {
      assert v in dist && ShortestWalk(g, startAt, v, dist[v]);
    }
    forall i, j | 0 <= i < j < |ordered| ensures Nearer(g, startAt, ordered[i], ordered[j]) {
      assert ordered[i] in dist && ordered[j] in dist;
      assert dist[ordered[i]] <= dist[ordered[j]];
    }
  }

  /** Appending unreachable nodes keeps the order by distance. */
  lemma ReachableFirst(g: set<Arc>, startAt: NodeId, reached: seq<NodeId>, ordered: seq<NodeId>)
    requires NoDup(ordered) && reached <= ordered
    requires forall v :: v in reached <==> Reaches(g, startAt, v)
    requires ByDistance(g, startAt, reached)
    ensures ByDistance(g, startAt, ordered)
  {
    forall i, j | 0 <= i < j < |ordered| ensures Nearer(g, startAt, ordered[i], ordered[j]) {
      if j < |reached| {
        assert reached[i] == ordered[i] && reached[j] == ordered[j];
      } else {
        assert ordered[j] !in reached;
      }
    }
  }

  lemma InitialInvariant(g: set<Arc>, startAt: NodeId)
    ensures BfsInvariant(g, startAt, [startAt], [0], [], map[])
  {
    ConnectsSelf(g, startAt);
  }

  method PushTargets(edges: array<GraphEdge>, nodeId: NodeId, queue: seq<NodeId>) returns (queue': seq<NodeId>)
    ensures queue' == queue + TargetsOf(edges[..], nodeId)
  {
    queue' := queue;
    for j := 0 to edges.Length
      invariant queue' == queue + TargetsOf(edges[..j], nodeId)
    {
      assert edges[..j + 1][..j] == edges[..j];
      if edges[j].from == nodeId {
        queue' := queue' + [edges[j].to];
      }
    }
    assert edges[..edges.Length] == edges[..];
  }

  lemma QueueHasDepths(g: set<Arc>, startAt: NodeId, queue: seq<NodeId>, depths: seq<nat>, ordered: seq<NodeId>,
      dist: map<NodeId, nat>)
    requires BfsInvariant(g, startAt, queue, depths, ordered, dist)
    ensures |depths| == |queue| && dist.Keys == (set v | v in ordered)
  {
  }

  /** All nodes a search can meet. */
  ghost function Universe(g: set<Arc>, startAt: NodeId): set<NodeId> { {startAt} + set a | a in g :: a.to }

  lemma StartInUniverse(g: set<Arc>, startAt: NodeId)
    ensures startAt in Universe(g, startAt)
  {
  }

  lemma TargetsInUniverse(g: set<Arc>, startAt: NodeId, nodeId: NodeId, targets: seq<NodeId>)
    requires forall t :: t in targets <==> Arc(nodeId, t) in g
    ensures forall t :: t in targets ==> t in Universe(g, startAt)
  {
    assert forall t :: t in targets ==> Arc(nodeId, t).to in Universe(g, startAt);
  }

  lemma TargetsAreArcs(edges: seq<GraphEdge>, nodeId: NodeId)
    ensures forall t :: t in TargetsOf(edges, nodeId) <==> Arc(nodeId, t) in Arcs(edges)
  {
  }

  /** The worklist loop: an empty queue leaves exactly the reachable nodes, nearest first. */
  method Sweep(startAt: NodeId, edges: array<GraphEdge>) returns (ordered: seq<NodeId>, visited: set<NodeId>)
    ensures forall v :: v in ordered <==> Reaches(Arcs(edges[..]), startAt, v)
    ensures ordered != [] && ordered[0] == startAt && NoDup(ordered)
    ensures ByDistance(Arcs(edges[..]), startAt, ordered)
    ensures visited == (set v | v in ordered)
  {
    ghost var g := Arcs(edges[..]);
    ghost var universe := Universe(g, startAt);
    hide BfsInvariant, ByDistance, Reaches, NoDup, TargetsOf, Universe, Arcs;
    StartInUniverse(g, startAt);
    var queue := [startAt];
    visited, ordered := {}, [];
    ghost var depths: seq<nat>, dist: map<NodeId, nat> := [0], map[];
    InitialInvariant(g, startAt);
    while |queue| > 0
      invariant BfsInvariant(g, startAt, queue, depths, ordered, dist)
      invariant visited == dist.Keys <= universe
      invariant forall v :: v in queue ==> v in universe
      decreases universe - visited, |queue|
    {
      var nodeId := queue[0];
      QueueHasDepths(g, startAt, queue, depths, ordered, dist);
      if nodeId in visited {
        SkipKeepsInvariant(g, startAt, queue, depths, ordered, dist);
        queue, depths := queue[1..], depths[1..];
      } else {
        ghost var targets := TargetsOf(edges[..], nodeId);
        TargetsAreArcs(edges[..], nodeId);
        TakeKeepsInvariant(g, startAt, queue, depths, ordered, dist, targets);
        TargetsInUniverse(g, startAt, nodeId, targets);
        depths, dist := depths[1..] + Repeat(|targets|, depths[0] + 1), dist[nodeId := depths[0]];
        visited := visited + {nodeId};
        ordered := ordered + [nodeId];
        queue := PushTargets(edges, nodeId, queue[1..]);
      }
    }
    QueueHasDepths(g, startAt, queue, depths, ordered, dist);
    assert queue == [] && depths == [];
    BfsDone(g, startAt, ordered, dist);
  }

  method BfsOrder(startAt: NodeId, nodes: seq<NodeId>, edges: array<GraphEdge>) returns (ordered: seq<NodeId>)
    ensures Covers(Arcs(edges[..]), startAt, nodes, ordered)
    ensures ByDistance(Arcs(edges[..]), startAt, ordered)
  {
    var visited;
    ordered, visited := Sweep(startAt, edges);
    ghost var reached := ordered;
    for k := 0 to |nodes|
      invariant reached <= ordered
      invariant NoDup(ordered) && visited == (set v | v in ordered)
      invariant forall v :: v in ordered <==> v in reached || v in nodes[..k]
    {
      assert nodes[..k + 1] == nodes[..k] + [nodes[k]];
      if nodes[k] !in visited {
        visited := visited + {nodes[k]};
        ordered := ordered + [nodes[k]];
      }
    }
    assert nodes[..|nodes|] == nodes;
    ReachableFirst(Arcs(edges[..]), startAt, reached, ordered);
  }
}
