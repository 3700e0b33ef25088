/** Longest-path levels by repeated relaxation. */
module GraphLevels {
  import opened GraphPaths
  import opened GraphEdges

  /** Every level is the length of some walk from `startAt`. */
  ghost predicate Witnessed(g: set<Arc>, startAt: NodeId, levels: map<NodeId, nat>) {
    forall v :: v in levels ==> Connects(g, startAt, v, levels[v])
  }

  /** `levels` accounts for every walk from `startAt` of at most `n` arcs. */
  ghost predicate AccountsFor(g: set<Arc>, startAt: NodeId, levels: map<NodeId, nat>, n: int) {
    forall v, m: nat :: m <= n && Connects(g, startAt, v, m) ==> v in levels && m <= levels[v]
  }

  /** The edge asks for nothing more, reading its source level from `from`. */
  predicate Relaxed(e: GraphEdge, from: map<NodeId, nat>, levels: map<NodeId, nat>) {
    e.from in from ==> e.to in levels && from[e.from] + 1 <= levels[e.to]
  }

  /** `levels` only grew since `was`. */
  ghost predicate Raised(levels: map<NodeId, nat>, was: map<NodeId, nat>) {
    forall v :: v in was ==> v in levels && was[v] <= levels[v]
  }

  /** The levels are exactly the longest-walk lengths, defined exactly on what `startAt` reaches. */
  ghost predicate LongestLevels(g: set<Arc>, startAt: NodeId, levels: map<NodeId, nat>) {
    && (forall v :: v in levels <==> Reaches(g, startAt, v))
    && (forall v :: v in levels ==> LongestWalk(g, startAt, v, levels[v]))
  }

  /** One pass over all edges accounts for walks one arc longer. */
  lemma PassAccounts(forward: seq<GraphEdge>, startAt: NodeId, was: map<NodeId, nat>, levels: map<NodeId, nat>, n: int)
    requires AccountsFor(Arcs(forward), startAt, was, n)
    requires startAt in levels
    requires forall e :: e in forward ==> Relaxed(e, was, levels)
    requires Raised(levels, was)
    ensures AccountsFor(Arcs(forward), startAt, levels, n + 1)
  {
    var g := Arcs(forward);
    forall v, m: nat | m <= n + 1 && Connects(g, startAt, v, m) ensures v in levels && m <= levels[v] {
      if m == 0 {
      } else {
        var u := ConnectsSplit(g, startAt, v, m);
        var e :| e in forward && e.ToArc() == Arc(u, v);
        assert Relaxed(e, was, levels);
      }
    }
  }

  /** A pass that changes nothing accounts for every walk. */
  lemma {:induction false} FixpointAccounts(forward: seq<GraphEdge>, startAt: NodeId, levels: map<NodeId, nat>, n: nat)
    requires startAt in levels
    requires forall e :: e in forward ==> Relaxed(e, levels, levels)
    ensures AccountsFor(Arcs(forward), startAt, levels, n)
  {
    if n == 0 {
    } else {
      FixpointAccounts(forward, startAt, levels, n - 1);
      PassAccounts(forward, startAt, levels, levels, n - 1);
    }
  }

  /** Without a cycle ahead of `startAt`, no walk is longer than its place in the falling order. */
  lemma BoundedAccounts(g: set<Arc>, order: map<NodeId, nat>, startAt: NodeId, levels: map<NodeId, nat>, n: nat)
    requires Descends(g, order) && startAt in order && order[startAt] <= n
    requires AccountsFor(g, startAt, levels, n)
    requires Witnessed(g, startAt, levels)
    ensures LongestLevels(g, startAt, levels)
  {
    forall v, m: nat | Connects(g, startAt, v, m) ensures v in levels && m <= levels[v] {
      WalkSpendsOrder(g, order, startAt, v, m);
    }
  }

  /** Longest levels satisfy every edge: the loop has reached its fixpoint. */
  lemma LongestIsFixpoint(forward: seq<GraphEdge>, startAt: NodeId, levels: map<NodeId, nat>, e: GraphEdge)
    requires LongestLevels(Arcs(forward), startAt, levels) && e in forward
    ensures Relaxed(e, levels, levels)
  {
    if e.from in levels {
      assert e.ToArc() in Arcs(forward);
      ConnectsExtend(Arcs(forward), startAt, e.from, e.to, levels[e.from]);
    }
  }

  /** A pass that has seen the first `j` edges: levels grew, are lengths of walks, and those edges are relaxed. */
  ghost predicate Passing(forward: seq<GraphEdge>, startAt: NodeId, was: map<NodeId, nat>, levels: map<NodeId, nat>,
      j: nat) {
    && j <= |forward| && startAt in levels && Witnessed(Arcs(forward), startAt, levels) && Raised(levels, was)
    && forall i :: 0 <= i < j ==> Relaxed(forward[i], was, levels)
  }

  /** Raising an edge's target to the level the edge proposes keeps all that and relaxes the edge. */
  lemma RaiseKeepsPassing(forward: seq<GraphEdge>, startAt: NodeId, was: map<NodeId, nat>, levels: map<NodeId, nat>,
      j: nat)
    requires Passing(forward, startAt, was, levels, j) && j < |forward| && forward[j].from in levels
    requires forward[j].to !in levels || levels[forward[j].from] + 1 > levels[forward[j].to]
    ensures Passing(forward, startAt, was, levels[forward[j].to := levels[forward[j].from] + 1], j + 1)
  {
    var e := forward[j];
    assert e.ToArc() in Arcs(forward);
    ConnectsExtend(Arcs(forward), startAt, e.from, e.to, levels[e.from]);
    hide Connects;
  }

  lemma PassEnds(forward: seq<GraphEdge>, startAt: NodeId, was: map<NodeId, nat>, levels: map<NodeId, nat>, n: int)
    requires Passing(forward, startAt, was, levels, |forward|) && AccountsFor(Arcs(forward), startAt, was, n)
    ensures Witnessed(Arcs(forward), startAt, levels) && AccountsFor(Arcs(forward), startAt, levels, n + 1)
    ensures forall e :: e in forward ==> Relaxed(e, was, levels)
  {
    forall e | e in forward ensures Relaxed(e, was, levels) {
      var i :| 0 <= i < |forward| && forward[i] == e;
    }
    PassAccounts(forward, startAt, was, levels, n);
  }

  lemma StartLevels(g: set<Arc>, startAt: NodeId)
    ensures Witnessed(g, startAt, map[startAt := 0]) && AccountsFor(g, startAt, map[startAt := 0], -1)
  {
    ConnectsSelf(g, startAt);
  }

  method ComputeLongestLevels(startAt: NodeId, orderedNodeIds: seq<NodeId>, forwardEdges: seq<GraphEdge>,
                              ghost order: map<NodeId, nat>) returns (levels: map<NodeId, nat>)
    requires Descends(Arcs(forwardEdges), order)
    requires startAt in order && order[startAt] < |orderedNodeIds|
    ensures LongestLevels(Arcs(forwardEdges), startAt, levels)
    ensures forall e :: e in forwardEdges ==> Relaxed(e, levels, levels)
  {
    hide AccountsFor, Witnessed, Raised, Descends, LongestLevels, Arcs;
    ghost var g := Arcs(forwardEdges);
    levels := map[startAt := 0];
    StartLevels(g, startAt);
    var pass := 0;
    var changed := true;
    while pass < |orderedNodeIds| + 1 && changed
      invariant 0 <= pass <= |orderedNodeIds| + 1
      invariant startAt in levels && Witnessed(g, startAt, levels)
      invariant AccountsFor(g, startAt, levels, pass - 1)
      invariant changed || forall e :: e in forwardEdges ==> Relaxed(e, levels, levels)
      decreases |orderedNodeIds| + 1 - pass
    {
      ghost var was := levels;
      changed := false;
      RaisedByNothing(levels);
      for j := 0 to |forwardEdges|
        invariant Passing(forwardEdges, startAt, was, levels, j)
        invariant !changed ==> levels == was
      {
        var edge := forwardEdges[j];
        if edge.from in levels {
          var proposed := levels[edge.from] + 1;
          if edge.to !in levels || proposed > levels[edge.to] {
            RaiseKeepsPassing(forwardEdges, startAt, was, levels, j);
            levels := levels[edge.to := proposed];
            changed := true;
          }
        }
        assert Passing(forwardEdges, startAt, was, levels, j + 1) by { SourceOnlyGrew(levels, was, edge.from); }
      }
      PassEnds(forwardEdges, startAt, was, levels, pass - 1);
      pass := pass + 1;
    }
    if !changed {
      FixpointAccounts(forwardEdges, startAt, levels, order[startAt]);
    }
    AccountsForFewer(g, startAt, levels, if changed then pass - 1 else order[startAt], order[startAt]);
    BoundedAccounts(g, order, startAt, levels, order[startAt]);
    forall e | e in forwardEdges ensures Relaxed(e, levels, levels) {
      LongestIsFixpoint(forwardEdges, startAt, levels, e);
    }
  }

  lemma RaisedByNothing(levels: map<NodeId, nat>)
    ensures Raised(levels, levels)
  {
  }

  lemma SourceOnlyGrew(levels: map<NodeId, nat>, was: map<NodeId, nat>, v: NodeId)
    requires Raised(levels, was)
    ensures v in was ==> v in levels && was[v] <= levels[v]
  {
  }

  lemma AccountsForFewer(g: set<Arc>, startAt: NodeId, levels: map<NodeId, nat>, n: int, m: int)
    requires AccountsFor(g, startAt, levels, n) && m <= n
    ensures AccountsFor(g, startAt, levels, m)
  {
  }
}
