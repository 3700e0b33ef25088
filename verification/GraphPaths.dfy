/** Directed graphs as finite sets of arcs, and the walks the layout stages reason about. */
module GraphPaths {
  type NodeId = string

  datatype Arc = Arc(from: NodeId, to: NodeId)

  type Walk = p: seq<NodeId> | |p| >= 1 witness [""]

  function Last(p: Walk): NodeId { p[|p| - 1] }

  /** Every step of `p` is an arc of `g`. */
  ghost predicate IsWalk(g: set<Arc>, p: Walk) {
    forall i :: 0 <= i < |p| - 1 ==> Arc(p[i], p[i + 1]) in g
  }

  /** Some walk of exactly `n` arcs leads from `a` to `b`. */
  ghost predicate Connects(g: set<Arc>, a: NodeId, b: NodeId, n: nat) {
    exists p: Walk :: IsWalk(g, p) && p[0] == a && Last(p) == b && |p| == n + 1
  }

  ghost predicate Reaches(g: set<Arc>, a: NodeId, b: NodeId) {
    exists n: nat :: Connects(g, a, b, n)
  }

  /** No walk of one or more arcs returns to the node it left. */
  ghost predicate Acyclic(g: set<Arc>) {
    forall v: NodeId, n: nat :: n > 0 ==> !Connects(g, v, v, n)
  }

  /** `n` is the length of the longest walk from `a` to `b`. */
  ghost predicate LongestWalk(g: set<Arc>, a: NodeId, b: NodeId, n: nat) {
    && Connects(g, a, b, n)
    && forall m: nat :: Connects(g, a, b, m) ==> m <= n
  }

  /** `order` strictly falls along every arc that leaves one of its nodes, and its nodes are closed under `g`. */
  ghost predicate Descends(g: set<Arc>, order: map<NodeId, nat>) {
    forall a :: a in g && a.from in order ==> a.to in order && order[a.to] < order[a.from]
  }

  lemma ConnectsSelf(g: set<Arc>, a: NodeId)
    ensures Connects(g, a, a, 0)
    ensures Reaches(g, a, a)
  {
    var p: Walk := [a];
    assert IsWalk(g, p) && p[0] == a && Last(p) == a && |p| == 1;
  }

  lemma ConnectsExtend(g: set<Arc>, a: NodeId, b: NodeId, c: NodeId, n: nat)
    requires Connects(g, a, b, n)
    requires Arc(b, c) in g
    ensures Connects(g, a, c, n + 1)
    ensures Reaches(g, a, c)
  {
    var p: Walk :| IsWalk(g, p) && p[0] == a && Last(p) == b && |p| == n + 1;
    var q: Walk := p + [c];
    forall i | 0 <= i < |q| - 1 ensures Arc(q[i], q[i + 1]) in g {
      if i < |p| - 1 { assert Arc(p[i], p[i + 1]) in g; }
    }
    assert IsWalk(g, q) && q[0] == a && Last(q) == c && |q| == (n + 1) + 1;
  }

  lemma ReachesExtend(g: set<Arc>, a: NodeId, b: NodeId, c: NodeId)
    requires Reaches(g, a, b)
    requires Arc(b, c) in g
    ensures Reaches(g, a, c)
  {
    var n: nat :| Connects(g, a, b, n);
    ConnectsExtend(g, a, b, c, n);
  }

  lemma {:induction false} ReachesTrans(g: set<Arc>, a: NodeId, b: NodeId, c: NodeId)
    requires Reaches(g, a, b) && Reaches(g, b, c)
    ensures Reaches(g, a, c)
  {
    var m: nat :| Connects(g, a, b, m);
    var n: nat :| Connects(g, b, c, n);
    var p: Walk :| IsWalk(g, p) && p[0] == a && Last(p) == b && |p| == m + 1;
    var q: Walk :| IsWalk(g, q) && q[0] == b && Last(q) == c && |q| == n + 1;
    var r: Walk := p + q[1..];
    forall i | 0 <= i < |r| - 1 ensures Arc(r[i], r[i + 1]) in g {
      if i < m {
        assert Arc(p[i], p[i + 1]) in g;
      } else {
        assert Arc(q[i - m], q[i - m + 1]) in g;
      }
    }
    assert IsWalk(g, r) && r[0] == a && Last(r) == c && |r| == m + n + 1;
    assert Connects(g, a, c, m + n);
  }

  /** The last arc of a walk of at least one arc. */
  lemma ConnectsSplit(g: set<Arc>, a: NodeId, c: NodeId, n: nat) returns (b: NodeId)
    requires n > 0
    requires Connects(g, a, c, n)
    ensures Connects(g, a, b, n - 1) && Arc(b, c) in g
  {
    var p: Walk :| IsWalk(g, p) && p[0] == a && Last(p) == c && |p| == n + 1;
    b := p[n - 1];
    var q: Walk := p[..n];
    assert IsWalk(g, q) by {
      forall i | 0 <= i < |q| - 1 ensures Arc(q[i], q[i + 1]) in g {
        assert Arc(p[i], p[i + 1]) in g;
      }
    }
    assert q[0] == a && Last(q) == b && |q| == n;
    assert Arc(p[n - 1], p[n - 1 + 1]) in g;
  }

  lemma ConnectsMonotone(g: set<Arc>, h: set<Arc>, a: NodeId, b: NodeId, n: nat)
    requires g <= h
    requires Connects(g, a, b, n)
    ensures Connects(h, a, b, n)
  {
    var p: Walk :| IsWalk(g, p) && p[0] == a && Last(p) == b && |p| == n + 1;
    assert IsWalk(h, p);
  }

  lemma ReachesMonotone(g: set<Arc>, h: set<Arc>, a: NodeId, b: NodeId)
    requires g <= h
    requires Reaches(g, a, b)
    ensures Reaches(h, a, b)
  {
    var n: nat :| Connects(g, a, b, n);
    ConnectsMonotone(g, h, a, b, n);
  }

  /** `n` is the length of the shortest walk from `a` to `b`. */
  ghost predicate ShortestWalk(g: set<Arc>, a: NodeId, b: NodeId, n: nat) {
    && Connects(g, a, b, n)
    && forall m: nat :: Connects(g, a, b, m) ==> n <= m
  }

  /** A set that holds `a` and is closed under `g` holds everything `a` reaches. */
  lemma {:induction false} ClosedHoldsReachable(g: set<Arc>, s: set<NodeId>, a: NodeId, b: NodeId, n: nat)
    requires a in s
    requires forall arc :: arc in g && arc.from in s ==> arc.to in s
    requires Connects(g, a, b, n)
    ensures b in s
    decreases n
  {
    if n == 0 {
    } else {
      var m := ConnectsSplit(g, a, b, n);
      ClosedHoldsReachable(g, s, a, m, n - 1);
    }
  }

  /** A walk spends at least one unit of a falling order per arc. */
  lemma {:induction false} WalkSpendsOrder(g: set<Arc>, order: map<NodeId, nat>, a: NodeId, b: NodeId, n: nat)
    requires Descends(g, order)
    requires a in order
    requires Connects(g, a, b, n)
    ensures b in order && order[b] + n <= order[a]
    decreases n
  {
    if n == 0 {
    } else {
      var m := ConnectsSplit(g, a, b, n);
      WalkSpendsOrder(g, order, a, m, n - 1);
    }
  }

  /** The arcs that leave a node outside `order`. */
  ghost function Outside(g: set<Arc>, order: map<NodeId, nat>): set<Arc> {
    set a | a in g && a.from !in order
  }

  /** When an order falls along `g`, cycles can only live wholly outside the order. */
  lemma AcyclicIffOutsideAcyclic(g: set<Arc>, order: map<NodeId, nat>)
    requires Descends(g, order)
    ensures Acyclic(g) <==> Acyclic(Outside(g, order))
  {
    var h := Outside(g, order);
    if Acyclic(g) {
      forall v: NodeId, n: nat | n > 0 ensures !Connects(h, v, v, n) {
        if Connects(h, v, v, n) { ConnectsMonotone(h, g, v, v, n); }
      }
    }
    if Acyclic(h) {
      forall v: NodeId, n: nat | n > 0 ensures !Connects(g, v, v, n) {
        if Connects(g, v, v, n) {
          if v in order {
            WalkSpendsOrder(g, order, v, v, n);
          } else {
            StaysOutside(g, order, v, v, n);
          }
        }
      }
    }
  }

  /** A walk that ends outside the order never entered it. */
  lemma {:induction false} StaysOutside(g: set<Arc>, order: map<NodeId, nat>, a: NodeId, b: NodeId, n: nat)
    requires Descends(g, order)
    requires b !in order
    requires Connects(g, a, b, n)
    ensures Connects(Outside(g, order), a, b, n)
    decreases n
  {
    if n == 0 {
      ConnectsSelf(Outside(g, order), a);
    } else {
      var m := ConnectsSplit(g, a, b, n);
      StaysOutside(g, order, a, m, n - 1);
      ConnectsExtend(Outside(g, order), a, m, b, n - 1);
    }
  }
}
