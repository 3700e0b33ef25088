/** Ranks of cells, the segments between them, and the ordering of cells within a rank. */
module GraphCells {
  import opened GraphPaths
  import opened GraphEdges

  datatype Cell = Node(nodeId: NodeId) | Virtual(edgeId: string)

  /** A segment runs from cell `fromCell` of rank `rank` to cell `toCell` of rank `rank + 1`. */
  datatype Segment = Segment(edgeId: string, rank: nat, fromCell: nat, toCell: nat, caseLabel: Option<string>)

  /** A segment with its end cells named by identity instead of position. */
  datatype Link = Link(edgeId: string, rank: nat, source: Cell, target: Cell, caseLabel: Option<string>)

  ghost predicate Joins(ranks: seq<seq<Cell>>, s: Segment, link: Link) {
    && s.edgeId == link.edgeId && s.rank == link.rank && s.caseLabel == link.caseLabel
    && s.rank + 1 < |ranks|
    && s.fromCell < |ranks[s.rank]| && ranks[s.rank][s.fromCell] == link.source
    && s.toCell < |ranks[s.rank + 1]| && ranks[s.rank + 1][s.toCell] == link.target
  }

  /** Read against `ranks`, the segments are exactly `links`, in order. */
  ghost predicate View(ranks: seq<seq<Cell>>, segments: seq<Segment>, links: seq<Link>) {
    |segments| == |links| && forall i :: 0 <= i < |links| ==> Joins(ranks, segments[i], links[i])
  }

  // ---- Sorting one rank ----------------------------------------------------------------------

  datatype Direction = Down | Up

  const MAX_SAFE_INTEGER := 9007199254740991.0

  /** The positions, in the neighbouring rank, of the cells joined to cell `index` of rank `rank`. */
  function Neighbors(segments: seq<Segment>, rank: nat, index: nat, direction: Direction): seq<nat> {
    if segments == [] then []
    else
      var s := segments[|segments| - 1];
      Neighbors(segments[..|segments| - 1], rank, index, direction) +
      if direction.Down? && s.rank + 1 == rank && s.toCell == index then [s.fromCell]
      else if direction.Up? && s.rank == rank && s.fromCell == index then [s.toCell]
      else []
  }

  function Sum(s: seq<nat>): nat {
    if s == [] then 0 else Sum(s[..|s| - 1]) + s[|s| - 1]
  }

  /** The mean position of the neighbours; a cell without neighbours goes last. */
  function Score(segments: seq<Segment>, rank: nat, index: nat, direction: Direction): real {
    var neighbors := Neighbors(segments, rank, index, direction);
    if neighbors == [] then MAX_SAFE_INTEGER else Sum(neighbors) as real / |neighbors| as real
  }

  function Scores(segments: seq<Segment>, rank: nat, count: nat, direction: Direction): (scores: seq<real>)
    ensures |scores| == count
  {
    seq(count, index requires index >= 0 => Score(segments, rank, index, direction))
  }

  /** By score, then by position. */
  predicate Before(scores: seq<real>, i: nat, j: nat)
    requires i < |scores| && j < |scores|
  {
    scores[i] < scores[j] || (scores[i] == scores[j] && i < j)
  }

  /** `order` lists each of 0 .. n-1 once. */
  ghost predicate IsOrder(order: seq<nat>, n: nat) {
    && |order| == n && NoDup(order)
    && (forall v :: v in order <==> 0 <= v < n)
  }

  ghost predicate InOrder(scores: seq<real>, order: seq<nat>) {
    && (forall i :: 0 <= i < |order| ==> order[i] < |scores|)
    && forall i, j :: 0 <= i < j < |order| ==> Before(scores, order[i], order[j])
  }

  /** Insert position `x`, larger than all of `order`, keeping the order by score. */
  function Insert(scores: seq<real>, order: seq<nat>, x: nat): (result: seq<nat>)
    requires x < |scores| && forall i :: 0 <= i < |order| ==> order[i] < x
    requires InOrder(scores, order)
    ensures |result| == |order| + 1 && InOrder(scores, result)
    ensures forall v :: v in result <==> v == x || v in order
  {
    if order == [] then [x]
    else
      var rest, last := order[..|order| - 1], order[|order| - 1];
      if scores[last] <= scores[x] then order + [x]
      else
        var inserted := Insert(scores, rest, x);
        FrontComesFirst(scores, order);
        assert last in order && Before(scores, x, last);
        AppendInOrder(scores, inserted, last);
        inserted + [last]
  }

  /** What is in `order` is its last element, or comes before it. */
  lemma FrontComesFirst(scores: seq<real>, order: seq<nat>)
    requires order != [] && InOrder(scores, order)
    ensures var rest, last := order[..|order| - 1], order[|order| - 1];
            && InOrder(scores, rest) && last < |scores| && last !in rest
            && (forall v :: v in rest ==> v < |scores| && Before(scores, v, last))
            && forall v :: v in order <==> v in rest || v == last
  {
    var rest, last := order[..|order| - 1], order[|order| - 1];
    assert order == rest + [last];
    forall v | v in rest ensures v < |scores| && Before(scores, v, last) {
      var i :| 0 <= i < |rest| && rest[i] == v;
      assert order[i] == v;
    }
  }

  lemma AppendInOrder(scores: seq<real>, order: seq<nat>, last: nat)
    requires InOrder(scores, order) && last < |scores|
    requires forall v :: v in order ==> v < |scores| && Before(scores, v, last)
    ensures InOrder(scores, order + [last])
  {
    assert forall i :: 0 <= i < |order| ==> order[i] in order;
  }

  /** The stable sort of the positions of `scores`. */
  function SortedFirst(scores: seq<real>, n: nat): (order: seq<nat>)
    requires n <= |scores|
    ensures |order| == n && InOrder(scores, order)
    ensures forall v :: v in order <==> 0 <= v < n
  {
    if n == 0 then []
    else
      var rest := SortedFirst(scores, n - 1);
      assert forall i :: 0 <= i < |rest| ==> rest[i] in rest;
      Insert(scores, rest, n - 1)
  }

  function SortedOrder(scores: seq<real>): (order: seq<nat>)
    ensures IsOrder(order, |scores|) && InOrder(scores, order)
  {
    SortedFirst(scores, |scores|)
  }

  /** The sort is the only listing of the positions in order. */
  lemma {:induction false} SortedOrderUnique(scores: seq<real>, a: seq<nat>, b: seq<nat>)
    requires InOrder(scores, a) && InOrder(scores, b)
    requires |a| == |b| && forall v :: v in a <==> v in b
    ensures a == b
    decreases |a|
  {
    if a == [] {
    } else {
      hide InOrder;
      var n := |a| - 1;
      FrontComesFirst(scores, a);
      FrontComesFirst(scores, b);
      assert a[n] in b && b[n] in a;
      assert a[n] == b[n];
      SortedOrderUnique(scores, a[..n], b[..n]);
      assert a == a[..n] + [a[n]] && b == b[..n] + [b[n]];
    }
  }

  function Permuted(cells: seq<Cell>, order: seq<nat>): (result: seq<Cell>)
    requires forall i :: 0 <= i < |order| ==> order[i] < |cells|
    ensures |result| == |order|
    ensures forall i :: 0 <= i < |order| ==> result[i] == cells[order[i]]
  {
    seq(|order|, i requires 0 <= i < |order| => cells[order[i]])
  }

  lemma RemoveOne(cells: seq<Cell>, p: nat)
    requires p < |cells|
    ensures multiset(cells) == multiset(cells[..p] + cells[p + 1..]) + multiset{cells[p]}
  {
    assert cells == cells[..p] + [cells[p]] + cells[p + 1..];
  }

  /** Dropping the largest position leaves a listing of the others. */
  lemma OrderWithoutLast(order: seq<nat>, n: nat, p: nat)
    requires IsOrder(order, n) && p < n && order[p] == n - 1
    ensures IsOrder(order[..p] + order[p + 1..], n - 1)
  {
    var rest := order[..p] + order[p + 1..];
    forall v | v in rest ensures 0 <= v < n - 1 {
      var k :| 0 <= k < |rest| && rest[k] == v;
      var j := if k < p then k else k + 1;
      assert v == order[j] && order[j] in order && j != p;
    }
    forall v | 0 <= v < n - 1 ensures v in rest {
      assert v in order;
      var k :| 0 <= k < n && order[k] == v;
      assert rest[if k < p then k else k - 1] == v;
    }
  }

  lemma PositionOf(order: seq<nat>, n: nat, v: nat) returns (p: nat)
    requires IsOrder(order, n) && v < n
    ensures p < n && order[p] == v
  {
    assert v in order;
    p :| 0 <= p < n && order[p] == v;
  }

  lemma OrderInRange(order: seq<nat>, n: nat)
    requires IsOrder(order, n)
    ensures |order| == n && forall i :: 0 <= i < n ==> order[i] < n
  {
    assert forall i :: 0 <= i < n ==> order[i] in order;
  }

  /** Picking cells by a listing of their positions loses and repeats none. */
  lemma {:induction false} PickedSameCells(cells: seq<Cell>, order: seq<nat>, picked: seq<Cell>)
    requires IsOrder(order, |cells|) && |picked| == |cells|
    requires forall i :: 0 <= i < |cells| ==> 0 <= order[i] < |cells| && picked[i] == cells[order[i]]
    ensures multiset(picked) == multiset(cells)
    decreases |cells|
  {
    var n := |cells|;
    if n == 0 {
    } else {
      var p := PositionOf(order, n, n - 1);
      var order', cells', picked' := order[..p] + order[p + 1..], cells[..n - 1], picked[..p] + picked[p + 1..];
      OrderWithoutLast(order, n, p);
      OrderInRange(order', n - 1);
      RemoveOne(picked, p);
      assert cells == cells' + [cells[n - 1]];
      hide IsOrder;
      forall i | 0 <= i < n - 1 ensures 0 <= order'[i] < n - 1 && picked'[i] == cells'[order'[i]] {
        var k := if i < p then i else i + 1;
        assert order'[i] == order[k] && picked'[i] == picked[k];
      }
      PickedSameCells(cells', order', picked');
    }
  }

  /** Reordering the cells of a rank loses and repeats none. */
  lemma PermutedSameCells(cells: seq<Cell>, order: seq<nat>)
    requires IsOrder(order, |cells|)
    ensures forall i :: 0 <= i < |order| ==> order[i] < |cells|
    ensures multiset(Permuted(cells, order)) == multiset(cells)
  {
    OrderInRange(order, |cells|);
    PickedSameCells(cells, order, Permuted(cells, order));
  }

  // ---- Sweeping the ranks --------------------------------------------------------------------

  /** Where position `old` of a rank went. */
  function InverseOf(order: seq<nat>): (inverse: map<nat, nat>)
    requires NoDup(order)
    ensures forall k :: 0 <= k < |order| ==> order[k] in inverse && inverse[order[k]] == k
    ensures forall v :: v in inverse ==> v in order
  {
    if order == [] then map[]
    else
      var n := |order| - 1;
      assert order == order[..n] + [order[n]];
      InverseOf(order[..n])[order[n] := n]
  }

  /** One segment after rank `rank` has been reordered. */
  function Moved(s: Segment, rank: nat, inverse: map<nat, nat>): Segment {
    var from := if s.rank == rank && s.fromCell in inverse then inverse[s.fromCell] else s.fromCell;
    var to := if s.rank + 1 == rank && s.toCell in inverse then inverse[s.toCell] else s.toCell;
    s.(fromCell := from, toCell := to)
  }

  lemma InverseFinds(cells: seq<Cell>, order: seq<nat>, v: nat)
    requires IsOrder(order, |cells|) && v < |cells|
    requires forall i :: 0 <= i < |order| ==> order[i] < |cells|
    ensures v in InverseOf(order) && InverseOf(order)[v] < |cells|
    ensures Permuted(cells, order)[InverseOf(order)[v]] == cells[v]
  {
    var k := PositionOf(order, |cells|, v);
    assert InverseOf(order)[order[k]] == k;
  }

  lemma MoveKeepsJoin(ranks: seq<seq<Cell>>, s: Segment, link: Link, rank: nat, inverse: map<nat, nat>,
      cells: seq<Cell>)
    requires Joins(ranks, s, link) && rank < |ranks|
    requires forall v :: 0 <= v < |ranks[rank]| ==>
        v in inverse && inverse[v] < |cells|
        && cells[inverse[v]] == ranks[rank][v]
    ensures Joins(ranks[rank := cells], Moved(s, rank, inverse), link)
  {
  }

  /** Reordering one rank and moving the segment ends along keeps every segment's ends by identity. */
  lemma MoveKeepsView(ranks: seq<seq<Cell>>, segments: seq<Segment>, links: seq<Link>, rank: nat, order: seq<nat>,
                      segments': seq<Segment>)
    requires View(ranks, segments, links)
    requires rank < |ranks| && IsOrder(order, |ranks[rank]|)
    requires forall i :: 0 <= i < |order| ==> order[i] < |ranks[rank]|
    requires |segments'| == |segments|
    requires forall i :: 0 <= i < |segments| ==> segments'[i] == Moved(segments[i], rank, InverseOf(order))
    ensures View(ranks[rank := Permuted(ranks[rank], order)], segments', links)
  {
    var cells := Permuted(ranks[rank], order);
    assert forall v :: 0 <= v < |ranks[rank]| ==>
        v in InverseOf(order) && InverseOf(order)[v] < |cells| && cells[InverseOf(order)[v]] == ranks[rank][v] by {
      forall v: nat | v < |ranks[rank]| { InverseFinds(ranks[rank], order, v); }
    }
    hide IsOrder, Joins, Moved, InverseOf, Permuted;
    forall i | 0 <= i < |links| ensures Joins(ranks[rank := cells], segments'[i], links[i]) {
      MoveKeepsJoin(ranks, segments[i], links[i], rank, InverseOf(order), cells);
    }
  }

  /** The same cells on every rank, in some order. */
  ghost predicate SameCells(ranks: seq<seq<Cell>>, was: seq<seq<Cell>>) {
    |ranks| == |was| && forall r :: 0 <= r < |ranks| ==> multiset(ranks[r]) == multiset(was[r])
  }

  method MoveSegments(segments: array<Segment>, rank: nat, inverse: map<nat, nat>)
    modifies segments
    ensures forall k :: 0 <= k < segments.Length ==> segments[k] == Moved(old(segments[k]), rank, inverse)
  {
    for i := 0 to segments.Length
      invariant forall k :: 0 <= k < i ==> segments[k] == Moved(old(segments[k]), rank, inverse)
      invariant forall k :: i <= k < segments.Length ==> segments[k] == old(segments[k])
    {
      segments[i] := Moved(segments[i], rank, inverse);
    }
  }

  method Reindex(ranks: array<seq<Cell>>, segments: array<Segment>, rank: nat, order: seq<nat>, ghost links: seq<Link>)
    requires rank < ranks.Length && IsOrder(order, |ranks[rank]|)
    requires forall i :: 0 <= i < |order| ==> order[i] < |ranks[rank]|
    requires View(ranks[..], segments[..], links)
    modifies ranks, segments
    ensures ranks[..] == old(ranks[..])[rank := Permuted(old(ranks[rank]), order)]
    ensures View(ranks[..], segments[..], links) && MovedAll(segments[..], old(segments[..]), rank, order)
  {
    assert NoDup(order);
    hide IsOrder, View, Moved;
    ghost var ranks0, segments0 := ranks[..], segments[..];
    ranks[rank] := Permuted(ranks[rank], order);
    assert ranks[..] == ranks0[rank := Permuted(ranks0[rank], order)];
    MoveSegments(segments, rank, InverseOf(order));
    MoveKeepsView(ranks0, segments0, links, rank, order, segments[..]);
  }

  // ---- The order the sweeps leave ------------------------------------------------------------

  /** Every segment after rank `rank` has been reordered. */
  ghost predicate MovedAll(segments': seq<Segment>, segments: seq<Segment>, rank: nat, order: seq<nat>)
    requires NoDup(order)
  {
    && |segments'| == |segments|
    && forall i :: 0 <= i < |segments| ==> segments'[i] == Moved(segments[i], rank, InverseOf(order))
  }

  /** The cells of rank `rank` come by the mean position of their neighbours below, as they now lie. */
  ghost predicate Settled(segments: seq<Segment>, rank: nat, count: nat) {
    forall i, j :: 0 <= i < j < count ==> Score(segments, rank, i, Up) <= Score(segments, rank, j, Up)
  }

  /** From rank `top` on, all ranks with one below them are settled. */
  ghost predicate SettledFrom(ranks: seq<seq<Cell>>, segments: seq<Segment>, top: nat) {
    forall r :: top <= r < |ranks| - 1 ==> Settled(segments, r, |ranks[r]|)
  }

  /** A segment starts at a cell's new position exactly when it started at its old one. */
  lemma MovedStart(s: Segment, rank: nat, n: nat, order: seq<nat>, k: nat)
    requires IsOrder(order, n) && k < n && (s.rank == rank ==> s.fromCell < n)
    ensures s.rank == rank ==>
              (Moved(s, rank, InverseOf(order)).fromCell == k <==> s.fromCell == order[k])
              && Moved(s, rank, InverseOf(order)).toCell == s.toCell
  {
    if s.rank == rank {
      var p := PositionOf(order, n, s.fromCell);
      assert InverseOf(order)[order[p]] == p && InverseOf(order)[order[k]] == k;
    }
  }

  lemma {:induction false} MovedNeighbors(segments': seq<Segment>, segments: seq<Segment>, rank: nat, n: nat,
      order: seq<nat>, k: nat)
    requires IsOrder(order, n) && k < n && MovedAll(segments', segments, rank, order)
    requires forall i :: 0 <= i < |segments| && segments[i].rank == rank ==> segments[i].fromCell < n
    ensures Neighbors(segments', rank, k, Up) == Neighbors(segments, rank, order[k], Up)
    decreases |segments|
  {
    if segments != [] {
      var m := |segments| - 1;
      MovedStart(segments[m], rank, n, order, k);
      hide IsOrder, InverseOf;
      MovedNeighbors(segments'[..m], segments[..m], rank, n, order, k);
    }
  }

  /** Reordering a rank leaves the neighbours below alone for all ranks under it. */
  lemma {:induction false} LowerNeighborsStay(segments': seq<Segment>, segments: seq<Segment>, rank: nat,
      order: seq<nat>, r: nat, k: nat)
    requires NoDup(order) && MovedAll(segments', segments, rank, order) && r > rank
    ensures Neighbors(segments', r, k, Up) == Neighbors(segments, r, k, Up)
    decreases |segments|
  {
    if segments != [] {
      hide InverseOf;
      LowerNeighborsStay(segments'[..|segments| - 1], segments[..|segments| - 1], rank, order, r, k);
    }
  }

  lemma MovedScore(segments': seq<Segment>, segments: seq<Segment>, rank: nat, n: nat, order: seq<nat>, k: nat)
    requires IsOrder(order, n) && k < n && MovedAll(segments', segments, rank, order) && 0 <= order[k] < n
    requires forall i :: 0 <= i < |segments| && segments[i].rank == rank ==> segments[i].fromCell < n
    ensures Score(segments', rank, k, Up) == Scores(segments, rank, n, Up)[order[k]]
  {
    MovedNeighbors(segments', segments, rank, n, order, k);
    hide MovedAll, Neighbors, IsOrder, InverseOf;
  }

  lemma SortSettles(segments': seq<Segment>, segments: seq<Segment>, rank: nat, n: nat)
    requires forall i :: 0 <= i < |segments| && segments[i].rank == rank ==> segments[i].fromCell < n
    requires MovedAll(segments', segments, rank, SortedOrder(Scores(segments, rank, n, Up)))
    ensures Settled(segments', rank, n)
  {
    var scores := Scores(segments, rank, n, Up);
    var order := SortedOrder(scores);
    OrderInRange(order, n);
    hide MovedAll, Score, Scores, SortedOrder, IsOrder;
    forall i, j | 0 <= i < j < n ensures Score(segments', rank, i, Up) <= Score(segments', rank, j, Up) {
      MovedScore(segments', segments, rank, n, order, i);
      MovedScore(segments', segments, rank, n, order, j);
      assert Before(scores, order[i], order[j]);
    }
  }

  lemma LowerScoreStays(segments': seq<Segment>, segments: seq<Segment>, rank: nat, order: seq<nat>, r: nat, k: nat)
    requires NoDup(order) && MovedAll(segments', segments, rank, order) && r > rank
    ensures Score(segments', r, k, Up) == Score(segments, r, k, Up)
  {
    LowerNeighborsStay(segments', segments, rank, order, r, k);
    hide MovedAll, Neighbors;
  }

  lemma LowerStaySettled(segments': seq<Segment>, segments: seq<Segment>, rank: nat, order: seq<nat>, r: nat, n: nat)
    requires NoDup(order) && MovedAll(segments', segments, rank, order) && r > rank && Settled(segments, r, n)
    ensures Settled(segments', r, n)
  {
    hide MovedAll, Score, NoDup;
    forall i, j | 0 <= i < j < n ensures Score(segments', r, i, Up) <= Score(segments', r, j, Up) {
      LowerScoreStays(segments', segments, rank, order, r, i);
      LowerScoreStays(segments', segments, rank, order, r, j);
      assert Score(segments, r, i, Up) <= Score(segments, r, j, Up);
    }
  }

  /** Sorting a rank by its neighbours below settles it, and keeps every rank under it settled. */
  lemma SortedUp(ranks: seq<seq<Cell>>, segments: seq<Segment>, links: seq<Link>, rank: nat, ranks': seq<seq<Cell>>,
                 segments': seq<Segment>)
    requires View(ranks, segments, links) && rank < |ranks| == |ranks'| && SettledFrom(ranks, segments, rank + 1)
    requires forall r :: 0 <= r < |ranks| ==> |ranks'[r]| == |ranks[r]|
    requires MovedAll(segments', segments, rank, SortedOrder(Scores(segments, rank, |ranks[rank]|, Up)))
    ensures SettledFrom(ranks', segments', rank)
  {
    var order := SortedOrder(Scores(segments, rank, |ranks[rank]|, Up));
    assert forall i :: 0 <= i < |segments| && segments[i].rank == rank ==> segments[i].fromCell < |ranks[rank]| by {
      assert forall i :: 0 <= i < |segments| ==> Joins(ranks, segments[i], links[i]);
    }
    hide View, MovedAll, Settled, SortedOrder;
    forall r | rank <= r < |ranks| - 1 ensures Settled(segments', r, |ranks'[r]|) {
      if r == rank {
        SortSettles(segments', segments, rank, |ranks[rank]|);
      } else {
        LowerStaySettled(segments', segments, rank, order, r, |ranks[r]|);
      }
    }
  }

  /** Listing the positions as they are moves nothing. */
  lemma IdentityMovesNothing(segments: seq<Segment>, rank: nat, order: seq<nat>)
    requires NoDup(order) && forall k :: 0 <= k < |order| ==> order[k] == k
    ensures MovedAll(segments, segments, rank, order)
  {
    assert forall v :: v in InverseOf(order) ==> InverseOf(order)[v] == v by {
      forall v | v in InverseOf(order) ensures InverseOf(order)[v] == v {
        var k :| 0 <= k < |order| && order[k] == v;
        assert InverseOf(order)[order[k]] == k;
      }
    }
  }

  /** Sort one rank by the mean position of its neighbours; the segments' ends on it move along. */
  method SortRank(ranks: array<seq<Cell>>, segments: array<Segment>, rank: nat, direction: Direction,
      ghost links: seq<Link>)
    requires rank < ranks.Length
    requires View(ranks[..], segments[..], links)
    modifies ranks, segments
    ensures View(ranks[..], segments[..], links)
    ensures SameCells(ranks[..], old(ranks[..]))
    ensures var order := SortedOrder(Scores(old(segments[..]), rank, |old(ranks[rank])|, direction));
            && ranks[..] == old(ranks[..])[rank := Permuted(old(ranks[rank]), order)]
            && MovedAll(segments[..], old(segments[..]), rank, order)
  {
    hide View, MovedAll, Scores;
    var cells := ranks[rank];
    ghost var ranks0, segments0 := ranks[..], segments[..];
    ghost var sorted := SortedOrder(Scores(segments[..], rank, |cells|, direction));
    OrderInRange(sorted, |cells|);
    if |cells| < 2 {
      IdentityMovesNothing(segments[..], rank, sorted);
      assert Permuted(cells, sorted) == cells && ranks0[rank := cells] == ranks0;
      return;
    }
    var scores := Scores(segments[..], rank, |cells|, direction);
    var order := SortedOrder(scores);
    PermutedSameCells(cells, order);
    hide SortedOrder, IsOrder, NoDup, InOrder;
    if exists k :: 0 <= k < |order| && order[k] != k {
      Reindex(ranks, segments, rank, order, links);
    } else {
      IdentityMovesNothing(segments[..], rank, order);
      assert Permuted(cells, order) == cells && ranks0[rank := cells] == ranks0;
    }
  }

  /** One sweep down: each rank by its neighbours above. */
  method SweepDown(ranks: array<seq<Cell>>, segments: array<Segment>, ghost links: seq<Link>)
    requires View(ranks[..], segments[..], links)
    modifies ranks, segments
    ensures View(ranks[..], segments[..], links) && SameCells(ranks[..], old(ranks[..]))
  {
    hide View;
    var rank := 1;
    while rank < ranks.Length
      invariant rank >= 1
      invariant View(ranks[..], segments[..], links) && SameCells(ranks[..], old(ranks[..]))
    {
      SortRank(ranks, segments, rank, Down, links);
      rank := rank + 1;
    }
  }

  /** One sweep up: each rank by its neighbours below. The lowest rank stays as it is. */
  method SweepUp(ranks: array<seq<Cell>>, segments: array<Segment>, ghost links: seq<Link>)
    requires View(ranks[..], segments[..], links)
    modifies ranks, segments
    ensures View(ranks[..], segments[..], links) && SameCells(ranks[..], old(ranks[..]))
    ensures SettledFrom(ranks[..], segments[..], 0)
  {
    hide View, MovedAll, SettledFrom, Scores, Permuted;
    NothingToSettle(ranks[..], segments[..]);
    var rank := ranks.Length - 1;
    while rank > 0
      invariant rank < ranks.Length
      invariant View(ranks[..], segments[..], links) && SameCells(ranks[..], old(ranks[..]))
      invariant SettledFrom(ranks[..], segments[..], if rank < 0 then 0 else rank)
    {
      rank := rank - 1;
      ghost var ranks0, segments0 := ranks[..], segments[..];
      SortRank(ranks, segments, rank, Up, links);
      SortedUp(ranks0, segments0, links, rank, ranks[..], segments[..]);
    }
  }

  lemma NothingToSettle(ranks: seq<seq<Cell>>, segments: seq<Segment>)
    ensures SettledFrom(ranks, segments, if ranks == [] then 0 else |ranks| - 1)
  {
  }

  /**
   * Four passes down and up leave every rank its cells and every segment its ends, and every rank but the lowest in the
   * order of the mean positions of its neighbours below.
   */
  method OrderRanksByBarycenter(ranks: array<seq<Cell>>, segments: array<Segment>, ghost links: seq<Link>)
    requires View(ranks[..], segments[..], links)
    modifies ranks, segments
    ensures View(ranks[..], segments[..], links)
    ensures SameCells(ranks[..], old(ranks[..]))
    ensures SettledFrom(ranks[..], segments[..], 0)
  {
    hide View, SettledFrom;
    for pass := 0 to 4
      invariant View(ranks[..], segments[..], links) && SameCells(ranks[..], old(ranks[..]))
      invariant pass > 0 ==> SettledFrom(ranks[..], segments[..], 0)
    {
      SweepDown(ranks, segments, links);
      SweepUp(ranks, segments, links);
    }
  }
}
