/** Completing a paged history: ask for the first missing item until none is missing, whatever pages come back. */
module PageCompletion {
  datatype Option<+T> = None | Some(value: T)

  datatype Result<T> = Complete(items: seq<T>) | Failed(error: Error)

  datatype Error = InvalidPage | Refused | OutsideHistory | NoProgress

  datatype Page<T> = Page(start: int, total: int, items: seq<T>)

  /**
   * What the server answers to one request; `accepted` tells that the page is of the asked kind, revision, cursor and
   * total.
   */
  datatype Answer<T> = Answer(accepted: bool, start: int, items: seq<T>)

  /** The server's answer to the n-th request, which asks for the item at a cursor. */
  type Server<T> = (nat, nat) -> Answer<T>

  // ---- Slots ---------------------------------------------------------------------------------

  function Missing<T>(slots: seq<Option<T>>): nat {
    if slots == [] then 0 else Missing(slots[..|slots| - 1]) + if slots[|slots| - 1].None? then 1 else 0
  }

  lemma {:induction false} MissingWhenSet<T>(slots: seq<Option<T>>, i: nat, item: T)
    requires i < |slots|
    ensures Missing(slots[i := Some(item)]) == Missing(slots) - if slots[i].None? then 1 else 0
    decreases |slots|
  {
    var last, updated := |slots| - 1, slots[i := Some(item)];
    if i < last {
      assert updated[..last] == slots[..last][i := Some(item)];
      MissingWhenSet(slots[..last], i, item);
    } else {
      assert updated[..last] == slots[..last];
    }
  }

  lemma {:induction false} NoneMissing<T>(slots: seq<Option<T>>)
    ensures Missing(slots) == 0 <==> forall i :: 0 <= i < |slots| ==> slots[i].Some?
  {
    if slots != [] {
      NoneMissing(slots[..|slots| - 1]);
      assert forall i :: 0 <= i < |slots| - 1 ==> slots[i] == slots[..|slots| - 1][i];
    }
  }

  lemma {:induction false} AllMissing<T>(slots: seq<Option<T>>)
    requires forall i :: 0 <= i < |slots| ==> slots[i].None?
    ensures Missing(slots) == |slots|
  {
    if slots != [] { AllMissing(slots[..|slots| - 1]); }
  }

  // ---- Histories -----------------------------------------------------------------------------

  /** `items` is the stretch of the history that begins at `start`. */
  ghost predicate SliceOf<T>(start: int, items: seq<T>, history: seq<T>) {
    0 <= start && start + |items| <= |history| && items == history[start..start + |items|]
  }

  /** A page that the client takes in. */
  predicate Usable<T>(a: Answer<T>, total: int) { a.accepted && 0 <= a.start && a.start + |a.items| <= total }

  /** The first window and every page the client takes in are stretches of one history. */
  ghost predicate OneHistory<T>(initial: Page<T>, server: Server<T>, history: seq<T>) {
    && |history| == initial.total && SliceOf(initial.start, initial.items, history)
    && (forall n: nat, cursor: nat :: Usable(server(n, cursor), initial.total) ==>
          SliceOf(server(n, cursor).start, server(n, cursor).items, history))
  }

  /** Every answer is usable and has the item asked for. */
  ghost predicate Answering<T>(initial: Page<T>, server: Server<T>) {
    forall n: nat, cursor: nat ::
      && Usable(server(n, cursor), initial.total)
      && (cursor < initial.total ==>
          server(n, cursor).start <= cursor < server(n, cursor).start + |server(n, cursor).items|)
  }

  /** The slots that are filled hold the history's items. */
  ghost predicate Agrees<T>(slots: seq<Option<T>>, history: seq<T>) {
    |slots| == |history| && forall i :: 0 <= i < |slots| && slots[i].Some? ==> slots[i].value == history[i]
  }

  predicate ValidPage<T>(p: Page<T>) { p.start >= 0 && p.total >= 0 && p.start + |p.items| <= p.total }

  // ---- Filling -------------------------------------------------------------------------------

  /** Fill the slots from `start` with the items, and count those that were missing. */
  method Fill<T>(slots: array<Option<T>>, start: nat, items: seq<T>, ghost history: seq<T>) returns (added: nat)
    requires start + |items| <= slots.Length
    modifies slots
    ensures added == Missing(old(slots[..])) - Missing(slots[..])
    ensures (forall i :: start <= i < start + |items| ==> old(slots[i]).None?) ==> added == |items|
    ensures forall i :: start <= i < start + |items| && old(slots[i]).None? ==> added > 0
    ensures forall i :: start <= i < start + |items| ==> slots[i] == Some(items[i - start])
    ensures Agrees(old(slots[..]), history) && SliceOf(start, items, history) ==> Agrees(slots[..], history)
  {
    hide Missing, Agrees;
    added := 0;
    for offset := 0 to |items|
      invariant added == Missing(old(slots[..])) - Missing(slots[..])
      invariant (forall i :: start <= i < start + |items| ==> old(slots[i]).None?) ==> added == offset
      invariant forall i :: start <= i < start + offset && old(slots[i]).None? ==> added > 0
      invariant forall i :: start + offset <= i < slots.Length ==> slots[i] == old(slots[i])
      invariant forall i :: start <= i < start + offset ==> slots[i] == Some(items[i - start])
      invariant Agrees(old(slots[..]), history) && SliceOf(start, items, history) ==> Agrees(slots[..], history)
    {
      var index := start + offset;
      ghost var before := slots[..];
      if slots[index].None? { added := added + 1; }
      slots[index] := Some(items[offset]);
      assert slots[..] == before[index := Some(items[offset])];
      MissingWhenSet(before, index, items[offset]);
      AgreesWhenSet(before, index, items[offset], history);
    }
  }

  lemma AgreesWhenSet<T>(slots: seq<Option<T>>, index: nat, item: T, history: seq<T>)
    requires index < |slots|
    ensures Agrees(slots, history) && index < |history| && history[index] == item ==>
        Agrees(slots[index := Some(item)], history)
  {
  }

  method FirstMissing<T>(slots: array<Option<T>>) returns (cursor: nat)
    ensures cursor <= slots.Length
    ensures forall i :: 0 <= i < cursor ==> slots[i].Some?
    ensures cursor < slots.Length ==> slots[cursor].None?
  {
    cursor := 0;
    while cursor < slots.Length && slots[cursor].Some?
      invariant cursor <= slots.Length && forall i :: 0 <= i < cursor ==> slots[i].Some?
    {
      cursor := cursor + 1;
    }
  }

  method Values<T>(slots: array<Option<T>>) returns (items: seq<T>)
    requires forall i :: 0 <= i < slots.Length ==> slots[i].Some?
    ensures |items| == slots.Length && forall i :: 0 <= i < |items| ==> items[i] == slots[i].value
  {
    items := [];
    for i := 0 to slots.Length
      invariant |items| == i && forall k :: 0 <= k < i ==> items[k] == slots[k].value
    {
      items := items + [slots[i].value];
    }
  }

  /**
   * Complete a page. It ends whatever the server answers, after no more requests than items were missing. What it
   * returns is the one history that the pages are stretches of; it does return when every answer has the item asked
   * for.
   */
  method CompletePage<T>(initial: Page<T>, server: Server<T>, ghost history: seq<T>)
      returns (result: Result<T>, requests: nat)
    ensures result == Failed(InvalidPage) <==> !ValidPage(initial)
    ensures ValidPage(initial) ==> requests <= initial.total - |initial.items|
    ensures result.Complete? ==> |result.items| == initial.total
    ensures OneHistory(initial, server, history) && result.Complete? ==> result.items == history
    ensures ValidPage(initial) && Answering(initial, server) ==> result.Complete?
  {
    requests := 0;
    if initial.start < 0 || initial.total < 0 || initial.start + |initial.items| > initial.total {
      return Failed(InvalidPage), 0;
    }
    var slots := new Option<T>[initial.total](_ => None);
    AllMissing(slots[..]);
    var filled := Fill(slots, initial.start, initial.items, history);
    while true
      invariant slots.Length == initial.total && fresh(slots)
      invariant requests + Missing(slots[..]) <= initial.total - |initial.items|
      invariant OneHistory(initial, server, history) ==> Agrees(slots[..], history)
      decreases Missing(slots[..])
    {
      var cursor := FirstMissing(slots);
      if cursor == slots.Length { break; }
      NoneMissing(slots[..]);
      var answer := server(requests, cursor);
      requests := requests + 1;
      if !answer.accepted { return Failed(Refused), requests; }
      if answer.start < 0 || answer.start + |answer.items| > initial.total { return Failed(OutsideHistory), requests; }
      var added := Fill(slots, answer.start, answer.items, history);
      if added == 0 { return Failed(NoProgress), requests; }
    }
    var items := Values(slots);
    result := Complete(items);
  }
}
