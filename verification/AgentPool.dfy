/** The agent group's worker pool: slots that each run one agent after another until none is left or one fails. */
module AgentPool {
  datatype Option<+T> = None | Some(value: T)

  /** How an agent would end. */
  datatype Outcome = Returns(result: int) | Throws(error: int)

  datatype Event = Started(index: nat) | Succeeded(index: nat) | Failed(index: nat)

  datatype Slot = Idle | Running(index: nat) | Done

  function Min(a: nat, b: nat): nat { if a <= b then a else b }

  // ---- Logs ----------------------------------------------------------------------------------

  /** The agents started, in order. */
  function Starts(log: seq<Event>): seq<nat> {
    if log == [] then []
    else Starts(log[..|log| - 1]) + if log[|log| - 1].Started? then [log[|log| - 1].index] else []
  }

  /** The agents started and not settled. */
  function Active(log: seq<Event>): int {
    if log == [] then 0 else Active(log[..|log| - 1]) + if log[|log| - 1].Started? then 1 else -1
  }

  function FirstFailure(log: seq<Event>): (first: Option<nat>)
    ensures first.Some? ==> Failed(first.value) in log
  {
    if log == [] then None
    else if FirstFailure(log[..|log| - 1]).Some? then FirstFailure(log[..|log| - 1])
    else if log[|log| - 1].Failed? then Some(log[|log| - 1].index)
    else None
  }

  function UpTo(n: nat): seq<nat> { seq(n, i requires 0 <= i < n => i) }

  /** At most `limit` agents run at any time. */
  ghost predicate NeverOver(log: seq<Event>, limit: nat) { forall i :: 0 <= i <= |log| ==> Active(log[..i]) <= limit }

  /** No agent starts after one has failed. */
  ghost predicate StopsAtFailure(log: seq<Event>) {
    forall i, j :: 0 <= i < j < |log| && log[i].Failed? ==> !log[j].Started?
  }

  lemma Appended(log: seq<Event>, e: Event)
    ensures Starts(log + [e]) == Starts(log) + if e.Started? then [e.index] else []
    ensures Active(log + [e]) == Active(log) + if e.Started? then 1 else -1
    ensures FirstFailure(log + [e]) == if FirstFailure(log).Some? then FirstFailure(log) else if e.Failed?
        then Some(e.index) else None
    ensures forall limit: nat :: NeverOver(log, limit) && Active(log + [e]) <= limit ==> NeverOver(log + [e], limit)
  {
    assert (log + [e])[..|log|] == log;
    forall limit: nat | NeverOver(log, limit) && Active(log + [e]) <= limit ensures NeverOver(log + [e], limit) {
      forall i | 0 <= i <= |log + [e]| ensures Active((log + [e])[..i]) <= limit {
        if i <= |log| { assert (log + [e])[..i] == log[..i]; } else { assert (log + [e])[..i] == log + [e]; }
      }
    }
  }

  lemma {:induction false} NoFailureYet(log: seq<Event>)
    ensures FirstFailure(log).None? <==> forall e :: e in log ==> !e.Failed?
  {
    if log != [] {
      NoFailureYet(log[..|log| - 1]);
      assert log == log[..|log| - 1] + [log[|log| - 1]];
    }
  }

  // ---- The pool ------------------------------------------------------------------------------

  function Busy(slots: seq<Slot>): nat {
    if slots == [] then 0 else Busy(slots[..|slots| - 1]) + if slots[|slots| - 1].Running? then 1 else 0
  }

  lemma {:induction false} BusyWhenSet(slots: seq<Slot>, s: nat, slot: Slot)
    requires s < |slots|
    ensures Busy(slots[s := slot]) == Busy(slots) - (if slots[s].Running? then 1 else 0)
        + (if slot.Running? then 1 else 0)
    decreases |slots|
  {
    var last, updated := |slots| - 1, slots[s := slot];
    if s < last {
      assert updated[..last] == slots[..last][s := slot];
      BusyWhenSet(slots[..last], s, slot);
    } else {
      assert updated[..last] == slots[..last];
    }
  }

  lemma {:induction false} BusyAtMost(slots: seq<Slot>)
    ensures Busy(slots) <= |slots|
    ensures Busy(slots) == 0 <==> forall s :: 0 <= s < |slots| ==> !slots[s].Running?
  {
    if slots != [] {
      BusyAtMost(slots[..|slots| - 1]);
      assert forall s :: 0 <= s < |slots| - 1 ==> slots[s] == slots[..|slots| - 1][s];
    }
  }

  datatype State = State(
    count: nat, failFast: bool, nextIndex: nat, started: set<nat>, results: seq<Option<int>>,
    primary: Option<(nat, int)>,
    aborted: bool, cancelled: bool, slots: seq<Slot>, log: seq<Event>)

  /** The log tells what the fields hold. */
  ghost predicate Logged(s: State) {
    && Starts(s.log) == UpTo(s.nextIndex) && s.nextIndex <= s.count
    && (forall i: nat :: i in s.started <==> i < s.nextIndex)
    && Active(s.log) == Busy(s.slots) && NeverOver(s.log, |s.slots|)
    && (!s.cancelled ==> FirstFailure(s.log) == if s.primary.Some? then Some(s.primary.value.0) else None)
    && (s.primary.Some? ==> FirstFailure(s.log) == Some(s.primary.value.0))
    && (s.failFast ==> StopsAtFailure(s.log) && (FirstFailure(s.log).Some? ==> s.aborted || s.cancelled))
    && (s.aborted <==> s.failFast && s.primary.Some?)
  }

  /** Where every started agent is: in its own slot, among the results, or failed. */
  ghost predicate Placed(s: State, outcomes: nat -> Outcome) {
    && |s.results| == s.count && s.nextIndex <= s.count
    && (forall i :: 0 <= i < s.count && s.results[i].Some? ==>
        i < s.nextIndex
        && outcomes(i) == Returns(s.results[i].value))
    && (s.primary.Some? ==> s.primary.value.0 < s.nextIndex && outcomes(s.primary.value.0) == Throws(s.primary.value.1))
    && (forall t :: 0 <= t < |s.slots| && s.slots[t].Running? ==> s.slots[t].index < s.nextIndex)
    && (forall t, u :: 0 <= t < u < |s.slots| && s.slots[t].Running? && s.slots[u].Running? ==>
        s.slots[t].index != s.slots[u].index)
    && (s.primary.None? && !s.cancelled ==> forall i :: 0 <= i < s.nextIndex ==>
          s.results[i].Some? || exists t :: 0 <= t < |s.slots| && s.slots[t] == Running(i))
    && (forall t :: 0 <= t < |s.slots| && s.slots[t].Done? ==> s.nextIndex == s.count || s.aborted || s.cancelled)
  }

  ghost predicate Inv(s: State, outcomes: nat -> Outcome) { Logged(s) && Placed(s, outcomes) }

  /** A slot takes the next agent, or is done. */
  function TakeNext(s: State, slot: nat): State
    requires slot < |s.slots|
  {
    if s.aborted || s.cancelled || s.nextIndex >= s.count then s.(slots := s.slots[slot := Done])
    else s.(nextIndex := s.nextIndex + 1, started := s.started + {s.nextIndex},
            slots := s.slots[slot := Running(s.nextIndex)],
            log := s.log + [Started(s.nextIndex)])
  }

  /** The state between an agent's end and what its slot does next. */
  function Noted(s: State, slot: nat, outcomes: nat -> Outcome): State
    requires slot < |s.slots| && s.slots[slot].Running? && s.slots[slot].index < |s.results|
  {
    var index := s.slots[slot].index;
    var freed := s.(slots := s.slots[slot := Idle]);
    match outcomes(index)
    case Returns(result) => freed.(results := s.results[index := Some(result)], log := s.log + [Succeeded(index)])
    case Throws(error) =>
      var first := s.primary.None? && !s.cancelled;
      freed.(primary := if first then Some((index, error)) else s.primary,
             aborted := s.aborted || (first && s.failFast), log := s.log + [Failed(index)])
  }

  /** The agent in a slot ended; the slot goes on, unless that was a failure to stop at. */
  function Settle(s: State, slot: nat, outcomes: nat -> Outcome): State
    requires slot < |s.slots| && s.slots[slot].Running? && s.slots[slot].index < |s.results|
  {
    var noted := Noted(s, slot, outcomes);
    if outcomes(s.slots[slot].index).Throws? && s.failFast then noted.(slots := noted.slots[slot := Done])
    else TakeNext(noted, slot)
  }

  // ---- What every step keeps -----------------------------------------------------------------

  lemma StartsGrow(n: nat)
    ensures UpTo(n) + [n] == UpTo(n + 1)
  {
  }

  lemma StillStopsAtFailure(log: seq<Event>, e: Event)
    requires StopsAtFailure(log) && (e.Started? ==> FirstFailure(log).None?)
    ensures StopsAtFailure(log + [e])
  {
    NoFailureYet(log);
    if e.Started? { assert forall i :: 0 <= i < |log| ==> log[i] in log; }
  }

  lemma TakeNextLogged(s: State, slot: nat)
    requires Logged(s) && slot < |s.slots| && !s.slots[slot].Running?
    ensures Logged(TakeNext(s, slot))
  {
    hide StopsAtFailure, NeverOver, Starts, Active, FirstFailure, Busy, UpTo;
    BusyWhenSet(s.slots, slot, Done);
    if !(s.aborted || s.cancelled || s.nextIndex >= s.count) {
      var e := Started(s.nextIndex);
      BusyWhenSet(s.slots, slot, Running(s.nextIndex));
      BusyAtMost(s.slots[slot := Running(s.nextIndex)]);
      Appended(s.log, e);
      StartsGrow(s.nextIndex);
      if s.failFast { StillStopsAtFailure(s.log, e); }
    }
  }

  lemma TakeNextPlaced(s: State, slot: nat, outcomes: nat -> Outcome)
    requires Placed(s, outcomes) && slot < |s.slots| && !s.slots[slot].Running?
    ensures Placed(TakeNext(s, slot), outcomes)
  {
    var t := TakeNext(s, slot);
    if s.primary.None? && !s.cancelled {
      forall i | 0 <= i < t.nextIndex
        ensures t.results[i].Some? || exists u :: 0 <= u < |t.slots| && t.slots[u] == Running(i)
      {
        if i < s.nextIndex && s.results[i].None? {
          var u :| 0 <= u < |s.slots| && s.slots[u] == Running(i);
          assert t.slots[u] == Running(i);
        } else if i == s.nextIndex && t.nextIndex > s.nextIndex {
          assert t.slots[slot] == Running(i);
        }
      }
    }
  }

  lemma RunningIsInRange(s: State, slot: nat, outcomes: nat -> Outcome)
    requires Inv(s, outcomes) && slot < |s.slots| && s.slots[slot].Running?
    ensures s.slots[slot].index < |s.results|
  {
  }

  lemma NotedLogged(s: State, slot: nat, outcomes: nat -> Outcome)
    requires Inv(s, outcomes) && slot < |s.slots| && s.slots[slot].Running?
    ensures Logged(Noted(s, slot, outcomes))
  {
    hide StopsAtFailure, NeverOver, Starts, Active, FirstFailure, Busy, UpTo, Placed;
    var index := s.slots[slot].index;
    RunningIsInRange(s, slot, outcomes);
    var e := if outcomes(index).Returns? then Succeeded(index) else Failed(index);
    BusyWhenSet(s.slots, slot, Idle);
    BusyAtMost(s.slots[slot := Idle]);
    Appended(s.log, e);
    if s.failFast { StillStopsAtFailure(s.log, e); }
  }

  lemma NotedPlaced(s: State, slot: nat, outcomes: nat -> Outcome)
    requires Inv(s, outcomes) && slot < |s.slots| && s.slots[slot].Running?
    ensures Placed(Noted(s, slot, outcomes), outcomes)
  {
    hide Logged;
    var t, index := Noted(s, slot, outcomes), s.slots[slot].index;
    if t.primary.None? && !t.cancelled {
      forall i | 0 <= i < t.nextIndex
        ensures t.results[i].Some? || exists u :: 0 <= u < |t.slots| && t.slots[u] == Running(i)
      {
        if i != index && s.results[i].None? {
          var u :| 0 <= u < |s.slots| && s.slots[u] == Running(i);
          assert t.slots[u] == Running(i);
        }
      }
    }
  }

  lemma DoneKeeps(s: State, slot: nat, outcomes: nat -> Outcome)
    requires Inv(s, outcomes) && slot < |s.slots| && s.slots[slot].Idle? && (s.aborted || s.cancelled)
    ensures Inv(s.(slots := s.slots[slot := Done]), outcomes)
  {
    TakeNextLogged(s, slot);
    TakeNextPlaced(s, slot, outcomes);
    assert TakeNext(s, slot) == s.(slots := s.slots[slot := Done]);
    hide Logged, Placed;
  }

  lemma SettleKeeps(s: State, slot: nat, outcomes: nat -> Outcome)
    requires Inv(s, outcomes) && slot < |s.slots| && s.slots[slot].Running?
    ensures Inv(Settle(s, slot, outcomes), outcomes)
    ensures |Settle(s, slot, outcomes).slots| == |s.slots|
  {
    var noted := Noted(s, slot, outcomes);
    NotedLogged(s, slot, outcomes);
    NotedPlaced(s, slot, outcomes);
    if outcomes(s.slots[slot].index).Throws? && s.failFast {
      DoneKeeps(noted, slot, outcomes);
    } else {
      TakeNextLogged(noted, slot);
      TakeNextPlaced(noted, slot, outcomes);
    }
    hide Logged, Placed;
  }

  lemma CancelKeeps(s: State, outcomes: nat -> Outcome)
    requires Inv(s, outcomes)
    ensures Inv(s.(cancelled := true), outcomes)
  {
  }

  // ---- The group -----------------------------------------------------------------------------

  class AgentGroup {
    const count: nat
    const failFast: bool
    var nextIndex: nat
    var started: set<nat>
    var results: seq<Option<int>>
    var primary: Option<(nat, int)>
    var aborted: bool
    var cancelled: bool
    var slots: seq<Slot>
    var log: seq<Event>

    ghost function View(): State
      reads this
    {
      State(count, failFast, nextIndex, started, results, primary, aborted, cancelled, slots, log)
    }

    constructor (count: nat, maxConcurrency: nat, failFast: bool)
      ensures View()
          == State(count, failFast, 0, {}, seq(count, _ => None), None, false, false,
            seq(Min(maxConcurrency, count), _ => Idle), [])
    {
      this.count, this.failFast := count, failFast;
      nextIndex, started, results, primary := 0, {}, seq(count, _ => None), None;
      aborted, cancelled, slots, log := false, false, seq(Min(maxConcurrency, count), _ => Idle), [];
    }

    /** The head of a slot's loop. */
    method Continue(slot: nat)
      requires slot < |slots|
      modifies this`nextIndex, this`started, this`slots, this`log
      ensures View() == TakeNext(old(View()), slot)
    {
      if aborted || cancelled || nextIndex >= count {
        slots := slots[slot := Done];
        return;
      }
      var index := nextIndex;
      nextIndex := nextIndex + 1;
      started := started + {index};
      slots, log := slots[slot := Running(index)], log + [Started(index)];
    }

    /** The agent in a slot returned or threw. */
    method AgentEnded(slot: nat, outcomes: nat -> Outcome)
      requires slot < |slots| && slots[slot].Running? && slots[slot].index < |results|
      modifies this
      ensures View() == Settle(old(View()), slot, outcomes)
    {
      var index := slots[slot].index;
      match outcomes(index)
      case Returns(result) =>
        results, log := results[index := Some(result)], log + [Succeeded(index)];
        assert slots[slot := Idle][slot := Done] == slots[slot := Done];
        assert forall i :: slots[slot := Idle][slot := Running(i)] == slots[slot := Running(i)];
        Continue(slot);
      case Throws(error) =>
        log := log + [Failed(index)];
        if primary.None? && !cancelled {
          primary := Some((index, error));
          if failFast { aborted := true; }
        }
        assert slots[slot := Idle][slot := Done] == slots[slot := Done];
        assert forall i :: slots[slot := Idle][slot := Running(i)] == slots[slot := Running(i)];
        if failFast { slots := slots[slot := Done]; } else { Continue(slot); }
    }

    method Cancel()
      modifies this`cancelled
      ensures View() == old(View()).(cancelled := true)
    {
      cancelled := true;
    }

    /** The agents never started, for which a cancellation is published. */
    method QueuedCancellations() returns (indices: seq<nat>)
      ensures forall i: nat :: i in indices <==> i < count && i !in started
      ensures forall i, j :: 0 <= i < j < |indices| ==> indices[i] < indices[j]
    {
      indices := [];
      for index := 0 to count
        invariant forall i: nat :: i in indices <==> i < index && i !in started
        invariant forall i, j :: 0 <= i < j < |indices| ==> indices[i] < indices[j]
      {
        assert forall i :: 0 <= i < |indices| ==> indices[i] in indices;
        if index !in started { indices := indices + [index]; }
      }
    }
  }

  // ---- Every run -----------------------------------------------------------------------------

  datatype Verdict = Completed(results: seq<int>) | Threw(index: nat, error: int, cancellations: seq<nat>)
      | GroupCancelled

  /** What happens while agents run: the agent in a slot ends, or the caller cancels. */
  datatype Action = Ends(slot: nat) | Cancels

  lemma Launched(s: State, outcomes: nat -> Outcome)
    requires s.nextIndex == 0 && s.started == {} && s.log == [] && s.primary.None? && !s.aborted && !s.cancelled
    requires |s.results| == s.count && (forall i :: 0 <= i < s.count ==> s.results[i].None?)
    requires forall t :: 0 <= t < |s.slots| ==> s.slots[t].Idle?
    ensures Inv(s, outcomes)
  {
    BusyAtMost(s.slots);
  }

  /** The group's slots launch one after another. */
  method Launch(group: AgentGroup, ghost outcomes: nat -> Outcome)
    requires Inv(group.View(), outcomes) && forall t :: 0 <= t < |group.slots| ==> group.slots[t].Idle?
    requires group.nextIndex <= group.count
    modifies group
    ensures group.nextIndex <= group.count && group.cancelled == old(group.cancelled)
    ensures Inv(group.View(), outcomes) && |group.slots| == old(|group.slots|)
    ensures forall t :: 0 <= t < |group.slots| ==> !group.slots[t].Idle?
  {
    hide Inv;
    for slot := 0 to |group.slots|
      invariant |group.slots| == old(|group.slots|) && Inv(group.View(), outcomes)
      invariant group.nextIndex <= group.count && group.cancelled == old(group.cancelled)
      invariant forall t :: 0 <= t < slot ==> !group.slots[t].Idle?
      invariant forall t :: slot <= t < |group.slots| ==> group.slots[t].Idle?
    {
      TakeNextKeeps(group.View(), slot, outcomes);
      group.Continue(slot);
    }
  }

  lemma TakeNextKeeps(s: State, slot: nat, outcomes: nat -> Outcome)
    requires Inv(s, outcomes) && slot < |s.slots| && !s.slots[slot].Running?
    ensures Inv(TakeNext(s, slot), outcomes)
  {
    TakeNextLogged(s, slot);
    TakeNextPlaced(s, slot, outcomes);
    hide Logged, Placed;
  }

  /** A step never leaves a slot idle, and an agent's end shrinks what is left to run. */
  lemma SettleShrinks(s: State, slot: nat, outcomes: nat -> Outcome)
    requires Inv(s, outcomes) && slot < |s.slots| && s.slots[slot].Running?
    requires forall t :: 0 <= t < |s.slots| ==> !s.slots[t].Idle?
    ensures var t := Settle(s, slot, outcomes);
            && (forall u :: 0 <= u < |t.slots| ==> !t.slots[u].Idle?)
            && t.count == s.count && t.failFast == s.failFast && t.nextIndex <= t.count
            && (t.nextIndex > s.nextIndex || (t.nextIndex == s.nextIndex && Busy(t.slots) < Busy(s.slots)))
  {
    var t := Settle(s, slot, outcomes);
    RunningIsInRange(s, slot, outcomes);
    SettleMoves(s, slot, outcomes);
    BusyWhenSet(s.slots, slot, Done);
    assert s.nextIndex <= s.count;
    hide Busy, Inv, Settle;
  }

  /** The slot is done, or takes the next agent. */
  lemma SettleMoves(s: State, slot: nat, outcomes: nat -> Outcome)
    requires slot < |s.slots| && s.slots[slot].Running? && s.slots[slot].index < |s.results|
    ensures var t := Settle(s, slot, outcomes);
            && t.count == s.count && t.failFast == s.failFast
            && ((t.slots == s.slots[slot := Done] && t.nextIndex == s.nextIndex)
                || (t.slots == s.slots[slot := Running(s.nextIndex)] && t.nextIndex == s.nextIndex + 1 <= s.count))
  {
    var freed := s.slots[slot := Idle];
    assert freed[slot := Done] == s.slots[slot := Done];
    assert freed[slot := Running(s.nextIndex)] == s.slots[slot := Running(s.nextIndex)];
  }

  /** When every slot is done: nothing runs, and without a failure or a cancellation every result is in its place. */
  lemma AllDone(s: State, outcomes: nat -> Outcome)
    requires Inv(s, outcomes) && (s.count == 0 || |s.slots| > 0)
    requires forall t :: 0 <= t < |s.slots| ==> s.slots[t].Done?
    ensures s.primary.None? && !s.cancelled ==>
              forall i :: 0 <= i < s.count ==> s.results[i].Some? && outcomes(i) == Returns(s.results[i].value)
    ensures !s.cancelled && (s.primary.None? || !s.failFast) ==> s.nextIndex == s.count
  {
    if s.primary.None? && !s.cancelled && s.count > 0 { assert s.slots[0].Done?; }
  }

  method FirstRunning(slots: seq<Slot>) returns (slot: nat)
    ensures slot <= |slots| && (slot < |slots| ==> slots[slot].Running?)
    ensures slot == |slots| ==> forall t :: 0 <= t < |slots| ==> !slots[t].Running?
  {
    slot := 0;
    while slot < |slots| && !slots[slot].Running?
      invariant slot <= |slots| && forall t :: 0 <= t < slot ==> !slots[t].Running?
    {
      slot := slot + 1;
    }
  }

  /**
   * Run the agents of a group, whatever order they end in. Agents start in order, each at most once, and at most
   * `maxConcurrency` run at a time. Without a cancellation the group returns every result in its place, or throws the
   * first failure; failing fast, none starts after that, and exactly those never started are reported cancelled.
   */
  method RunGroup(count: nat, maxConcurrency: nat, failFast: bool, outcomes: nat -> Outcome, actions: seq<Action>)
      returns (verdict: Verdict, log: seq<Event>)
    requires maxConcurrency > 0
    ensures exists k :: 0 <= k <= count && Starts(log) == UpTo(k)
                        && (verdict.Threw? ==> forall i: nat :: i in verdict.cancellations <==> k <= i < count)
                        && (verdict.Completed? || (verdict.Threw? && !failFast) ==> k == count)
    ensures NeverOver(log, Min(maxConcurrency, count)) && Active(log) == 0
    ensures failFast ==> StopsAtFailure(log)
    ensures verdict.Completed? ==> |verdict.results| == count && forall i :: 0 <= i < count ==>
        outcomes(i) == Returns(verdict.results[i])
    ensures verdict.Threw? ==>
        FirstFailure(log) == Some(verdict.index)
        && outcomes(verdict.index) == Throws(verdict.error)
    ensures verdict.Threw? ==> forall i, j :: 0 <= i < j < |verdict.cancellations| ==>
        verdict.cancellations[i] < verdict.cancellations[j]
    ensures Cancels !in actions ==> !verdict.GroupCancelled?
  {
    hide Inv, StopsAtFailure, NeverOver, Starts, Active, FirstFailure, Busy;
    var group := new AgentGroup(count, maxConcurrency, failFast);
    Launched(group.View(), outcomes);
    Launch(group, outcomes);
    var turn := 0;
    while true
      invariant fresh(group) && Inv(group.View(), outcomes) && group.count == count && group.failFast == failFast
      invariant |group.slots| == Min(maxConcurrency, count) && turn <= |actions|
      invariant forall t :: 0 <= t < |group.slots| ==> !group.slots[t].Idle?
      invariant group.cancelled ==> Cancels in actions
      invariant group.nextIndex <= count
      decreases |actions| - turn, count - group.nextIndex, Busy(group.slots)
    {
      var slot := FirstRunning(group.slots);
      if slot == |group.slots| { break; }
      if turn < |actions| {
        var action := actions[turn];
        turn := turn + 1;
        if action.Cancels? {
          CancelKeeps(group.View(), outcomes);
          group.Cancel();
          continue;
        }
        if action.slot >= |group.slots| || !group.slots[action.slot].Running? { continue; }
        slot := action.slot;
      }
      EndAgent(group, slot, outcomes);
    }
    verdict := Conclude(group, outcomes);
    log := group.log;
    Concluded(group.View(), outcomes);
  }

  /** The agent of one slot ends: the group keeps its invariant and comes closer to its end. */
  method EndAgent(group: AgentGroup, slot: nat, outcomes: nat -> Outcome)
    requires Inv(group.View(), outcomes) && slot < |group.slots| && group.slots[slot].Running?
    requires forall t :: 0 <= t < |group.slots| ==> !group.slots[t].Idle?
    modifies group
    ensures Inv(group.View(), outcomes) && group.cancelled == old(group.cancelled)
    ensures |group.slots| == old(|group.slots|) && forall t :: 0 <= t < |group.slots| ==> !group.slots[t].Idle?
    ensures group.nextIndex <= group.count
    ensures group.nextIndex > old(group.nextIndex)
            || (group.nextIndex == old(group.nextIndex) && Busy(group.slots) < old(Busy(group.slots)))
  {
    hide Inv, Busy;
    RunningIsInRange(group.View(), slot, outcomes);
    SettleKeeps(group.View(), slot, outcomes);
    SettleShrinks(group.View(), slot, outcomes);
    group.AgentEnded(slot, outcomes);
  }

  /** The group returns or throws, once every slot is done. */
  method Conclude(group: AgentGroup, ghost outcomes: nat -> Outcome) returns (verdict: Verdict)
    requires Inv(group.View(), outcomes) && (group.count == 0 || |group.slots| > 0)
    requires forall t :: 0 <= t < |group.slots| ==> group.slots[t].Done?
    ensures verdict.GroupCancelled? <==> group.cancelled
    ensures verdict.Threw? ==> group.primary == Some((verdict.index, verdict.error))
    ensures verdict.Threw? ==> forall i: nat :: i in verdict.cancellations <==> group.nextIndex <= i < group.count
    ensures verdict.Threw? ==> forall i, j :: 0 <= i < j < |verdict.cancellations| ==>
        verdict.cancellations[i] < verdict.cancellations[j]
    ensures verdict.Completed? || (verdict.Threw? && !group.failFast) ==> group.nextIndex == group.count
    ensures verdict.Completed? ==> |verdict.results| == group.count && forall i :: 0 <= i < group.count ==>
        outcomes(i) == Returns(verdict.results[i])
  {
    AllDone(group.View(), outcomes);
    Concluded(group.View(), outcomes);
    hide Inv, StopsAtFailure, NeverOver, Starts, Active, FirstFailure, Busy;
    if group.cancelled { return GroupCancelled; }
    if group.primary.Some? {
      var cancellations := group.QueuedCancellations();
      return Threw(group.primary.value.0, group.primary.value.1, cancellations);
    }
    var count, results := group.count, group.results;
    return Completed(seq(count, i requires 0 <= i < |results| && results[i].Some? => results[i].value));
  }

  /** What the fields tell at the end of a run. */
  lemma Concluded(s: State, outcomes: nat -> Outcome)
    requires Inv(s, outcomes) && forall t :: 0 <= t < |s.slots| ==> !s.slots[t].Running?
    ensures Starts(s.log) == UpTo(s.nextIndex) && s.nextIndex <= s.count && NeverOver(s.log, |s.slots|)
        && Active(s.log) == 0
    ensures |s.results| == s.count && (forall i: nat :: i in s.started <==> i < s.nextIndex)
    ensures s.failFast ==> StopsAtFailure(s.log)
    ensures s.primary.Some? ==>
        FirstFailure(s.log) == Some(s.primary.value.0)
        && outcomes(s.primary.value.0) == Throws(s.primary.value.1)
  {
    BusyAtMost(s.slots);
    hide Busy, NeverOver, StopsAtFailure, Starts, Active, FirstFailure;
  }
}
