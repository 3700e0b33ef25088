/** The command pool and the node timeout computed for it. */
module CommandBatch {
  // ---- The timeout ---------------------------------------------------------------------------

  function Min(a: nat, b: nat): nat { if a <= b then a else b }

  function Longest(timeouts: seq<nat>): (longest: nat)
    requires timeouts != []
    ensures longest in timeouts && forall t :: t in timeouts ==> t <= longest
  {
    if |timeouts| == 1 then timeouts[0]
    else
      var rest := Longest(timeouts[1..]);
      assert timeouts == [timeouts[0]] + timeouts[1..];
      if timeouts[0] >= rest then timeouts[0] else rest
  }

  /** ceil(n / slots) */
  function Waves(n: nat, slots: nat): nat
    requires slots > 0
  {
    (n + slots - 1) / slots
  }

  /** The node timeout, in milliseconds, for commands with these timeouts of their own. */
  function BatchTimeoutMs(timeouts: seq<nat>, maxConcurrency: nat): nat
    requires maxConcurrency > 0
  {
    if |timeouts| == 0 then 10000
    else Waves(|timeouts|, Min(maxConcurrency, |timeouts|)) * Longest(timeouts) + 10000
  }

  // ---- Schedules -----------------------------------------------------------------------------

  /** When and in which slot each command ran. */
  datatype Ran = Ran(slot: nat, start: nat, finish: nat)

  predicate RunningAt(r: Ran, t: nat) { r.start <= t < r.finish }

  /** Slot `s` is running one of the commands at time `t`. */
  ghost predicate BusyAt(schedule: seq<Ran>, s: nat, t: nat) {
    exists j :: 0 <= j < |schedule| && schedule[j].slot == s && RunningAt(schedule[j], t)
  }

  /** Commands start in order, and while one waits every slot runs another. */
  ghost predicate WorkConserving(schedule: seq<Ran>, slots: nat) {
    && (forall j, k :: 0 <= j < k < |schedule| ==> schedule[j].start <= schedule[k].start)
    && (forall j :: 0 <= j < |schedule| ==> schedule[j].slot < slots && schedule[j].start <= schedule[j].finish)
    && (forall k, s: nat, t: nat :: 0 <= k < |schedule| && s < slots && t < schedule[k].start ==>
        BusyAt(schedule, s, t))
  }

  /** Every command is stopped at its own timeout at the latest. */
  ghost predicate WithinTimeouts(schedule: seq<Ran>, timeouts: seq<nat>) {
    |schedule| == |timeouts| && forall j :: 0 <= j < |schedule| ==>
      schedule[j].finish <= schedule[j].start + timeouts[j]
  }

  /** Distinct slots run distinct commands: `slots` busy slots need `slots` commands. */
  lemma {:induction false} BusySlotsNeedCommands(schedule: seq<Ran>, slots: nat, t: nat) returns (running: set<nat>)
    requires forall s: nat :: s < slots ==> BusyAt(schedule, s, t)
    ensures |running| == slots
    ensures forall j :: j in running ==> j < |schedule| && schedule[j].slot < slots && RunningAt(schedule[j], t)
  {
    if slots == 0 {
      running := {};
    } else {
      var fewer := BusySlotsNeedCommands(schedule, slots - 1, t);
      assert BusyAt(schedule, slots - 1, t);
      var j: nat :| j < |schedule| && schedule[j].slot == slots - 1 && RunningAt(schedule[j], t);
      running := fewer + {j};
    }
  }

  lemma {:induction false} RangeSize(running: set<nat>, lo: nat, hi: nat)
    requires lo <= hi && forall j :: j in running ==> lo <= j < hi
    ensures |running| <= hi - lo
    decreases hi
  {
    if lo == hi {
      assert running == {};
    } else {
      RangeSize(running - {hi - 1}, lo, hi - 1);
    }
  }

  /** Command `k` starts no later than its wave: after `k / slots` times the longest command. */
  lemma {:induction false} StartsWithItsWave(schedule: seq<Ran>, slots: nat, longest: nat, k: nat)
    requires slots > 0 && WorkConserving(schedule, slots) && k < |schedule|
    requires forall j :: 0 <= j < |schedule| ==> schedule[j].finish <= schedule[j].start + longest
    ensures schedule[k].start <= k / slots * longest
    decreases k
  {
    var wave := k / slots;
    var t := wave * longest;
    if schedule[k].start > t {
      var running := BusySlotsNeedCommands(schedule, slots, t);
      forall j | j in running ensures wave * slots <= j < k {
        assert schedule[j].start <= t < schedule[k].start;
        if j < wave * slots {
          StartsWithItsWave(schedule, slots, longest, j);
          EarlierWave(j, wave, slots, longest);
        }
      }
      RangeSize(running, wave * slots, k);
    }
  }

  lemma MulMonotone(a: int, b: int, d: nat)
    ensures a <= b ==> a * d <= b * d
  {
    if a <= b { assert (b - a) * d >= 0; }
  }

  lemma DivBelow(j: nat, wave: nat, slots: nat)
    requires slots > 0 && j < wave * slots
    ensures j / slots + 1 <= wave
  {
    MulMonotone(wave, j / slots, slots);
    assert j / slots * slots <= j;
  }

  lemma EarlierWave(j: nat, wave: nat, slots: nat, longest: nat)
    requires slots > 0 && j < wave * slots
    ensures j / slots * longest + longest <= wave * longest
  {
    DivBelow(j, wave, slots);
    MulMonotone(j / slots + 1, wave, longest);
  }

  lemma LastWave(k: nat, n: nat, slots: nat, longest: nat)
    requires slots > 0 && k < n
    ensures k / slots * longest + longest <= Waves(n, slots) * longest
  {
    var waves := Waves(n, slots);
    assert n + slots - 1 == waves * slots + (n + slots - 1) % slots;
    EarlierWave(k, waves, slots, longest);
  }

  /** However the commands run, the pool is done at least ten seconds before the node's timeout. */
  lemma BatchFitsItsTimeout(schedule: seq<Ran>, timeouts: seq<nat>, maxConcurrency: nat, k: nat)
    requires maxConcurrency > 0 && k < |schedule| && WithinTimeouts(schedule, timeouts)
    requires WorkConserving(schedule, Min(maxConcurrency, |timeouts|))
    ensures schedule[k].finish + 10000 <= BatchTimeoutMs(timeouts, maxConcurrency)
  {
    var slots := Min(maxConcurrency, |timeouts|);
    forall j | 0 <= j < |schedule| ensures schedule[j].finish <= schedule[j].start + Longest(timeouts) {
      assert timeouts[j] in timeouts;
    }
    StartsWithItsWave(schedule, slots, Longest(timeouts), k);
    LastWave(k, |timeouts|, slots, Longest(timeouts));
  }

  // ---- The pool ------------------------------------------------------------------------------

  /** A command starts when its slot has finished the one before it there. */
  ghost predicate OneAtATime(schedule: seq<Ran>) {
    forall j, k :: 0 <= j < k < |schedule| && schedule[j].slot == schedule[k].slot ==>
        schedule[j].finish <= schedule[k].start
  }

  lemma BusyStays(schedule: seq<Ran>, r: Ran, s: nat, t: nat)
    requires BusyAt(schedule, s, t)
    ensures BusyAt(schedule + [r], s, t)
  {
    var j :| 0 <= j < |schedule| && schedule[j].slot == s && RunningAt(schedule[j], t);
    assert (schedule + [r])[j] == schedule[j];
  }

  /**
   * Slot `s` has been busy since the start and is free from `free[s]` on; no command waits past the first free slot.
   */
  ghost predicate Filled(schedule: seq<Ran>, free: seq<nat>) {
    && (forall s: nat, t: nat :: s < |free| && t < free[s] ==> BusyAt(schedule, s, t))
    && (forall j, s :: 0 <= j < |schedule| && 0 <= s < |free| ==> schedule[j].start <= free[s])
    && (forall j :: 0 <= j < |schedule| ==> schedule[j].slot < |free| && schedule[j].finish <= free[schedule[j].slot])
  }

  lemma FillSlot(schedule: seq<Ran>, free: seq<nat>, first: nat, duration: nat)
    requires Filled(schedule, free) && WorkConserving(schedule, |free|) && OneAtATime(schedule)
    requires first < |free| && forall s :: 0 <= s < |free| ==> free[first] <= free[s]
    ensures var next, finish := schedule + [Ran(first, free[first], free[first] + duration)], free[first] + duration;
            Filled(next, free[first := finish]) && WorkConserving(next, |free|) && OneAtATime(next)
  {
    var r := Ran(first, free[first], free[first] + duration);
    var next := schedule + [r];
    forall s: nat, t: nat | s < |free| && t < free[first := r.finish][s] ensures BusyAt(next, s, t) {
      if t < free[s] {
        BusyStays(schedule, r, s, t);
      } else {
        assert next[|schedule|] == r && RunningAt(r, t);
      }
    }
    forall k, s: nat, t: nat | 0 <= k < |next| && s < |free| && t < next[k].start ensures BusyAt(next, s, t) {
      assert BusyAt(schedule, s, t) by {
        if k < |schedule| { assert t < schedule[k].start; } else { assert t < free[s]; }
      }
      BusyStays(schedule, r, s, t);
    }
  }

  lemma NothingRan(slots: nat, free: seq<nat>)
    requires |free| == slots && forall s :: 0 <= s < slots ==> free[s] == 0
    ensures Filled([], free) && WorkConserving([], slots) && OneAtATime([])
  {
  }

  /** Run commands that take these times, each in the slot that is free first, up to `maxConcurrency` at once. */
  method RunPool(durations: seq<nat>, maxConcurrency: nat) returns (schedule: seq<Ran>)
    requires maxConcurrency > 0
    ensures |schedule| == |durations|
    ensures forall k :: 0 <= k < |schedule| ==> schedule[k].finish == schedule[k].start + durations[k]
    ensures WorkConserving(schedule, Min(maxConcurrency, |durations|)) && OneAtATime(schedule)
  {
    hide Filled, WorkConserving, OneAtATime;
    var slots := Min(maxConcurrency, |durations|);
    var free: seq<nat> := seq(slots, _ => 0);
    var nextIndex := 0;
    schedule := [];
    NothingRan(slots, free);
    while nextIndex < |durations|
      invariant 0 <= nextIndex == |schedule| <= |durations| && |free| == slots
      invariant forall k :: 0 <= k < |schedule| ==> schedule[k].finish == schedule[k].start + durations[k]
      invariant Filled(schedule, free) && WorkConserving(schedule, slots) && OneAtATime(schedule)
    {
      var first := FirstFree(free);
      FillSlot(schedule, free, first, durations[nextIndex]);
      var r := Ran(first, free[first], free[first] + durations[nextIndex]);
      schedule := schedule + [r];
      free := free[first := r.finish];
      nextIndex := nextIndex + 1;
    }
  }

  method FirstFree(free: seq<nat>) returns (first: nat)
    requires free != []
    ensures first < |free| && forall s :: 0 <= s < |free| ==> free[first] <= free[s]
  {
    first := 0;
    for s := 1 to |free|
      invariant first < s && forall i :: 0 <= i < s ==> free[first] <= free[i]
    {
      if free[s] < free[first] { first := s; }
    }
  }
}
