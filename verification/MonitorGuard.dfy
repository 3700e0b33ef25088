/** The monitor loop: observe, guard against repeating a repair, decide, and do one thing. */
module MonitorGuard {
  datatype Option<+T> = None | Some(value: T)

  datatype Route = Wait | Act | Stop
  datatype Kind = Advance | Recover | Repair

  datatype Action = Action(kind: Kind, failureId: string, targetStateId: string)

  datatype Observation = Observation(route: Route, action: Option<Action>)

  datatype Step = Observed(observation: Observation) | RepairCompleted(failureId: string, targetStateId: string)
      | Acted | Slept

  /** What the outside makes of one round: an observation, and whether what it leads to ends well. */
  datatype Round = Round(observation: Observation, completes: bool)

  datatype Run = Run(maxChecks: nat, steps: seq<Step>, ended: bool)

  /** Action details come with the route that acts on them, and only with it. */
  predicate Accepted(o: Observation) { o.action.Some? <==> o.route.Act? }

  predicate Repairs(o: Observation) { o.action.Some? && o.action.value.kind.Repair? }

  predicate SameRepair(o: Observation, a: Action) {
    Repairs(o) && o.action.value.failureId == a.failureId && o.action.value.targetStateId == a.targetStateId
  }

  predicate SameRepairObserved(s: Step, a: Action) { s.Observed? && SameRepair(s.observation, a) }

  // ---- The guard -----------------------------------------------------------------------------

  /** Whether some repair completed after the newest earlier observation that asked for this one. */
  predicate Repeated(earlier: seq<Step>, a: Action) {
    if earlier == [] then false
    else if SameRepairObserved(earlier[|earlier| - 1], a) then false
    else if earlier[|earlier| - 1].RepairCompleted? then Asked(earlier[..|earlier| - 1], a)
    else Repeated(earlier[..|earlier| - 1], a)
  }

  predicate Asked(steps: seq<Step>, a: Action) { exists s :: s in steps && SameRepairObserved(s, a) }

  /** The scan of the source: find the newest such observation, then look for a completed repair after it. */
  method RepeatedCompletedRepair(earlier: seq<Step>, observation: Observation) returns (repeated: bool)
    ensures repeated <==> Repairs(observation) && Repeated(earlier, observation.action.value)
  {
    if !Repairs(observation) { return false; }
    var action := observation.action.value;
    var index := |earlier|;
    assert earlier[..|earlier|] == earlier;
    while index > 0
      invariant 0 <= index <= |earlier|
      invariant forall k :: index <= k < |earlier| ==> !SameRepairObserved(earlier[k], action)
    {
      index := index - 1;
      if SameRepairObserved(earlier[index], action) {
        repeated := exists s :: s in earlier[index + 1..] && s.RepairCompleted?;
        ScanFinds(earlier, action, index);
        return;
      }
    }
    NeverAsked(earlier, action);
    return false;
  }

  lemma {:induction false} NeverAsked(earlier: seq<Step>, a: Action)
    requires !Asked(earlier, a)
    ensures !Repeated(earlier, a)
  {
    if earlier != [] {
      assert earlier == earlier[..|earlier| - 1] + [earlier[|earlier| - 1]];
      assert !Asked(earlier[..|earlier| - 1], a);
      NeverAsked(earlier[..|earlier| - 1], a);
    }
  }

  lemma {:induction false} ScanFinds(earlier: seq<Step>, a: Action, index: nat)
    requires index < |earlier| && SameRepairObserved(earlier[index], a)
    requires forall k :: index < k < |earlier| ==> !SameRepairObserved(earlier[k], a)
    ensures Repeated(earlier, a) <==> exists s :: s in earlier[index + 1..] && s.RepairCompleted?
    decreases |earlier|
  {
    var last := |earlier| - 1;
    if index < last {
      var front := earlier[..last];
      assert earlier[index + 1..] == front[index + 1..] + [earlier[last]];
      assert front[index] in front && SameRepairObserved(front[index], a);
      ScanFinds(front, a, index);
    }
  }

  // ---- One round -----------------------------------------------------------------------------

  function Observations(steps: seq<Step>): nat {
    if steps == [] then 0 else Observations(steps[..|steps| - 1]) + if steps[|steps| - 1].Observed? then 1 else 0
  }

  /** What the decision is after the guard: an observation to repeat a completed repair becomes a stop. */
  function Decide(run: Run, o: Observation): Option<Option<Action>> {
    var checks := Observations(run.steps) + 1;
    if o.route.Stop? || (Repairs(o) && Repeated(run.steps, o.action.value)) || checks >= run.maxChecks then None
    else if o.route.Wait? then Some(None)
    else Some(o.action)
  }

  function Perform(run: Run, round: Round): Run {
    if run.ended || !Accepted(round.observation) then run.(ended := true)
    else
      var seen := run.steps + [Observed(round.observation)];
      var decision := Decide(run, round.observation);
      if decision.None? then run.(steps := seen, ended := true)
      else if !round.completes then run.(steps := seen, ended := true)
      else
        var done := match decision.value
                    case None => Slept
                    case Some(a) => if a.kind.Repair? then RepairCompleted(a.failureId, a.targetStateId) else Acted;
        run.(steps := seen + [done])
  }

  function After(maxChecks: nat, rounds: seq<Round>): Run {
    if rounds == [] then
      Run(maxChecks, [], false)
    else Perform(After(maxChecks, rounds[..|rounds| - 1]), rounds[|rounds| - 1])
  }

  // ---- Every run -----------------------------------------------------------------------------

  predicate Completed(steps: seq<Step>, a: Action) { RepairCompleted(a.failureId, a.targetStateId) in steps }

  /** No pair of failure and target state has two completed repairs. */
  ghost predicate RepairsDiffer(steps: seq<Step>) {
    forall i, j :: 0 <= i < j < |steps| && steps[i].RepairCompleted? && steps[j].RepairCompleted? ==>
        steps[i] != steps[j]
  }

  /** The guard says exactly whether the repair has been completed before. */
  ghost predicate GuardIsExact(steps: seq<Step>) {
    forall a: Action :: Repeated(steps, a) <==> Completed(steps, a)
  }

  /** Nothing is pending: a repair that was asked for has been completed. */
  ghost predicate AskedIsCompleted(steps: seq<Step>) {
    forall a: Action :: Asked(steps, a) <==> Completed(steps, a)
  }

  ghost predicate Sound(run: Run) {
    && RepairsDiffer(run.steps)
    && (!run.ended ==> GuardIsExact(run.steps) && AskedIsCompleted(run.steps))
    && Observations(run.steps) <= run.maxChecks && (!run.ended ==> Observations(run.steps) < run.maxChecks)
  }

  lemma AfterRound(steps: seq<Step>, o: Observation, done: Step, a: Action)
    requires !done.Observed?
    ensures var after := steps + [Observed(o)] + [done];
            && Repeated(after, a)
                == (if done.RepairCompleted? then SameRepair(o, a) || Asked(steps, a)
                    else !SameRepair(o, a) && Repeated(steps, a))
            && (Asked(after, a) <==> SameRepair(o, a) || Asked(steps, a))
            && (Completed(after, a) <==> Completed(steps, a) || done == RepairCompleted(a.failureId, a.targetStateId))
            && Observations(after) == Observations(steps) + 1
  {
    var seen := steps + [Observed(o)];
    var after := seen + [done];
    assert after[..|after| - 1] == seen && seen[..|seen| - 1] == steps;
    assert seen[|steps|] == Observed(o);
    assert Asked(seen, a) <==> SameRepair(o, a) || Asked(steps, a) by {
      if SameRepair(o, a) { assert seen[|steps|] in seen; }
      if Asked(steps, a) {
        var s :| s in steps && SameRepairObserved(s, a);
        assert s in seen;
      }
    }
    assert Asked(after, a) <==> Asked(seen, a) by {
      if Asked(seen, a) {
        var s :| s in seen && SameRepairObserved(s, a);
        assert s in after;
      }
    }
  }

  lemma LastObservation(steps: seq<Step>, o: Observation)
    ensures Observations(steps + [Observed(o)]) == Observations(steps) + 1
  {
    assert (steps + [Observed(o)])[..|steps|] == steps;
  }

  /** The step that a round which goes on adds to its observation: never a repair that was completed before. */
  lemma RoundAdds(run: Run, round: Round)
    requires Sound(run) && !Perform(run, round).ended
    ensures var steps := Perform(run, round).steps;
            && steps != [] && steps == run.steps + [Observed(round.observation)] + [steps[|steps| - 1]]
            && !steps[|steps| - 1].Observed?
            && (forall a :: SameRepair(round.observation, a) <==>
                steps[|steps| - 1] == RepairCompleted(a.failureId, a.targetStateId))
            && (steps[|steps| - 1].RepairCompleted? ==> steps[|steps| - 1] !in run.steps)
            && Observations(run.steps) + 1 < run.maxChecks
  {
    hide Repeated, Asked, RepairsDiffer, Observations;
    var o := round.observation;
    if Repairs(o) { assert Repeated(run.steps, o.action.value) <==> Completed(run.steps, o.action.value); }
  }

  lemma RoundIsSound(run: Run, round: Round)
    requires Sound(run)
    ensures Sound(Perform(run, round))
  {
    var o, after := round.observation, Perform(run, round);
    hide Repeated, Asked, Observations;
    LastObservation(run.steps, o);
    if !after.ended {
      RoundAdds(run, round);
      var done := after.steps[|after.steps| - 1];
      forall a: Action
        ensures (Repeated(after.steps, a) <==> Completed(after.steps, a))
            && (Asked(after.steps, a) <==> Completed(after.steps, a))
      {
        AfterRound(run.steps, o, done, a);
      }
      AfterRound(run.steps, o, done, Action(Repair, "", ""));
      hide Perform, Completed;
    }
  }

  /**
   * In every run each failure in each target state is repaired at most once, and no more than `maxChecks` observations
   * are made.
   */
  lemma {:induction false} EveryRunIsSound(maxChecks: nat, rounds: seq<Round>)
    requires maxChecks > 0
    ensures Sound(After(maxChecks, rounds)) && After(maxChecks, rounds).maxChecks == maxChecks
    ensures RepairsDiffer(After(maxChecks, rounds).steps) && Observations(After(maxChecks, rounds).steps) <= maxChecks
    ensures |rounds| >= maxChecks ==> After(maxChecks, rounds).ended
    decreases |rounds|
  {
    if rounds != [] {
      var before := After(maxChecks, rounds[..|rounds| - 1]);
      EveryRunIsSound(maxChecks, rounds[..|rounds| - 1]);
      RoundIsSound(before, rounds[|rounds| - 1]);
      OneObservationEach(maxChecks, rounds);
    }
  }

  lemma {:induction false} OneObservationEach(maxChecks: nat, rounds: seq<Round>)
    ensures !After(maxChecks, rounds).ended ==> Observations(After(maxChecks, rounds).steps) == |rounds|
    decreases |rounds|
  {
    if rounds != [] {
      var before, round := After(maxChecks, rounds[..|rounds| - 1]), rounds[|rounds| - 1];
      OneObservationEach(maxChecks, rounds[..|rounds| - 1]);
      if !After(maxChecks, rounds).ended {
        var steps := After(maxChecks, rounds).steps;
        AfterRound(before.steps, round.observation, steps[|steps| - 1], Action(Repair, "", ""));
      }
    }
  }

  /** While a run goes on, the guard stops a repair exactly when that repair has been completed before. */
  lemma GuardStopsExactlyRepeats(maxChecks: nat, rounds: seq<Round>, a: Action)
    requires maxChecks > 0 && !After(maxChecks, rounds).ended
    ensures Repeated(After(maxChecks, rounds).steps, a) <==> Completed(After(maxChecks, rounds).steps, a)
  {
    EveryRunIsSound(maxChecks, rounds);
  }
}
