/** A route that keeps ending in the same result is not accepted a fourth time. */
module AutoimplementProgress {
  import opened AutoimplementModel
  import opened AutoimplementGates

  // ---- The history of a run ------------------------------------------------------------------

  lemma StepRecorded(run: Run, choice: Choice)
    requires run.at.Some?
    ensures Perform(run, choice).steps == run.steps + [Visit(run, run.at.value, choice)]
    ensures Visit(run, run.at.value, choice).node == run.at.value
  {
    hide ComputedOutput, Allowed, IsComputed, EntersWorkspace, PreparedWorkspace, NextOk, NextFailed;
  }

  /** Every recorded step is the visit of the run as it was before it. */
  lemma {:induction false} History(input: Input, choices: seq<Choice>, i: nat)
    requires i < |After(input, choices).steps|
    ensures i < |choices|
    ensures var before, s := After(input, choices[..i]), After(input, choices).steps[i];
            && before.at == Some(s.node) && before.steps == After(input, choices).steps[..i]
            && s == Visit(before, s.node, choices[i])
            && After(input, choices[..i + 1]) == Perform(before, choices[i])
    decreases |choices|
  {
    hide Perform, Visit;
    var last := |choices| - 1;
    var before := After(input, choices[..last]);
    StepsNoLonger(input, choices[..last]);
    if before.at.Some? { StepRecorded(before, choices[last]); }
    if i < |before.steps| {
      History(input, choices[..last], i);
      assert choices[..last][..i] == choices[..i] && choices[..last][..i + 1] == choices[..i + 1];
    } else {
      StillGoing(input, choices[..last]);
      assert choices[..last + 1] == choices;
    }
  }

  lemma {:induction false} StepsNoLonger(input: Input, choices: seq<Choice>)
    ensures |After(input, choices).steps| <= |choices|
    decreases |choices|
  {
    hide Perform, Visit;
    if choices != [] {
      var before := After(input, choices[..|choices| - 1]);
      StepsNoLonger(input, choices[..|choices| - 1]);
      if before.at.Some? { StepRecorded(before, choices[|choices| - 1]); }
    }
  }

  lemma {:induction false} StillGoing(input: Input, choices: seq<Choice>)
    requires After(input, choices).at.Some?
    ensures |After(input, choices).steps| == |choices|
    decreases |choices|
  {
    hide Perform, Visit;
    if choices != [] {
      var before := After(input, choices[..|choices| - 1]);
      if before.at.Some? {
        StillGoing(input, choices[..|choices| - 1]);
        StepRecorded(before, choices[|choices| - 1]);
      }
    }
  }

  lemma DecideFollowsObserve(s: Step)
    ensures (s.outcome.Ok? && NextOk(s.node, s.output) == Some(Decide)) <==> (s.outcome.Ok? && s.node.Observe?)
    ensures NextFailed(s.node) != Some(Decide) && NextFailed(Observe).None?
  {
  }

  /** A decision is made on an observation, and every observation but the newest step has been decided on. */
  lemma ObservedBeforeDecided(input: Input, choices: seq<Choice>, i: nat)
    requires i < |After(input, choices).steps|
    ensures var steps := After(input, choices).steps;
            && (steps[i].node.Decide? ==> i > 0 && steps[i - 1].node.Observe? && steps[i - 1].outcome.Ok?)
            && (steps[i].node.Observe? && i + 1 < |steps| ==> steps[i].outcome.Ok? && steps[i + 1].node.Decide?)
  {
    var steps := After(input, choices).steps;
    hide Visit;
    History(input, choices, i);
    if i > 0 { History(input, choices, i - 1); DecideFollowsObserve(steps[i - 1]); }
    if i + 1 < |steps| { History(input, choices, i + 1); DecideFollowsObserve(steps[i]); }
  }

  // ---- The routes taken ----------------------------------------------------------------------

  /** The last route before position `j`, when the newest decision is at `i`. */
  lemma {:induction false} LastRouteIs(steps: seq<Step>, i: nat, j: nat)
    requires i < j <= |steps| && Accepted(steps[i]) && forall k :: i < k < j ==> !steps[k].node.Decide?
    ensures LastRoute(steps[..j]) == Some(steps[i].output.route)
    decreases j
  {
    assert steps[..j][..j - 1] == steps[..j - 1];
    if j > i + 1 { LastRouteIs(steps, i, j - 1); }
  }

  /** Steps that are not observations do not count as repeats. */
  lemma {:induction false} RepeatsSkip(steps: seq<Step>, route: Option<Route>, fingerprint: Fingerprint, i: nat, j: nat)
    requires i <= j <= |steps| && forall k :: i <= k < j ==> !steps[k].node.Observe?
    ensures Repeats(steps[..j], route, fingerprint) == Repeats(steps[..i], route, fingerprint)
    decreases j
  {
    if i < j {
      assert steps[..j][..j - 1] == steps[..j - 1];
      RepeatsSkip(steps, route, fingerprint, i, j - 1);
    }
  }

  /** The result on record before position `i`. */
  function ResultBefore(steps: seq<Step>, i: nat): Fingerprint
    requires i <= |steps|
  {
    FingerprintOf(LatestAttempt(steps[..i]))
  }

  /** The decision at `next` is the one after the decision at `d`. */
  ghost predicate Consecutive(steps: seq<Step>, d: nat, next: nat) {
    && d < next < |steps| && Accepted(steps[d]) && steps[next].node.Decide?
    && forall k :: d < k < next ==> !steps[k].node.Decide?
  }

  lemma ObservationRecords(run: Run, choice: Choice)
    requires Visit(run, Observe, choice).outcome.Ok?
    ensures Offered(run).Some?
    ensures Visit(run, Observe, choice).output
        == Observation(LastRoute(run.steps), FingerprintOf(LatestAttempt(run.steps)), Offered(run).value)
  {
    hide Offered, LastRoute, FingerprintOf;
  }

  lemma DecisionOffered(run: Run, choice: Choice)
    requires Accepted(Visit(run, Decide, choice))
    ensures Observe in run.outputs && run.outputs[Observe].Observation?
        && Visit(run, Decide, choice).output.route in run.outputs[Observe].available
  {
  }

  /** The observation between two consecutive decisions records the first one's route and the result it ended in. */
  lemma ObservesBetween(input: Input, choices: seq<Choice>, d: nat, next: nat)
    requires Consecutive(After(input, choices).steps, d, next)
    ensures var steps := After(input, choices).steps;
            && d + 1 < next && steps[next - 1].node.Observe? && steps[next - 1].outcome.Ok?
            && SameObservation(steps[next - 1], Some(steps[d].output.route), ResultBefore(steps, next))
            && (forall k :: d < k < next - 1 ==> !steps[k].node.Observe?)
  {
    hide After, Perform, Visit, LastRoute;
    var steps := After(input, choices).steps;
    ObservedBeforeDecided(input, choices, next);
    History(input, choices, next - 1);
    LastRouteIs(steps, d, next - 1);
    ObservationRecords(After(input, choices[..next - 1]), choices[next - 1]);
    assert steps[..next][..next - 1] == steps[..next - 1];
    forall k | d < k < next - 1 ensures !steps[k].node.Observe? {
      ObservedBeforeDecided(input, choices, k);
    }
  }

  /** What was accepted had been offered by the observation before. */
  lemma AcceptedWasOffered(input: Input, choices: seq<Choice>, d: nat)
    requires d < |After(input, choices).steps| && Accepted(After(input, choices).steps[d])
    ensures 0 < d < |choices|
    ensures var steps, before := After(input, choices).steps, After(input, choices[..d - 1]);
            && before.at == Some(Observe) && before.steps == steps[..d - 1]
            && Offered(before).Some? && steps[d].output.route in Offered(before).value
  {
    hide Offered, After, Visit, LastRoute, NextOk, NextFailed;
    ObservedBeforeDecided(input, choices, d);
    History(input, choices, d);
    History(input, choices, d - 1);
    ObservationRecords(After(input, choices[..d - 1]), choices[d - 1]);
    DecisionOffered(After(input, choices[..d]), choices[d]);
  }

  /** Consecutive decisions on one route, each ending in the same result. */
  ghost predicate ThreeAlike(steps: seq<Step>, first: nat, second: nat, third: nat, fourth: nat) {
    && Consecutive(steps, first, second) && Consecutive(steps, second, third) && Consecutive(steps, third, fourth)
    && steps[first].output.route == steps[second].output.route == steps[third].output.route
    && ResultBefore(steps, second) == ResultBefore(steps, third) == ResultBefore(steps, fourth)
  }

  /** After three attempts in a row that ended in the same result, the route is not accepted again. */
  lemma NoFourthAttempt(input: Input, choices: seq<Choice>, first: nat, second: nat, third: nat, fourth: nat)
    requires ThreeAlike(After(input, choices).steps, first, second, third, fourth)
    requires After(input, choices).steps[third].output.route !in {Complete, BlockedRoute}
    ensures var steps := After(input, choices).steps;
            Accepted(steps[fourth]) ==> steps[fourth].output.route != steps[third].output.route
  {
    hide After, LastRoute, NoProgressAttempts, ResultRoutes, LatestAttempt, ResultBefore;
    var steps := After(input, choices).steps;
    if Accepted(steps[fourth]) {
      ThreeRepeats(input, choices, first, second, third, fourth);
      ObservesBetween(input, choices, third, fourth);
      AcceptedWasOffered(input, choices, fourth);
      LastRouteIs(steps, third, fourth - 1);
      DroppedIsNotOffered(After(input, choices[..fourth - 1]));
    }
  }

  lemma DroppedIsNotOffered(run: Run)
    requires MustDrop(run.steps) && Offered(run).Some?
    ensures LastRoute(run.steps).value !in Offered(run).value
  {
    hide ResultRoutes, NoProgressAttempts, LastRoute;
  }

  lemma ThreeRepeats(input: Input, choices: seq<Choice>, first: nat, second: nat, third: nat, fourth: nat)
    requires ThreeAlike(After(input, choices).steps, first, second, third, fourth)
    ensures fourth > 0 && NoProgressAttempts(After(input, choices).steps[..fourth - 1]) >= 3
  {
    hide After, LastRoute, LatestAttempt, ResultBefore, FingerprintOf, Repeats;
    var steps := After(input, choices).steps;
    var route, result := Some(steps[third].output.route), ResultBefore(steps, fourth);
    ObservesBetween(input, choices, first, second);
    ObservesBetween(input, choices, second, third);
    ObservesBetween(input, choices, third, fourth);
    LastRouteIs(steps, third, fourth - 1);
    CountsObservation(steps, route, result, third, third - 1, fourth - 1);
    CountsObservation(steps, route, result, second, second - 1, third - 1);
    LatestIsBranchResult(input, choices, fourth - 1);
    ResultIgnoresObservation(steps, fourth);
  }

  /** The newest observation before `j`, at `o`, adds one to the repeats. */
  lemma CountsObservation(steps: seq<Step>, route: Option<Route>, result: Fingerprint, d: nat, o: nat, j: nat)
    requires d == o + 1 <= j <= |steps| && steps[o].node.Observe? && steps[o].outcome.Ok?
        && SameObservation(steps[o], route, result)
    requires forall k :: d <= k < j ==> !steps[k].node.Observe?
    ensures Repeats(steps[..j], route, result) == 1 + Repeats(steps[..o], route, result)
  {
    RepeatsSkip(steps, route, result, d, j);
    assert steps[..d][..o] == steps[..o];
  }

  lemma ResultIgnoresObservation(steps: seq<Step>, i: nat)
    requires 0 < i <= |steps| && steps[i - 1].node.Observe?
    ensures ResultBefore(steps, i) == FingerprintOf(LatestAttempt(steps[..i - 1]))
  {
    assert steps[..i][..i - 1] == steps[..i - 1];
  }

  /** What an observation reads is the end of a branch, never a decision. */
  lemma LatestIsBranchResult(input: Input, choices: seq<Choice>, i: nat)
    requires i < |After(input, choices).steps| && After(input, choices).steps[i].node.Observe?
    ensures var latest := LatestAttempt(After(input, choices).steps[..i]);
            latest.Some? && !latest.value.node.Decide?
  {
    hide ResultRoutes, AllOpen;
    History(input, choices, i);
    var before := After(input, choices[..i]);
    EveryRunIsGated(input, choices[..i]);
    ReturnsAreAttempts(Newest(before.steps));
    NewestIsLatest(before.steps);
  }
}
