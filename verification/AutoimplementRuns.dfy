/** Whole runs of the control machine, as the trace they record. */
module AutoimplementRuns {
  import opened AutoimplementModel
  import opened AutoimplementGates
  import opened AutoimplementTermination

  /** The phases that the steps before an accepted decision have passed since the last accepted change. */
  predicate Earned(route: Route, before: seq<Step>) {
    match route
    case Repair => Level(before) >= 0
    case Verification => Level(before) >= 0
    case Publication => Level(before) >= 1
    case Review => Level(before) >= 1
    case AddressP2Route => Level(before) >= 2
    case Comments => Level(before) >= 3
    case Ci => Level(before) >= 4
    case Delivery => Level(before) >= 5
    case Complete => Level(before) >= 1 && Delivered(before)
    case _ => true
  }

  /** Every accepted decision of a trace was earned by the steps before it. */
  ghost predicate EarnedThroughout(steps: seq<Step>) {
    forall k :: 0 <= k < |steps| && Accepted(steps[k]) ==> Earned(steps[k].output.route, steps[..k])
  }

  lemma OpenIsEarned(route: Route, run: Run)
    requires RouteOpen(route, PhaseOf(run))
    ensures Earned(route, run.steps)
  {
    hide Level, Delivered;
  }

  lemma EarnedStep(input: Input, choices: seq<Choice>, choice: Choice)
    requires After(input, choices).at.Some? && EarnedThroughout(After(input, choices).steps)
    ensures EarnedThroughout(Perform(After(input, choices), choice).steps)
  {
    hide Earned, RouteOpen, Visit, After;
    var run := After(input, choices);
    PhaseStep(run, choice);
    var s, steps := Visit(run, run.at.value, choice), Perform(run, choice).steps;
    if Accepted(s) {
      AcceptedRoutesAreOpen(input, choices, choice);
      OpenIsEarned(s.output.route, run);
    }
    forall k | 0 <= k < |steps| && Accepted(steps[k]) ensures Earned(steps[k].output.route, steps[..k]) {
      if k < |run.steps| { assert steps[..k] == run.steps[..k]; } else { assert steps[..k] == run.steps; }
    }
  }

  /** Run the machine on the answers of agents, actions, includes and the decider, one per visit, until it ends. */
  method RunControl(input: Input, choices: seq<Choice>) returns (steps: seq<Step>, ended: bool)
    ensures steps == After(input, choices).steps && (ended <==> After(input, choices).at.None?)
    ensures EarnedThroughout(steps)
    ensures |steps| <= 602 && (|choices| >= 602 ==> ended)
    ensures |steps| <= Limit(|AcceptedDecisions(steps)|)
    ensures |AcceptedDecisions(steps)| <= MAX_CONTROL_DECISIONS + 1
    ensures |AcceptedDecisions(steps)| == MAX_CONTROL_DECISIONS + 1 ==>
        AcceptedDecisions(steps)[MAX_CONTROL_DECISIONS] == BlockedRoute
    ensures !ended ==> |steps| == |choices|
  {
    hide EarnedThroughout, Perform, AcceptedDecisions;
    var run := Start(input);
    assert EarnedThroughout(run.steps) by { NothingEarned(); }
    for i := 0 to |choices|
      invariant run == After(input, choices[..i]) && EarnedThroughout(run.steps)
    {
      assert choices[..i + 1][..i] == choices[..i];
      if run.at.Some? {
        EarnedStep(input, choices[..i], choices[i]);
        run := Perform(run, choices[i]);
      }
    }
    assert choices[..|choices|] == choices;
    EveryRunEnds(input, choices);
    BoundedByDecisions(input, choices, |AcceptedDecisions(run.steps)|);
    DecisionsRunOut(input, choices);
    steps, ended := run.steps, run.at.None?;
  }

  lemma NothingEarned()
    ensures EarnedThroughout([])
  {
  }
}
