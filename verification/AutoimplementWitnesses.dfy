/** Runs of the control machine, visit by visit; here one that reuses a review with serious findings. */
module AutoimplementWitnesses {
  import opened AutoimplementModel
  import opened AutoimplementGates

  // ---- What the loop reads off a trace -------------------------------------------------------

  /** The newest observation. */
  function Seen(steps: seq<Step>): Option<Output> {
    if steps == [] then None
    else
      var s := steps[|steps| - 1];
      if s.node.Observe? && s.outcome.Ok? then Some(s.output) else Seen(steps[..|steps| - 1])
  }

  datatype Tally = Tally(accepted: nat, failures: nat, last: Option<Route>, seen: Option<Output>, level: int,
    published: Option<seq<Repository>>, reviews: seq<Assessment>, implemented: bool)

  function TallyOf(steps: seq<Step>): (t: Tally)
    ensures -1 <= t.level <= 5
  {
    Tally(|AcceptedDecisions(steps)|, FailedDecisions(steps), LastRoute(steps), Seen(steps), Level(steps),
          PublishedBy(steps), ReviewEntries(steps), Implemented(steps))
  }

  function Tallied(t: Tally, s: Step): Tally
    requires -1 <= t.level <= 5
  {
    Tally(
      if Accepted(s) then t.accepted + 1 else t.accepted,
      if !s.node.Decide? then t.failures else if s.outcome.Ok? then 0 else 1 + t.failures,
      if Accepted(s) then Some(s.output.route) else t.last,
      if s.node.Observe? && s.outcome.Ok? then Some(s.output) else t.seen,
      NextLevel(t.level, s),
      if !s.node.Publish? then t.published
      else if s.outcome.Ok? && s.output.Pushed? then Some(s.output.repositories) else None,
      t.reviews + if s.node.AssessReview? && s.outcome.Ok? && s.output.Reviewed? then s.output.entries else [],
      if s.node.Implement? then s.outcome.Ok? else t.implemented)
  }

  lemma TallyStep(steps: seq<Step>, s: Step)
    ensures TallyOf(steps + [s]) == Tallied(TallyOf(steps), s)
  {
    assert (steps + [s])[..|steps|] == steps;
    LatestOfStep(steps, s, {Publish});
    LatestOfStep(steps, s, {Implement});
    hide NextLevel;
  }

  /** The newest observation saw the same route end in the same result. */
  predicate Repeating(steps: seq<Step>) {
    && Seen(steps).Some? && Seen(steps).value.Observation?
    && Seen(steps).value.lastRoute == LastRoute(steps)
        && Seen(steps).value.fingerprint == FingerprintOf(LatestAttempt(steps))
  }

  lemma {:induction false} NotSeenNotRepeated(steps: seq<Step>, route: Option<Route>, fingerprint: Fingerprint)
    requires Seen(steps).Some? && Seen(steps).value.Observation? ==>
               Seen(steps).value.lastRoute != route || Seen(steps).value.fingerprint != fingerprint
    ensures Repeats(steps, route, fingerprint) == 0
    decreases |steps|
  {
    if steps != [] && !(steps[|steps| - 1].node.Observe? && steps[|steps| - 1].outcome.Ok?) {
      NotSeenNotRepeated(steps[..|steps| - 1], route, fingerprint);
    }
  }

  // ---- One visit -----------------------------------------------------------------------------

  /** The run goes on past a visit. */
  ghost predicate Goes(run: Run, s: Step, next: Node, after: Run) {
    && after.input == run.input && after.steps == run.steps + [s] && Newest(after.steps) == s && after.at == Some(next)
    && TallyOf(after.steps) == Tallied(TallyOf(run.steps), s)
    && Executed(after.steps) == Executed(run.steps) + if Included(s.node) then 0 else 1
  }

  /** The nodes that no count looks at. */
  predicate Silent(node: Node) {
    && !node.Decide? && !node.Observe? && !node.Implement? && !node.Publish? && !node.AssessReview?
        && !node.LocalVerification?
    && !node.SelectReviewCommands? && !node.VerifyP2? && !node.InspectComments? && !node.InspectCi?
    && !node.AssessTrackedCi?
  }

  lemma Quiet(t: Tally, s: Step)
    requires -1 <= t.level <= 5 && Silent(s.node)
    ensures Tallied(t, s) == t
  {
  }

  /** An implementation counts as the newest one. */
  lemma ImplementTally(t: Tally, s: Step)
    requires -1 <= t.level <= 5 && s.node.Implement?
    ensures Tallied(t, s) == t.(implemented := s.outcome.Ok?)
  {
  }

  /** Nor does a selection pass a phase before the publication, or with something to review. */
  lemma QuietSelection(t: Tally)
    requires -1 <= t.level <= 5
    ensures Tallied(t, Done(SelectReviewCommands, Selection([REPOSITORY]))) == t
  {
  }

  /** A step that passes the phase that is next. */
  lemma Advances(t: Tally, s: Step)
    requires 0 <= t.level < 5 && s.node !in {Decide, Observe, Implement, Publish, AssessReview}
        && Passes(s, t.level + 1)
    ensures Tallied(t, s) == t.(level := t.level + 1)
  {
  }

  lemma ExecutedStep(steps: seq<Step>, s: Step)
    ensures Executed(steps + [s]) == Executed(steps) + if Included(s.node) then 0 else 1
  {
    assert (steps + [s])[..|steps|] == steps;
  }

  lemma AfterOne(input: Input, choices: seq<Choice>, choice: Choice)
    requires After(input, choices).at.Some?
    ensures After(input, choices + [choice]) == Perform(After(input, choices), choice)
  {
    hide Perform;
    assert (choices + [choice])[..|choices|] == choices;
  }

  /** What performing a visit records. */
  lemma Records(run: Run, choice: Choice, s: Step)
    requires run.at == Some(s.node) && Visit(run, s.node, choice) == s
    ensures var after := Perform(run, choice);
            && after.input == run.input && after.steps == run.steps + [s]
            && after.at == (if s.outcome.Ok? then NextOk(s.node, s.output) else NextFailed(s.node))
            && after.outputs == if s.outcome.Ok? then run.outputs[s.node := s.output] else run.outputs - {s.node}
  {
    hide Visit, NextOk, NextFailed;
  }

  lemma Visited(input: Input, choices: seq<Choice>, choice: Choice, s: Step, next: Node)
    requires After(input, choices).at == Some(s.node) && Visit(After(input, choices), s.node, choice) == s
    requires (if s.outcome.Ok? then NextOk(s.node, s.output) else NextFailed(s.node)) == Some(next)
    ensures Goes(After(input, choices), s, next, After(input, choices + [choice]))
    ensures After(input, choices + [choice]).outputs
            == if s.outcome.Ok? then After(input, choices).outputs[s.node := s.output]
              else After(input, choices).outputs - {s.node}
  {
    hide After, Visit, NextOk, NextFailed, TallyOf, Executed, Included, Tallied;
    var run := After(input, choices);
    AfterOne(input, choices, choice);
    Records(run, choice, s);
    TallyStep(run.steps, s);
    ExecutedStep(run.steps, s);
  }

  /** What the outside returns; computed nodes ignore it. */
  function Returned(output: Output): Choice { Choice(Ok, output, "", 0) }

  const NOTHING := Choice(Failed, NoOutput, "", 0)

  function Done(node: Node, output: Output): Step { Step(node, Ok, output, "", 0) }

  function Undone(node: Node): Step { Step(node, Failed, NoOutput, "", 0) }

  // ---- A round of the loop -------------------------------------------------------------------

  /** The next observation offers `routes`, and nothing has repeated. */
  ghost predicate Ready(run: Run, routes: seq<Route>) {
    && run.at == Some(Observe) && run.steps != [] && IsControlAttempt(Newest(run.steps).node)
    && (if |AcceptedDecisions(run.steps)| >= MAX_CONTROL_DECISIONS then routes == [BlockedRoute]
        else ResultRoutes(run, Newest(run.steps).node, Newest(run.steps).output) == Some(routes))
    && !Repeating(run.steps)
  }

  /** What a ready run observes. */
  function Sight(run: Run, routes: seq<Route>): Output
    requires run.steps != []
  {
    Observation(LastRoute(run.steps), FingerprintOf(Some(Newest(run.steps))), routes)
  }

  lemma ReadyOffers(run: Run, routes: seq<Route>)
    requires Ready(run, routes)
    ensures Offered(run) == Some(routes) && LatestAttempt(run.steps) == Some(Newest(run.steps))
  {
    hide ResultRoutes, AcceptedDecisions;
    NewestIsLatest(run.steps);
    NotSeenNotRepeated(run.steps, LastRoute(run.steps), FingerprintOf(LatestAttempt(run.steps)));
    hide LatestAttempt, Repeats;
  }

  lemma Observes(input: Input, choices: seq<Choice>, routes: seq<Route>)
    requires Ready(After(input, choices), routes)
    ensures var run := After(input, choices);
            && Goes(run, Done(Observe, Sight(run, routes)), Decide, After(input, choices + [Returned(NoOutput)]))
            && After(input, choices + [Returned(NoOutput)]).outputs == run.outputs[Observe := Sight(run, routes)]
  {
    hide After, Ready, LastRoute, Offered, LatestAttempt, TallyOf;
    var run := After(input, choices);
    ReadyIs(run, routes);
    ReadyOffers(run, routes);
    Visited(input, choices, Returned(NoOutput), Done(Observe, Sight(run, routes)), Decide);
  }

  lemma ReadyIs(run: Run, routes: seq<Route>)
    requires Ready(run, routes)
    ensures run.at == Some(Observe) && run.steps != []
  {
  }

  /** The run has made some more visits; the engine counts those that are not of an include. */
  ghost predicate Longer(run: Run, after: Run, visits: nat, executed: nat) {
    |after.steps| == |run.steps| + visits && Executed(after.steps) == Executed(run.steps) + executed
  }

  /** The three choices that take a route on offer. */
  function Taking(route: Route): seq<Choice> { [Returned(NoOutput), Returned(Decision(route)), Returned(NoOutput)] }

  /** What they make of the tally. */
  function Taken(t: Tally, seen: Output, route: Route): Tally {
    Tally(t.accepted + 1, 0, Some(route), Some(seen),
          if route.Implementation? || route.Repair? then 0 else t.level, t.published, t.reviews, t.implemented)
  }

  ghost predicate Entered(run: Run, routes: seq<Route>, route: Route, after: Run)
    requires run.steps != []
  {
    && after.input == run.input && after.at == Some(RouteTarget(route))
    && Longer(run, after, 3, 3)
    && TallyOf(after.steps) == Taken(TallyOf(run.steps), Sight(run, routes), route)
  }

  lemma TakenTally(t: Tally, seen: Output, route: Route)
    requires -1 <= t.level <= 5
    ensures var observed := Tallied(t, Done(Observe, seen));
            && -1 <= observed.level <= 5
            && var decided := Tallied(observed, Done(Decide, Decision(route)));
               && -1 <= decided.level <= 5
               && Tallied(decided, Done(Dispatch, Decision(route))) == Taken(t, seen, route)
  {
  }

  lemma Takes(input: Input, choices: seq<Choice>, routes: seq<Route>, route: Route)
    requires Ready(After(input, choices), routes) && route in routes
    ensures Entered(After(input, choices), routes, route, After(input, choices + Taking(route)))
  {
    var run := After(input, choices);
    hide After, Ready, Sight, TallyOf, RouteTarget, Visit, Tallied, Taken;
    ReadyIs(run, routes);
    var first, second := choices + [Returned(NoOutput)], choices + [Returned(NoOutput)] + [Returned(Decision(route))];
    Observes(input, choices, routes);
    SightIs(run, routes);
    Chooses(input, first, route);
    DispatchesTo(input, second, route);
    TakenTally(TallyOf(run.steps), Sight(run, routes), route);
    assert choices + Taking(route) == second + [Returned(NoOutput)];
  }

  lemma Chooses(input: Input, choices: seq<Choice>, route: Route)
    requires var run := After(input, choices);
             run.at == Some(Decide) && Observe in run.outputs && run.outputs[Observe].Observation?
               && route in run.outputs[Observe].available
    ensures var run, after := After(input, choices), After(input, choices + [Returned(Decision(route))]);
            Goes(run, Done(Decide, Decision(route)), Dispatch, after)
              && after.outputs == run.outputs[Decide := Decision(route)]
  {
    hide After, TallyOf, Tallied;
    Visited(input, choices, Returned(Decision(route)), Done(Decide, Decision(route)), Dispatch);
  }

  lemma DispatchesTo(input: Input, choices: seq<Choice>, route: Route)
    requires var run := After(input, choices);
             run.at == Some(Dispatch) && Decide in run.outputs && run.outputs[Decide] == Decision(route)
    ensures var run, after := After(input, choices), After(input, choices + [Returned(NoOutput)]);
            Goes(run, Done(Dispatch, Decision(route)), RouteTarget(route), after)
              && after.outputs == run.outputs[Dispatch := Decision(route)]
  {
    hide After, TallyOf, Tallied, RouteTarget;
    Visited(input, choices, Returned(NoOutput), Done(Dispatch, Decision(route)), RouteTarget(route));
  }

  lemma SightIs(run: Run, routes: seq<Route>)
    requires run.steps != []
    ensures Sight(run, routes) == Observation(LastRoute(run.steps), FingerprintOf(Some(Newest(run.steps))), routes)
  {
  }

  lemma AgentVisit(run: Run, node: Node, output: Output)
    requires !IsComputed(node) && CanEnter(run, node) && Allowed(run, node, output)
    ensures Visit(run, node, Returned(output)) == Done(node, output)
  {
    hide IsComputed, Allowed;
  }

  lemma ComputeVisit(run: Run, node: Node, output: Output)
    requires IsComputed(node) && ComputedOutput(run, node) == Some(output)
    ensures Visit(run, node, Returned(NoOutput)) == Done(node, output)
  {
    hide IsComputed, ComputedOutput;
  }

  /** An agent, action or include returns `output`, and the run goes on to `next`. */
  lemma Agent(input: Input, choices: seq<Choice>, node: Node, output: Output, next: Node)
    requires After(input, choices).at == Some(node) && NextOk(node, output) == Some(next)
    requires !IsComputed(node) && CanEnter(After(input, choices), node)
    requires Allowed(After(input, choices), node, output)
    ensures Goes(After(input, choices), Done(node, output), next, After(input, choices + [Returned(output)]))
    ensures StoredOutput(After(input, choices + [Returned(output)]), node) == Some(output)
  {
    hide After, Visit, NextOk, IsComputed, Allowed, TallyOf;
    AgentVisit(After(input, choices), node, output);
    Visited(input, choices, Returned(output), Done(node, output), next);
  }

  /** A node computes `output`, and the run goes on to `next`. */
  lemma Compute(input: Input, choices: seq<Choice>, node: Node, output: Output, next: Node)
    requires After(input, choices).at == Some(node) && NextOk(node, output) == Some(next)
    requires IsComputed(node) && ComputedOutput(After(input, choices), node) == Some(output)
    ensures Goes(After(input, choices), Done(node, output), next, After(input, choices + [Returned(NoOutput)]))
  {
    hide After, Visit, NextOk, IsComputed, ComputedOutput, TallyOf;
    ComputeVisit(After(input, choices), node, output);
    Visited(input, choices, Returned(NoOutput), Done(node, output), next);
  }

  // ---- A review with serious findings is reused ----------------------------------------------

  /** The plan, its documentation and a workspace beside the default branch are at hand. */
  const PREPARED := Input(true, true, Some(false))

  const REPOSITORY := Repository("id", "head", None)

  const SERIOUS := Reviewed(Critical, [Assessment(REPOSITORY, true, Serious)])

  /** A branch ended, with `s` its last step; `previous` is the route of the decision before. */
  ghost predicate Ended(run: Run, s: Step, route: Route, previous: Option<Route>, t: Tally) {
    && run.input == PREPARED && run.at == Some(Observe) && run.steps != [] && Newest(run.steps) == s
    && TallyOf(run.steps) == t && t.last == Some(route)
    && t.seen.Some? && t.seen.value.Observation? && t.seen.value.lastRoute == previous
  }

  lemma EndedReady(run: Run, s: Step, route: Route, previous: Option<Route>, t: Tally, routes: seq<Route>)
    requires Ended(run, s, route, previous, t) && previous != Some(route) && t.accepted < MAX_CONTROL_DECISIONS
    requires IsControlAttempt(s.node) && ResultRoutes(run, s.node, s.output) == Some(routes)
    ensures Ready(run, routes)
  {
    hide ResultRoutes, IsControlAttempt;
  }

  lemma Workspaces(run: Run)
    requires run.input == PREPARED
    ensures PreparedWorkspace(run) == Some(false) && DocumentationIsCurrent(run) && HasPlan(run)
  {
  }

  lemma StartReady()
    ensures Ready(After(PREPARED, [Returned(NoOutput)]), AT_FIRST)
    ensures var run := After(PREPARED, [Returned(NoOutput)]);
            run.input == PREPARED && TallyOf(run.steps) == Tally(0, 0, None, None, -1, None, [], false)
  {
    var start := After(PREPARED, []);
    var run := After(PREPARED, [Returned(NoOutput)]);
    assert start == Start(PREPARED) && TallyOf(start.steps) == Tally(0, 0, None, None, -1, None, [], false);
    Compute(PREPARED, [], Prepare, Plain, Observe);
    assert [] + [Returned(NoOutput)] == [Returned(NoOutput)];
    Workspaces(run);
  }

  lemma SightLast(run: Run, routes: seq<Route>)
    requires run.steps != []
    ensures Sight(run, routes).Observation? && Sight(run, routes).lastRoute == TallyOf(run.steps).last
  {
  }

  /** A branch's result wraps the step it ended with. */
  lemma ResultWraps(run: Run, node: Node)
    requires ReadsBranch(node) && run.steps != [] && Newest(run.steps).node in Sources(node)
    ensures ComputedOutput(run, node) == Some(Wrapped(Newest(run.steps).node, Newest(run.steps).output))
        || node.RouteInspectCiResult?
  {
    NewestOf(run.steps, Sources(node));
    hide LatestOf, Offered, LatestAttempt, AcceptedDecisions, FailedDecisions, PublishedBy;
  }

  lemma ResultsAreSilent(node: Node)
    requires ReadsBranch(node)
    ensures Silent(node) && IsComputed(node) && !Included(node)
  {
  }

  lemma WrapResult(choices: seq<Choice>, node: Node, s: Step)
    requires var run := After(PREPARED, choices);
             run.at == Some(node) && run.steps != [] && Newest(run.steps) == s && s.node in Sources(node)
               && run.input == PREPARED
    requires ReadsBranch(node) && !node.RouteInspectCiResult?
        && NextOk(node, Wrapped(s.node, s.output)) == Some(Observe)
    ensures var run, after := After(PREPARED, choices), After(PREPARED, choices + [Returned(NoOutput)]);
            && after.input == PREPARED && after.at == Some(Observe) && after.steps != []
            && Newest(after.steps) == Done(node, Wrapped(s.node, s.output))
                && TallyOf(after.steps) == TallyOf(run.steps) && Longer(run, after, 1, 1)
  {
    hide After, TallyOf, Tallied, ComputedOutput, NextOk, Sources, Executed, Silent, IsComputed, Included, ReadsBranch;
    ResultsAreSilent(node);
    ResultWraps(After(PREPARED, choices), node);
    Compute(PREPARED, choices, node, Wrapped(s.node, s.output), Observe);
    Quiet(TallyOf(After(PREPARED, choices).steps), Done(node, Wrapped(s.node, s.output)));
  }

  /** The run takes a route on offer; `seen` is what it observed. */
  lemma Enters(choices: seq<Choice>, routes: seq<Route>, route: Route)
      returns (entered: seq<Choice>, seen: Output, t: Tally)
    requires After(PREPARED, choices).input == PREPARED && Ready(After(PREPARED, choices), routes) && route in routes
    ensures var run, before := After(PREPARED, entered), TallyOf(After(PREPARED, choices).steps);
            && run.input == PREPARED && run.at == Some(RouteTarget(route)) && TallyOf(run.steps) == t
            && seen.Observation? && seen.lastRoute == before.last
            && t == Tally(before.accepted + 1, 0, Some(route), Some(seen),
                          if route.Implementation? || route.Repair? then 0 else before.level,
                          before.published, before.reviews, before.implemented)
  {
    hide After, Ready, TallyOf, Sight;
    var run := After(PREPARED, choices);
    ReadyIs(run, routes);
    SightLast(run, routes);
    Takes(PREPARED, choices, routes, route);
    entered, seen := choices + Taking(route), Sight(run, routes);
    t := TallyOf(After(PREPARED, entered).steps);
  }

  /** The branch is back at the loop; `s` is its last step. */
  ghost predicate Back(run: Run, after: Run, s: Step, t: Tally, visits: nat, executed: nat) {
    && after.input == run.input && after.at == Some(Observe) && after.steps != [] && Newest(after.steps) == s
    && TallyOf(after.steps) == t && Longer(run, after, visits, executed)
  }

  lemma ImplementsIt(input: Input, choices: seq<Choice>, t: Tally) returns (next: seq<Choice>)
    requires After(input, choices).at == Some(Implement) && TallyOf(After(input, choices).steps) == t
    ensures Back(After(input, choices), After(input, next), Done(ClassifyImplementation, Assessed(Verify)),
                 t.(implemented := true), 2, 2)
  {
    hide After, TallyOf, Tallied, Executed;
    Agent(input, choices, Implement, Plain, ClassifyImplementation);
    ImplementTally(t, Done(Implement, Plain));
    Agent(input, choices + [Returned(Plain)], ClassifyImplementation, Assessed(Verify), Observe);
    Quiet(t.(implemented := true), Done(ClassifyImplementation, Assessed(Verify)));
    next := choices + [Returned(Plain)] + [Returned(Assessed(Verify))];
  }

  /** An implementation that is to be verified. */
  lemma Implements(choices: seq<Choice>, routes: seq<Route>) returns (next: seq<Choice>, seen: Output)
    requires After(PREPARED, choices).input == PREPARED && Ready(After(PREPARED, choices), routes)
        && Implementation in routes
    ensures var run, t := After(PREPARED, next), TallyOf(After(PREPARED, choices).steps);
            Ended(run, Done(ClassifyImplementation, Assessed(Verify)), Implementation, t.last,
                  Tally(t.accepted + 1, 0, Some(Implementation), Some(seen), 0, t.published, t.reviews, true))
  {
    hide After, Ready, TallyOf, Tallied, Sight;
    var entered, t;
    entered, seen, t := Enters(choices, routes, Implementation);
    next := ImplementsIt(PREPARED, entered, t);
  }

  lemma RepairsIt(choices: seq<Choice>, t: Tally) returns (next: seq<Choice>)
    requires After(PREPARED, choices).at == Some(Fix) && TallyOf(After(PREPARED, choices).steps) == t
    ensures Back(After(PREPARED, choices), After(PREPARED, next), Done(RepairResult, Wrapped(Fix, Plain)), t, 2, 2)
  {
    hide After, TallyOf, Tallied, Executed;
    Agent(PREPARED, choices, Fix, Plain, RepairResult);
    Quiet(t, Done(Fix, Plain));
    var fixed := choices + [Returned(Plain)];
    FixWraps(After(PREPARED, fixed));
    Compute(PREPARED, fixed, RepairResult, Wrapped(Fix, Plain), Observe);
    Quiet(t, Done(RepairResult, Wrapped(Fix, Plain)));
    next := fixed + [Returned(NoOutput)];
  }

  lemma FixWraps(run: Run)
    requires run.steps != [] && Newest(run.steps) == Done(Fix, Plain)
    ensures ComputedOutput(run, RepairResult) == Some(Wrapped(Fix, Plain))
  {
    NewestOf(run.steps, {Fix});
    hide LatestOf, Offered;
  }

  lemma Repairs(choices: seq<Choice>, routes: seq<Route>) returns (next: seq<Choice>, seen: Output)
    requires After(PREPARED, choices).input == PREPARED && Ready(After(PREPARED, choices), routes) && Repair in routes
    ensures var run, t := After(PREPARED, next), TallyOf(After(PREPARED, choices).steps);
            Ended(run, Done(RepairResult, Wrapped(Fix, Plain)), Repair, t.last,
                  Tally(t.accepted + 1, 0, Some(Repair), Some(seen), 0, t.published, t.reviews, t.implemented))
  {
    hide After, Ready, TallyOf, Tallied, Sight;
    var entered, t;
    entered, seen, t := Enters(choices, routes, Repair);
    next := RepairsIt(entered, t);
  }

  lemma ImplementedIs(run: Run)
    ensures TallyOf(run.steps).implemented == Implemented(run.steps)
  {
  }

  lemma VerifiesIt(input: Input, choices: seq<Choice>, t: Tally) returns (next: seq<Choice>)
    requires var run := After(input, choices);
             run.input.prepared.Some? && run.at == Some(LocalVerification) && TallyOf(run.steps) == t && t.level == 0
    requires t.implemented
    ensures Back(After(input, choices), After(input, next), Done(LocalVerificationReady, Plain), t.(level := 1), 2, 1)
  {
    hide After, TallyOf, Tallied, Executed;
    var passed := Exit(true, false, false);
    ImplementedIs(After(input, choices));
    Agent(input, choices, LocalVerification, passed, LocalVerificationReady);
    Advances(t, Done(LocalVerification, passed));
    Agent(input, choices + [Returned(passed)], LocalVerificationReady, Plain, Observe);
    Quiet(t.(level := 1), Done(LocalVerificationReady, Plain));
    next := choices + [Returned(passed)] + [Returned(Plain)];
  }

  lemma Verifies(choices: seq<Choice>, routes: seq<Route>) returns (next: seq<Choice>, seen: Output)
    requires After(PREPARED, choices).input == PREPARED && Ready(After(PREPARED, choices), routes)
        && Verification in routes
    requires TallyOf(After(PREPARED, choices).steps).level == 0
    requires TallyOf(After(PREPARED, choices).steps).implemented
    ensures var run, t := After(PREPARED, next), TallyOf(After(PREPARED, choices).steps);
            Ended(run, Done(LocalVerificationReady, Plain), Verification, t.last,
                  Tally(t.accepted + 1, 0, Some(Verification), Some(seen), 1, t.published, t.reviews, t.implemented))
  {
    hide After, Ready, TallyOf, Tallied, Sight;
    var entered, t;
    entered, seen, t := Enters(choices, routes, Verification);
    next := VerifiesIt(PREPARED, entered, t);
  }

  lemma PushedTally(t: Tally)
    requires t.level == 1
    ensures Tallied(t, Done(Publish, Pushed([REPOSITORY]))) == t.(published := Some([REPOSITORY]), level := 2)
  {
  }

  lemma Publishes(choices: seq<Choice>, routes: seq<Route>) returns (next: seq<Choice>, seen: Output)
    requires After(PREPARED, choices).input == PREPARED && Ready(After(PREPARED, choices), routes)
        && Publication in routes
    requires TallyOf(After(PREPARED, choices).steps).level == 1
    ensures var run, t := After(PREPARED, next), TallyOf(After(PREPARED, choices).steps);
            Ended(run, Done(PublicationResult, Wrapped(Publish, Pushed([REPOSITORY]))), Publication, t.last,
                  Tally(t.accepted + 1, 0, Some(Publication), Some(seen), 2, Some([REPOSITORY]), t.reviews,
                    t.implemented))
  {
    hide After, Ready, TallyOf, Tallied, Sight;
    hide RouteTarget;
    var entered, t;
    entered, seen, t := Enters(choices, routes, Publication);
    assert RouteTarget(Publication) == RouteVerifiedWorkspace by { Targets(); }
    next := Pushes(entered, t);
  }

  lemma Targets()
    ensures RouteTarget(Publication) == RouteVerifiedWorkspace && RouteTarget(Review) == SelectReviewCommands
    ensures NoneCompleted([])
  {
  }

  lemma Pushes(choices: seq<Choice>, t: Tally) returns (next: seq<Choice>)
    requires var run := After(PREPARED, choices);
             run.input == PREPARED && run.at == Some(RouteVerifiedWorkspace) && TallyOf(run.steps) == t && t.level == 1
    ensures Back(After(PREPARED, choices), After(PREPARED, next),
                 Done(PublicationResult, Wrapped(Publish, Pushed([REPOSITORY]))),
                 t.(published := Some([REPOSITORY]), level := 2), 3, 3)
  {
    hide After, TallyOf, Tallied, Executed;
    Workspaces(After(PREPARED, choices));
    Compute(PREPARED, choices, RouteVerifiedWorkspace, Mode(false), Publish);
    Quiet(t, Done(RouteVerifiedWorkspace, Mode(false)));
    var routed := choices + [Returned(NoOutput)];
    Agent(PREPARED, routed, Publish, Pushed([REPOSITORY]), PublicationResult);
    PushedTally(t);
    WrapResult(routed + [Returned(Pushed([REPOSITORY]))], PublicationResult, Done(Publish, Pushed([REPOSITORY])));
    next := routed + [Returned(Pushed([REPOSITORY]))] + [Returned(NoOutput)];
  }

  predicate NoneCompleted(entries: seq<Assessment>) { forall e :: e in entries ==> !e.succeeded }

  lemma Missing(steps: seq<Step>)
    ensures NoneCompleted(ReviewEntries(steps)) ==> Unreviewed([REPOSITORY], steps) == [REPOSITORY]
    ensures ReviewEntries(steps) == SERIOUS.entries ==> Unreviewed([REPOSITORY], steps) == []
  {
    assert SERIOUS.entries[0] in SERIOUS.entries;
    if ReviewEntries(steps) == SERIOUS.entries { assert ReviewedAtHead(steps, REPOSITORY); }
    assert [REPOSITORY][..0] == [];
    hide ReviewEntries;
  }

  /** What is selected when no review was completed, and when the one review was of this head. */
  lemma Selects(run: Run)
    requires TallyOf(run.steps).published == Some([REPOSITORY])
    ensures NoneCompleted(TallyOf(run.steps).reviews) ==>
        ComputedOutput(run, SelectReviewCommands) == Some(Selection([REPOSITORY]))
    ensures TallyOf(run.steps).reviews == SERIOUS.entries ==>
        ComputedOutput(run, SelectReviewCommands) == Some(Selection([]))
  {
    Missing(run.steps);
    hide ReviewEntries, LatestOf, Offered, Unreviewed;
  }

  lemma SeriousAssesses()
    ensures Assesses(SERIOUS, [REPOSITORY])
  {
    assert RepositoriesOf(SERIOUS.entries) == [REPOSITORY];
    assert SERIOUS.entries[0] in SERIOUS.entries && SERIOUS.entries[0].worst.Serious?;
    assert AssessmentOf(SERIOUS.entries) == Critical;
  }

  lemma SeriousTally(t: Tally)
    requires t.level == 2
    ensures Tallied(t, Done(AssessReview, SERIOUS)) == t.(reviews := t.reviews + SERIOUS.entries)
  {
  }

  lemma ReviewsIt(choices: seq<Choice>, t: Tally) returns (next: seq<Choice>)
    requires var run := After(PREPARED, choices);
             run.input == PREPARED && run.at == Some(SelectReviewCommands) && TallyOf(run.steps) == t
    requires t.level == 2 && t.published == Some([REPOSITORY]) && t.reviews == []
    ensures var run := After(PREPARED, next);
            && run.input == PREPARED && run.at == Some(Observe) && run.steps != []
            && Newest(run.steps) == Done(ReviewResult, Wrapped(AssessReview, SERIOUS))
            && TallyOf(run.steps) == t.(reviews := SERIOUS.entries)
  {
    hide *;
    Targets();
    var selected := SelectsIt(choices, t);
    var assessing := Runs(selected);
    next := AssessesIt(assessing, t);
  }

  /** The review is made, and finds something serious. */
  lemma FindsSerious(choices: seq<Choice>, routes: seq<Route>) returns (next: seq<Choice>, seen: Output)
    requires After(PREPARED, choices).input == PREPARED && Ready(After(PREPARED, choices), routes) && Review in routes
    requires var t := TallyOf(After(PREPARED, choices).steps);
        t.level == 2 && t.published == Some([REPOSITORY]) && t.reviews == []
    ensures var run, t := After(PREPARED, next), TallyOf(After(PREPARED, choices).steps);
            Ended(run, Done(ReviewResult, Wrapped(AssessReview, SERIOUS)), Review, t.last,
                  Tally(t.accepted + 1, 0, Some(Review), Some(seen), 2, t.published, SERIOUS.entries, t.implemented))
  {
    hide *;
    var entered, t;
    entered, seen, t := Enters(choices, routes, Review);
    Targets();
    next := ReviewsIt(entered, t);
    SeriousEnd(After(PREPARED, next), TallyOf(After(PREPARED, choices).steps), t, seen);
  }

  lemma SeriousEnd(run: Run, before: Tally, t: Tally, seen: Output)
    requires run.input == PREPARED && run.at == Some(Observe) && run.steps != []
    requires Newest(run.steps) == Done(ReviewResult, Wrapped(AssessReview, SERIOUS))
    requires TallyOf(run.steps) == t.(reviews := SERIOUS.entries)
    requires t
        == Tally(before.accepted + 1, 0, Some(Review), Some(seen), 2, before.published, before.reviews,
          before.implemented)
    requires seen.Observation? && seen.lastRoute == before.last
    ensures Ended(run, Done(ReviewResult, Wrapped(AssessReview, SERIOUS)), Review, before.last,
                  Tally(before.accepted + 1, 0, Some(Review), Some(seen), 2, before.published, SERIOUS.entries,
                        before.implemented))
  {
    hide TallyOf;
  }

  lemma SelectsIt(choices: seq<Choice>, t: Tally) returns (next: seq<Choice>)
    requires var run := After(PREPARED, choices);
             run.input == PREPARED && run.at == Some(SelectReviewCommands) && TallyOf(run.steps) == t
    requires t.level == 2 && t.published == Some([REPOSITORY]) && NoneCompleted(t.reviews)
    ensures var run := After(PREPARED, next);
            && run.input == PREPARED && run.at == Some(RunReview) && TallyOf(run.steps) == t
            && Selected(run.steps) == [REPOSITORY]
            && Longer(After(PREPARED, choices), run, 1, 1)
  {
    hide After, TallyOf, Tallied, Selected, Executed, NoneCompleted;
    Selects(After(PREPARED, choices));
    Compute(PREPARED, choices, SelectReviewCommands, Selection([REPOSITORY]), RunReview);
    QuietSelection(t);
    SelectedIs(After(PREPARED, choices).steps);
    next := choices + [Returned(NoOutput)];
  }

  lemma AssessesIt(choices: seq<Choice>, t: Tally) returns (next: seq<Choice>)
    requires var run := After(PREPARED, choices);
             && run.input == PREPARED && run.at == Some(AssessReview) && TallyOf(run.steps) == t
             && Selected(run.steps) == [REPOSITORY]
    requires t.level == 2 && t.reviews == []
    ensures var run := After(PREPARED, next);
            && run.input == PREPARED && run.at == Some(Observe) && run.steps != []
            && Newest(run.steps) == Done(ReviewResult, Wrapped(AssessReview, SERIOUS))
            && TallyOf(run.steps) == t.(reviews := SERIOUS.entries)
  {
    hide After, TallyOf, Tallied, Selected, Assesses;
    SeriousAssesses();
    Agent(PREPARED, choices, AssessReview, SERIOUS, ReviewResult);
    SeriousTally(t);
    WrapResult(choices + [Returned(SERIOUS)], ReviewResult, Done(AssessReview, SERIOUS));
    next := choices + [Returned(SERIOUS)] + [Returned(NoOutput)];
    assert [] + SERIOUS.entries == SERIOUS.entries;
  }

  lemma SelectedIs(steps: seq<Step>)
    ensures Selected(steps + [Done(SelectReviewCommands, Selection([REPOSITORY]))]) == [REPOSITORY]
  {
    LatestOfStep(steps, Done(SelectReviewCommands, Selection([REPOSITORY])), {SelectReviewCommands});
  }

  /** The review commands run, and the run goes on to the assessment. */
  lemma Runs(choices: seq<Choice>) returns (next: seq<Choice>)
    requires After(PREPARED, choices).at == Some(RunReview) && After(PREPARED, choices).input == PREPARED
    requires TallyOf(After(PREPARED, choices).steps).level == 2
    ensures var run, after := After(PREPARED, choices), After(PREPARED, next);
            && after.at == Some(AssessReview) && after.input == PREPARED && TallyOf(after.steps) == TallyOf(run.steps)
            && Selected(after.steps) == Selected(run.steps) && Longer(run, after, 2, 2)
  {
    hide After, TallyOf, Tallied, Executed;
    var run := After(PREPARED, choices);
    var t, ran := TallyOf(run.steps), choices + [Returned(Batch(false))];
    Agent(PREPARED, choices, RunReview, Batch(false), RouteRunReviewResult);
    Quiet(t, Done(RunReview, Batch(false)));
    Compute(PREPARED, ran, RouteRunReviewResult, Batch(false), AssessReview);
    Quiet(t, Done(RouteRunReviewResult, Batch(false)));
    LatestOfStep(run.steps, Done(RunReview, Batch(false)), {SelectReviewCommands});
    LatestOfStep(After(PREPARED, ran).steps, Done(RouteRunReviewResult, Batch(false)), {SelectReviewCommands});
    next := ran + [Returned(NoOutput)];
  }

  /** The next review of the same head is not made. */
  lemma Reuses(choices: seq<Choice>, routes: seq<Route>) returns (next: seq<Choice>, seen: Output)
    requires After(PREPARED, choices).input == PREPARED && Ready(After(PREPARED, choices), routes) && Review in routes
    requires var t := TallyOf(After(PREPARED, choices).steps);
             t.level == 2 && t.published == Some([REPOSITORY]) && t.reviews == SERIOUS.entries
    ensures var run, t := After(PREPARED, next), TallyOf(After(PREPARED, choices).steps);
            Ended(run, Done(ReviewResult, Wrapped(SelectReviewCommands, Selection([]))), Review, t.last,
                  Tally(t.accepted + 1, 0, Some(Review), Some(seen), 3, t.published, t.reviews, t.implemented))
  {
    hide After, Ready, TallyOf, Tallied, Sight;
    hide RouteTarget;
    var entered, t;
    entered, seen, t := Enters(choices, routes, Review);
    Targets();
    next := ReusesIt(entered, t);
  }

  lemma SelectionEdges()
    ensures IsComputed(SelectReviewCommands) && NextOk(SelectReviewCommands, Selection([])) == Some(ReviewResult)
    ensures NextOk(ReviewResult, Wrapped(SelectReviewCommands, Selection([]))) == Some(Observe)
    ensures SelectReviewCommands in Sources(ReviewResult)
    ensures Passes(Done(SelectReviewCommands, Selection([])), 3)
  {
  }

  lemma ReusesIt(choices: seq<Choice>, t: Tally) returns (next: seq<Choice>)
    requires var run := After(PREPARED, choices);
             run.input == PREPARED && run.at == Some(SelectReviewCommands) && TallyOf(run.steps) == t
    requires t.level == 2 && t.published == Some([REPOSITORY]) && t.reviews == SERIOUS.entries
    ensures var run := After(PREPARED, next);
            && run.input == PREPARED && run.at == Some(Observe) && run.steps != []
            && Newest(run.steps) == Done(ReviewResult, Wrapped(SelectReviewCommands, Selection([])))
            && TallyOf(run.steps) == t.(level := 3)
  {
    hide After, TallyOf, Tallied, Passes, IsComputed, ComputedOutput, NextOk, Sources;
    SelectionEdges();
    Selects(After(PREPARED, choices));
    Compute(PREPARED, choices, SelectReviewCommands, Selection([]), ReviewResult);
    Advances(t, Done(SelectReviewCommands, Selection([])));
    WrapResult(choices + [Returned(NoOutput)], ReviewResult, Done(SelectReviewCommands, Selection([])));
    next := choices + [Returned(NoOutput)] + [Returned(NoOutput)];
  }

  // The routes offered on the way.
  const AT_FIRST := [Implementation, RedesignRoute, BlockedRoute]
  const IMPLEMENTED := [Verification, Repair, RedesignRoute, BlockedRoute]
  const REPAIRED := [Verification, RedesignRoute, BlockedRoute]
  const VERIFIED := [Publication, Repair, RedesignRoute, BlockedRoute]
  const PUBLISHED := [Review, Publication, RedesignRoute, BlockedRoute]
  const FOUND_SERIOUS := [Repair, RedesignRoute, BlockedRoute]
  const REUSED := [Comments, Review, BlockedRoute]

  lemma Offers(run: Run)
    ensures ResultRoutes(run, ClassifyImplementation, Assessed(Verify)) == Some(IMPLEMENTED)
    ensures ResultRoutes(run, RepairResult, Wrapped(Fix, Plain)) == Some(REPAIRED)
    ensures ResultRoutes(run, LocalVerificationReady, Plain) == Some(VERIFIED)
    ensures ResultRoutes(run, PublicationResult, Wrapped(Publish, Pushed([REPOSITORY]))) == Some(PUBLISHED)
    ensures ResultRoutes(run, ReviewResult, Wrapped(AssessReview, SERIOUS)) == Some(FOUND_SERIOUS)
    ensures ResultRoutes(run, ReviewResult, Wrapped(SelectReviewCommands, Selection([]))) == Some(REUSED)
  {
    hide HasPlan, DocumentationIsCurrent, PreparedWorkspace;
  }

  lemma NextReady(choices: seq<Choice>, s: Step, route: Route, previous: Option<Route>, t: Tally, routes: seq<Route>)
    requires Ended(After(PREPARED, choices), s, route, previous, t) && previous != Some(route) && t.accepted < 40
    requires IsControlAttempt(s.node) && ResultRoutes(After(PREPARED, choices), s.node, s.output) == Some(routes)
    ensures Ready(After(PREPARED, choices), routes)
    ensures After(PREPARED, choices).input == PREPARED && TallyOf(After(PREPARED, choices).steps) == t
  {
    hide After, Ready, ResultRoutes;
    EndedReady(After(PREPARED, choices), s, route, previous, t, routes);
  }

  /** Verification and publication after a change; the review is up next. */
  lemma ToReview(choices: seq<Choice>, s: Step, route: Route, previous: Option<Route>, t: Tally, routes: seq<Route>)
      returns (next: seq<Choice>, seen: Output)
    requires Ended(After(PREPARED, choices), s, route, previous, t) && previous != Some(route) && t.accepted < 30
    requires IsControlAttempt(s.node) && ResultRoutes(After(PREPARED, choices), s.node, s.output) == Some(routes)
    requires t.level == 0 && t.implemented && Verification in routes && route != Verification
    ensures var after :=
        Tally(t.accepted + 2, 0, Some(Publication), Some(seen), 2, Some([REPOSITORY]), t.reviews, true);
            && Ready(After(PREPARED, next), PUBLISHED) && After(PREPARED, next).input == PREPARED
            && TallyOf(After(PREPARED, next).steps) == after
  {
    hide After, TallyOf, Ready, ResultRoutes, IsControlAttempt;
    NextReady(choices, s, route, previous, t, routes);
    next, seen := Verifies(choices, routes);
    var verified := Tally(t.accepted + 1, 0, Some(Verification), Some(seen), 1, t.published, t.reviews, t.implemented);
    Offers(After(PREPARED, next));
    Attempts();
    NextReady(next, Done(LocalVerificationReady, Plain), Verification, t.last, verified, VERIFIED);
    next, seen := Publishes(next, VERIFIED);
    Offers(After(PREPARED, next));
    NextReady(next, Done(PublicationResult, Wrapped(Publish, Pushed([REPOSITORY]))), Publication, Some(Verification),
              Tally(t.accepted + 2, 0, Some(Publication), Some(seen), 2, Some([REPOSITORY]), t.reviews,
                t.implemented), PUBLISHED);
  }

  lemma Attempts()
    ensures IsControlAttempt(ClassifyImplementation) && IsControlAttempt(RepairResult)
        && IsControlAttempt(LocalVerificationReady)
    ensures IsControlAttempt(PublicationResult) && IsControlAttempt(ReviewResult)
  {
  }

  /** Up to the review that finds something serious. */
  lemma UpToSerious() returns (choices: seq<Choice>, seen: Output)
    ensures Ended(After(PREPARED, choices), Done(ReviewResult, Wrapped(AssessReview, SERIOUS)), Review,
                  Some(Publication),
                    Tally(4, 0, Some(Review), Some(seen), 2, Some([REPOSITORY]), SERIOUS.entries, true))
  {
    hide After, TallyOf, Ready, ResultRoutes, IsControlAttempt;
    StartReady();
    Attempts();
    choices, seen := Implements([Returned(NoOutput)], AT_FIRST);
    Offers(After(PREPARED, choices));
    choices, seen := ToReview(choices, Done(ClassifyImplementation, Assessed(Verify)), Implementation, None,
                              Tally(1, 0, Some(Implementation), Some(seen), 0, None, [], true), IMPLEMENTED);
    choices, seen := FindsSerious(choices, PUBLISHED);
  }

  /**
   * A run in which the one review on record found something serious, and after a repair that left the head as it was
   * the review phase is passed all the same: the review is reused, and comments are offered.
   */
  lemma SeriousReviewIsReused() returns (choices: seq<Choice>)
    ensures var run := After(PREPARED, choices);
            && run.at == Some(Observe) && Level(run.steps) == 3 && ReviewEntries(run.steps) == SERIOUS.entries
            && Newest(run.steps) == Done(ReviewResult, Wrapped(SelectReviewCommands, Selection([])))
            && Ready(run, REUSED)
  {
    hide After, TallyOf, Ready, ResultRoutes, IsControlAttempt;
    var seen: Output;
    choices, seen := UpToSerious();
    Offers(After(PREPARED, choices));
    Attempts();
    NextReady(choices, Done(ReviewResult, Wrapped(AssessReview, SERIOUS)), Review, Some(Publication),
              Tally(4, 0, Some(Review), Some(seen), 2, Some([REPOSITORY]), SERIOUS.entries, true), FOUND_SERIOUS);
    choices, seen := Repairs(choices, FOUND_SERIOUS);
    Offers(After(PREPARED, choices));
    choices, seen := ToReview(choices, Done(RepairResult, Wrapped(Fix, Plain)), Repair, Some(Review),
                              Tally(5, 0, Some(Repair), Some(seen), 0, Some([REPOSITORY]), SERIOUS.entries, true),
                                REPAIRED);
    choices, seen := Reuses(choices, PUBLISHED);
    Offers(After(PREPARED, choices));
    var t := Tally(8, 0, Some(Review), Some(seen), 3, Some([REPOSITORY]), SERIOUS.entries, true);
    NextReady(choices, Done(ReviewResult, Wrapped(SelectReviewCommands, Selection([]))), Review, Some(Publication), t,
      REUSED);
    TallyIs(After(PREPARED, choices).steps);
    ReadyIs(After(PREPARED, choices), REUSED);
  }

  lemma TallyIs(steps: seq<Step>)
    ensures TallyOf(steps).level == Level(steps) && TallyOf(steps).reviews == ReviewEntries(steps)
  {
  }
}
