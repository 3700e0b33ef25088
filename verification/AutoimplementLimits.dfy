/** How long runs get: the bound for every number of decisions, met exactly, and the engine's own limit. */
module AutoimplementLimits {
  import opened AutoimplementModel
  import opened AutoimplementGates
  import opened AutoimplementTermination
  import opened AutoimplementWitnesses

  // ---- Deciding at the third try -------------------------------------------------------------

  const SOME_FAILURE := Fingerprint(ControlFailure, Ok, Failure(false, 2), "")

  /** The choices of a round in which the decider fails. */
  const FAILING := [Returned(NoOutput), NOTHING, Returned(NoOutput)]

  /** Every decision so far was made at the third try. */
  predicate Hesitant(t: Tally) {
    t.seen.Some? ==> t.seen.value.Observation? && t.seen.value.fingerprint == SOME_FAILURE
  }

  /** A branch has ended with a step of its own, `n` decisions were accepted, and `routes` are to be offered. */
  ghost predicate Resting(run: Run, routes: seq<Route>, n: nat) {
    var t := TallyOf(run.steps);
    && Ready(run, routes) && !Newest(run.steps).node.ControlFailure? && Newest(run.steps).error == ""
    && t.accepted == n && t.failures == 0 && Hesitant(t)
  }

  lemma Rests(run: Run, s: Step, t: Tally, routes: seq<Route>)
    requires run.at == Some(Observe) && run.steps != [] && Newest(run.steps) == s && TallyOf(run.steps) == t
    requires IsControlAttempt(s.node) && !s.node.ControlFailure? && s.error == "" && t.failures == 0 && Hesitant(t)
    requires if t.accepted >= MAX_CONTROL_DECISIONS then routes == [BlockedRoute]
             else ResultRoutes(run, s.node, s.output) == Some(routes)
    ensures Resting(run, routes, t.accepted)
  {
    hide ResultRoutes, IsControlAttempt;
    NewestIsLatest(run.steps);
  }

  /** A round in which the decider fails, for the time after `k` failures; it is not the last. */
  ghost predicate FailedAgain(run: Run, routes: seq<Route>, k: nat, after: Run)
    requires run.steps != []
  {
    && after.input == run.input && after.at == Some(Observe) && after.steps != []
    && Longer(run, after, 3, 3)
    && Newest(after.steps) == Done(ControlFailure, Failure(false, k + 1))
    && TallyOf(after.steps) == TallyOf(run.steps).(failures := k + 1, seen := Some(Sight(run, routes)))
    && Observe in after.outputs && after.outputs[Observe] == Sight(run, routes)
  }

  lemma FailureTally(t: Tally, seen: Output, blocked: bool)
    requires -1 <= t.level <= 5
    ensures var observed, failed := t.(seen := Some(seen)), t.(seen := Some(seen), failures := t.failures + 1);
            && Tallied(t, Done(Observe, seen)) == observed
            && Tallied(observed, Undone(Decide)) == failed
            && Tallied(failed, Done(ControlFailure, Failure(blocked, t.failures + 1))) == failed
  {
  }

  lemma FailureCounted(run: Run, k: nat)
    requires TallyOf(run.steps).failures == k + 1
    ensures Visit(run, ControlFailure, Returned(NoOutput)) == Done(ControlFailure, Failure(k >= 2, k + 1))
  {
    hide AcceptedDecisions, LatestOf, Level, ReviewEntries, Seen;
  }

  /** The run observes, and the decider fails. */
  lemma Refuses(input: Input, choices: seq<Choice>, routes: seq<Route>)
    requires Ready(After(input, choices), routes)
    ensures After(input, choices).steps != []
    ensures var run, after := After(input, choices), After(input, choices + [Returned(NoOutput)] + [NOTHING]);
            && after.input == run.input && after.at == Some(ControlFailure) && Longer(run, after, 2, 2)
            && StoredOutput(after, Observe) == Some(Sight(run, routes))
            && var t := TallyOf(run.steps);
               TallyOf(after.steps) == t.(failures := t.failures + 1, seen := Some(Sight(run, routes)))
  {
    hide After, Ready, Sight, Tallied, TallyOf, Executed, Visit, NextOk, NextFailed, Included;
    var run, first := After(input, choices), choices + [Returned(NoOutput)];
    ReadyIs(run, routes);
    Observes(input, choices, routes);
    FailureTally(TallyOf(run.steps), Sight(run, routes), false);
    FailureEdges(After(input, first), 0);
    Visited(input, first, NOTHING, Undone(Decide), ControlFailure);
  }

  lemma Fails(input: Input, choices: seq<Choice>, routes: seq<Route>, k: nat)
    requires Ready(After(input, choices), routes) && TallyOf(After(input, choices).steps).failures == k < 2
    ensures After(input, choices).steps != []
    ensures FailedAgain(After(input, choices), routes, k, After(input, choices + FAILING))
  {
    hide After, Ready, Sight, Tallied, TallyOf, Executed, Visit, NextOk, NextFailed, Included;
    var run, refused := After(input, choices), choices + [Returned(NoOutput)] + [NOTHING];
    Refuses(input, choices, routes);
    FailureTally(TallyOf(run.steps), Sight(run, routes), false);
    FailureEdges(run, k);
    FailureCounted(After(input, refused), k);
    Visited(input, refused, Returned(NoOutput), Done(ControlFailure, Failure(false, k + 1)), Observe);
    FailingIs(choices);
  }

  lemma FailingIs(choices: seq<Choice>)
    ensures choices + FAILING == choices + [Returned(NoOutput)] + [NOTHING] + [Returned(NoOutput)]
  {
  }

  lemma FailureEdges(run: Run, k: nat)
    ensures Visit(run, Decide, NOTHING) == Undone(Decide) && NextFailed(Decide) == Some(ControlFailure)
    ensures NextOk(ControlFailure, Failure(false, k + 1)) == Some(Observe)
    ensures !Included(Observe) && !Included(Decide) && !Included(ControlFailure)
  {
  }

  /** The next observation offers the same. */
  lemma FailedReady(run: Run, routes: seq<Route>, k: nat, after: Run)
    requires Ready(run, routes) && FailedAgain(run, routes, k, after)
    requires Newest(run.steps).error == ""
    requires Newest(run.steps).node.ControlFailure? ==> Newest(run.steps).output != Failure(false, k + 1)
    ensures Ready(after, routes)
  {
    hide LatestAttempt, Level, PublishedBy, ReviewEntries, Executed;
    NewestIsLatest(after.steps);
  }

  /** What two failed tries leave, and the next observation to come. */
  lemma FailsTwice(input: Input, choices: seq<Choice>, routes: seq<Route>, n: nat) returns (twice: seq<Choice>)
    requires Resting(After(input, choices), routes, n)
    ensures twice == choices + FAILING + FAILING
    ensures var run, after := After(input, choices), After(input, twice);
            && Ready(after, routes) && after.input == run.input
            && Newest(after.steps) == Done(ControlFailure, Failure(false, 2))
            && Longer(run, after, 6, 6)
            && var t := TallyOf(after.steps);
               t == TallyOf(run.steps).(failures := 2, seen := t.seen)
  {
    var run, once := After(input, choices), choices + FAILING;
    twice := once + FAILING;
    hide After, Ready, TallyOf, Executed, Sight, Hesitant;
    Fails(input, choices, routes, 0);
    FailedReady(run, routes, 0, After(input, once));
    Fails(input, once, routes, 1);
    FailedReady(After(input, once), routes, 1, After(input, twice));
  }

  /** The tally once a route was chosen at the third try. */
  predicate Chosen(before: Tally, route: Route, t: Tally) {
    && t.accepted == before.accepted + 1 && t.failures == 0 && t.seen.Some? && Hesitant(t)
    && -1 <= t.level <= 5 && t.level == (if route.Implementation? || route.Repair? then 0 else before.level)
    && t.published == before.published && t.reviews == before.reviews && t.implemented == before.implemented
  }

  /** The decider fails twice and then takes a route on offer. */
  lemma DecidesLate(input: Input, choices: seq<Choice>, routes: seq<Route>, route: Route, n: nat)
      returns (entered: seq<Choice>, t: Tally)
    requires Resting(After(input, choices), routes, n) && route in routes
    ensures var run, after := After(input, choices), After(input, entered);
            && after.input == run.input && after.at == Some(RouteTarget(route)) && TallyOf(after.steps) == t
            && Longer(run, after, 9, 9)
            && Chosen(TallyOf(run.steps), route, t)
  {
    hide After, Ready, TallyOf, Executed, RouteTarget, Sight, Tallied;
    var twice := FailsTwice(input, choices, routes, n);
    var after := After(input, twice);
    ReadyIs(after, routes);
    Takes(input, twice, routes, route);
    entered := twice + Taking(route);
    t := TallyOf(After(input, entered).steps);
    SightIs(after, routes);
    assert Hesitant(t);
  }

  // ---- Every input can pass the engine's limit -----------------------------------------------

  /** The route a run can be kept on: what it asks for first comes to nothing, again and again. */
  function StuckOn(input: Input): Route {
    if !input.hasPlan then PlanDiscovery
    else if input.prepared.None? then WorkspaceRoute
    else if input.documented then Implementation
    else DocumentationRoute
  }

  /** The last step of such a branch, and the routes it offers. */
  function StuckStep(input: Input): Step {
    if !input.hasPlan then Undone(FindPlan)
    else if input.prepared.None? then Done(WorkspaceBlocked, Plain)
    else if input.documented then Undone(Implement)
    else Done(DocumentationBlocked, Plain)
  }

  function StuckRoutes(input: Input): seq<Route> {
    if !input.hasPlan then [PlanDiscovery, BlockedRoute]
    else if input.prepared.None? then [WorkspaceRoute, RedesignRoute, BlockedRoute]
    else if input.documented then [Implementation, Repair, RedesignRoute, BlockedRoute]
    else [DocumentationRoute, RedesignRoute, BlockedRoute]
  }

  lemma StuckOffers(run: Run, input: Input)
    ensures var s := StuckStep(input);
            && ResultRoutes(run, s.node, s.output) == Some(StuckRoutes(input)) && StuckOn(input) in StuckRoutes(input)
            && IsControlAttempt(s.node) && !s.node.ControlFailure? && s.error == ""
  {
    hide InitialRoutes, AfterWorkspace;
  }

  /** An agent fails. */
  lemma AgentFails(input: Input, choices: seq<Choice>, node: Node, t: Tally)
    requires After(input, choices).at == Some(node) && TallyOf(After(input, choices).steps) == t
    requires node.FindPlan? || node.Implement?
    ensures var after := t.(implemented := !node.Implement? && t.implemented);
            Back(After(input, choices), After(input, choices + [NOTHING]), Undone(node), after, 1, 1)
  {
    hide After, TallyOf, Tallied, Executed;
    Visited(input, choices, NOTHING, Undone(node), Observe);
    if node.Implement? { ImplementTally(t, Undone(node)); } else { Quiet(t, Undone(node)); }
  }

  const NOT_READY := Exit(false, false, false)

  lemma BlockedEdges(node: Node, blocked: Node)
    requires (node.Workspace? && blocked.WorkspaceBlocked?) || (node.Documentation? && blocked.DocumentationBlocked?)
    ensures !IsComputed(node) && NextOk(node, NOT_READY) == Some(blocked)
    ensures !IsComputed(blocked) && !EntersWorkspace(blocked) && NextOk(blocked, Plain) == Some(Observe)
    ensures !EntersWorkspace(Workspace)
  {
  }

  /** An include exits blocked. */
  lemma IncludeBlocks(input: Input, choices: seq<Choice>, node: Node, blocked: Node, t: Tally)
    requires After(input, choices).at == Some(node) && TallyOf(After(input, choices).steps) == t
    requires (node.Workspace? && blocked.WorkspaceBlocked?) || (node.Documentation? && blocked.DocumentationBlocked?)
    requires node.Documentation? ==>
        PreparedWorkspace(After(input, choices)).Some? && HasPlan(After(input, choices))
    ensures Back(After(input, choices), After(input, choices + [Returned(NOT_READY)] + [Returned(Plain)]),
                 Done(blocked, Plain), t, 2, 1)
  {
    hide After, TallyOf, Tallied, Executed, PreparedWorkspace, HasPlan, IsComputed, NextOk, EntersWorkspace;
    BlockedEdges(node, blocked);
    Agent(input, choices, node, NOT_READY, blocked);
    Quiet(t, Done(node, NOT_READY));
    Agent(input, choices + [Returned(NOT_READY)], blocked, Plain, Observe);
    Quiet(t, Done(blocked, Plain));
  }

  /** The branch comes to nothing. */
  lemma ComesToNothing(input: Input, choices: seq<Choice>, t: Tally) returns (next: seq<Choice>, after: Tally)
    requires var run := After(input, choices);
             run.input == input && run.at == Some(RouteTarget(StuckOn(input))) && TallyOf(run.steps) == t
    ensures Back(After(input, choices), After(input, next), StuckStep(input), after,
                 if StuckStep(input).outcome.Ok? then 2 else 1, 1)
    ensures after == t.(implemented := after.implemented)
  {
    hide After, TallyOf, Executed, Back;
    after := t.(implemented := !StuckStep(input).node.Implement? && t.implemented);
    if StuckStep(input).outcome.Ok? {
      IncludeBlocks(input, choices, RouteTarget(StuckOn(input)), StuckStep(input).node, t);
      next := choices + [Returned(NOT_READY)] + [Returned(Plain)];
    } else {
      AgentFails(input, choices, RouteTarget(StuckOn(input)), t);
      next := choices + [NOTHING];
    }
  }

  /** The run is at rest after `n` such rounds. */
  ghost predicate Stuck(run: Run, input: Input, n: nat) {
    && run.input == input && run.steps != [] && Executed(run.steps) == 1 + 10 * n
    && exists routes :: Resting(run, routes, n) && (n < MAX_CONTROL_DECISIONS ==> StuckOn(input) in routes)
  }

  lemma Prepares(input: Input)
    ensures After(input, [Returned(NoOutput)])
        == Run(input, [Done(Prepare, Plain)], map[Prepare := Plain], Some(Observe))
  {
    hide Offered, HasPlan, LatestOf, IsComputed, ComputedOutput, Allowed;
    assert [Returned(NoOutput)][..0] == [] && After(input, []) == Start(input);
    assert Visit(Start(input), Prepare, Returned(NoOutput)) == Done(Prepare, Plain) by {
      PrepareIsComputed(input);
    }
    hide Visit;
    assert [] + [Done(Prepare, Plain)] == [Done(Prepare, Plain)];
  }

  lemma PrepareIsComputed(input: Input)
    ensures IsComputed(Prepare) && ComputedOutput(Start(input), Prepare) == Some(Plain)
  {
    hide Offered, LatestOf;
  }

  lemma PreparedTally()
    ensures TallyOf([Done(Prepare, Plain)]) == Tally(0, 0, None, None, -1, None, [], false)
    ensures Executed([Done(Prepare, Plain)]) == 1
  {
    assert [] + [Done(Prepare, Plain)] == [Done(Prepare, Plain)] && [Done(Prepare, Plain)][..0] == [];
    assert TallyOf([]) == Tally(0, 0, None, None, -1, None, [], false);
    assert Executed([]) == 0;
    hide TallyOf;
    TallyStep([], Done(Prepare, Plain));
  }

  lemma FirstOffers(input: Input)
    ensures var run := Run(input, [Done(Prepare, Plain)], map[Prepare := Plain], Some(Observe));
            var routes := ResultRoutes(run, Prepare, Plain);
            routes.Some? && StuckOn(input) in routes.value
    ensures IsControlAttempt(Prepare)
  {
  }

  lemma StuckStarts(input: Input)
    ensures Stuck(After(input, [Returned(NoOutput)]), input, 0)
  {
    hide After, TallyOf, Executed, ResultRoutes, Resting, IsControlAttempt;
    var run := After(input, [Returned(NoOutput)]);
    Prepares(input);
    PreparedTally();
    FirstOffers(input);
    Rests(run, Done(Prepare, Plain), TallyOf(run.steps), ResultRoutes(run, Prepare, Plain).value);
  }

  lemma StuckOnce(input: Input, choices: seq<Choice>, n: nat) returns (next: seq<Choice>)
    requires Stuck(After(input, choices), input, n) && n < MAX_CONTROL_DECISIONS
    ensures Stuck(After(input, next), input, n + 1)
  {
    hide After, TallyOf, Executed, ResultRoutes, Resting, IsControlAttempt, RouteTarget, StuckOn, StuckRoutes,
      StuckStep;
    var routes :| Resting(After(input, choices), routes, n) && StuckOn(input) in routes;
    var t;
    next, t := DecidesLate(input, choices, routes, StuckOn(input), n);
    RestingCounts(After(input, choices), routes, n);
    next, t := ComesToNothing(input, next, t);
    StuckOffers(After(input, next), input);
    var offered := if n + 1 >= MAX_CONTROL_DECISIONS then [BlockedRoute] else StuckRoutes(input);
    Rests(After(input, next), StuckStep(input), t, offered);
  }

  lemma RestingCounts(run: Run, routes: seq<Route>, n: nat)
    requires Resting(run, routes, n)
    ensures run.at == Some(Observe) && TallyOf(run.steps).accepted == n
  {
    hide TallyOf;
  }

  lemma {:induction false} StuckFor(input: Input, n: nat) returns (choices: seq<Choice>)
    requires n <= MAX_CONTROL_DECISIONS
    ensures Stuck(After(input, choices), input, n)
  {
    hide After, Stuck;
    if n == 0 {
      choices := [Returned(NoOutput)];
      StuckStarts(input);
    } else {
      choices := StuckFor(input, n - 1);
      choices := StuckOnce(input, choices, n - 1);
    }
  }

  /** Whatever the input, some runs make more visits than the engine allows; one does with 32 decisions. */
  lemma EveryInputPassesTheLimit(input: Input) returns (choices: seq<Choice>)
    ensures Executed(After(input, choices).steps) == MAX_STEPS + 1 && After(input, choices).at == Some(Observe)
    ensures |AcceptedDecisions(After(input, choices).steps)| == 32
  {
    hide After, Executed, Resting;
    choices := StuckFor(input, 32);
    var routes :| Resting(After(input, choices), routes, 32);
    RestingCounts(After(input, choices), routes, 32);
  }

  // ---- The longest runs ----------------------------------------------------------------------

  const AGAIN := [Review, BlockedRoute]

  /** The review of the one repository failed. */
  const IN_VAIN := Reviewed(CommandError, [Assessment(REPOSITORY, false, Harmless)])

  const UNREPAIRED := Wrapped(RepairReviewCommand, Retry(true))

  /** The run rests after `n` decisions and `visits` visits, of which the engine counted `executed`. */
  ghost predicate Rested(run: Run, routes: seq<Route>, n: nat, visits: nat, executed: nat) {
    run.input == PREPARED && Resting(run, routes, n) && |run.steps| == visits && Executed(run.steps) == executed
  }

  /** A branch that was entered late is back. */
  lemma BackAtRest(run: Run, entered: Run, after: Run, s: Step, before: Tally, t: Tally, visits: nat, executed: nat,
                   routes: seq<Route>)
    requires run.input == PREPARED && entered.input == PREPARED && Longer(run, entered, 9, 9)
    requires Back(entered, after, s, t, visits, executed) && t.failures == 0 && Hesitant(t)
    requires IsControlAttempt(s.node) && !s.node.ControlFailure? && s.error == ""
    requires if t.accepted >= MAX_CONTROL_DECISIONS then routes == [BlockedRoute]
             else ResultRoutes(after, s.node, s.output) == Some(routes)
    ensures Rested(after, routes, t.accepted, |run.steps| + 9 + visits, Executed(run.steps) + 9 + executed)
  {
    hide ResultRoutes, IsControlAttempt, Resting, Executed, Hesitant, TallyOf;
    Rests(after, s, t, routes);
  }

  /** What a stage of the run starts from. */
  ghost predicate Stage(choices: seq<Choice>, routes: seq<Route>, n: nat, visits: nat, executed: nat, level: int,
                        published: Option<seq<Repository>>) {
    var run := After(PREPARED, choices);
    && Rested(run, routes, n, visits, executed)
    && TallyOf(run.steps).level == level && TallyOf(run.steps).published == published
    && NoneCompleted(TallyOf(run.steps).reviews) && (level >= 0 ==> TallyOf(run.steps).implemented)
  }

  /** The nodes that compute nothing but their plain output. */
  lemma ComputesPlain(run: Run, node: Node)
    requires node.Prepare? || node.AdoptPlan? || node.PrepareBlocked? || node.Blocked?
    ensures IsComputed(node) && ComputedOutput(run, node) == Some(Plain)
  {
    hide Offered, LatestOf;
  }

  lemma RedesignEdges(redesigned: Output)
    requires redesigned == Exit(true, false, true)
    ensures !IsComputed(Redesign) && NextOk(Redesign, redesigned) == Some(RedesignReady)
    ensures !IsComputed(RedesignReady) && !EntersWorkspace(RedesignReady)
    ensures NextOk(RedesignReady, Plain) == Some(AdoptPlan) && NextOk(AdoptPlan, Plain) == Some(Observe)
  {
  }

  lemma RedesignsIt(choices: seq<Choice>, t: Tally) returns (next: seq<Choice>)
    requires var run := After(PREPARED, choices);
             run.input == PREPARED && run.at == Some(Redesign) && TallyOf(run.steps) == t
    ensures Back(After(PREPARED, choices), After(PREPARED, next), Done(AdoptPlan, Plain), t, 3, 2)
  {
    hide After, TallyOf, Tallied, Executed, IsComputed, ComputedOutput, NextOk, EntersWorkspace;
    var redesigned := Exit(true, false, true);
    Workspaces(After(PREPARED, choices));
    RedesignEdges(redesigned);
    var mounted, ready := choices + [Returned(redesigned)], choices + [Returned(redesigned)] + [Returned(Plain)];
    Agent(PREPARED, choices, Redesign, redesigned, RedesignReady);
    Quiet(t, Done(Redesign, redesigned));
    Agent(PREPARED, mounted, RedesignReady, Plain, AdoptPlan);
    Quiet(t, Done(RedesignReady, Plain));
    ComputesPlain(After(PREPARED, ready), AdoptPlan);
    Compute(PREPARED, ready, AdoptPlan, Plain, Observe);
    Quiet(t, Done(AdoptPlan, Plain));
    next := ready + [Returned(NoOutput)];
  }

  lemma InVainAssesses()
    ensures Assesses(IN_VAIN, [REPOSITORY])
  {
    assert RepositoriesOf(IN_VAIN.entries) == [REPOSITORY];
    assert IN_VAIN.entries[0] in IN_VAIN.entries && !IN_VAIN.entries[0].succeeded;
    assert AssessmentOf(IN_VAIN.entries) == CommandError;
  }

  lemma InVainTally(t: Tally)
    requires t.level == 2 && NoneCompleted(t.reviews)
    ensures var after := t.(reviews := t.reviews + IN_VAIN.entries);
            Tallied(t, Done(AssessReview, IN_VAIN)) == after && NoneCompleted(after.reviews)
  {
  }

  /** The longest branch: a review whose invocation fails and is not repaired. */
  lemma ReviewsInVain(choices: seq<Choice>, t: Tally) returns (next: seq<Choice>, after: Tally)
    requires var run := After(PREPARED, choices);
             run.input == PREPARED && run.at == Some(SelectReviewCommands) && TallyOf(run.steps) == t
    requires t.level == 2 && t.published == Some([REPOSITORY]) && NoneCompleted(t.reviews)
    ensures Back(After(PREPARED, choices), After(PREPARED, next), Done(ReviewResult, UNREPAIRED), after, 6, 6)
    ensures after == t.(reviews := after.reviews) && NoneCompleted(after.reviews)
  {
    hide After, TallyOf, Tallied, Executed, NoneCompleted, Assesses, Selected, NextLevel;
    var selected := SelectsIt(choices, t);
    var assessing := Runs(selected);
    InVainAssesses();
    InVainTally(t);
    after := t.(reviews := t.reviews + IN_VAIN.entries);
    Agent(PREPARED, assessing, AssessReview, IN_VAIN, RepairReviewCommand);
    var assessed := assessing + [Returned(IN_VAIN)];
    Agent(PREPARED, assessed, RepairReviewCommand, Retry(true), ReviewResult);
    Quiet(after, Done(RepairReviewCommand, Retry(true)));
    next := assessed + [Returned(Retry(true))];
    WrapResult(next, ReviewResult, Done(RepairReviewCommand, Retry(true)));
    next := next + [Returned(NoOutput)];
  }

  lemma LongOffers(run: Run)
    ensures ResultRoutes(run, Prepare, Plain) == Some(AT_FIRST) || run.input != PREPARED
    ensures ResultRoutes(run, AdoptPlan, Plain) == Some(AT_FIRST)
    ensures ResultRoutes(run, ReviewResult, UNREPAIRED) == Some(AGAIN)
    ensures IsControlAttempt(Prepare) && IsControlAttempt(AdoptPlan) && IsControlAttempt(ReviewResult)
  {
  }

  /** The stages, each decided at the third try. */
  lemma LongRedesign(choices: seq<Choice>, n: nat, visits: nat, executed: nat) returns (next: seq<Choice>)
    requires Stage(choices, AT_FIRST, n, visits, executed, -1, None) && n < 30
    ensures Stage(next, AT_FIRST, n + 1, visits + 12, executed + 11, -1, None)
  {
    hide After, TallyOf, Executed, ResultRoutes, Resting, IsControlAttempt, NoneCompleted, Hesitant;
    var run, t := After(PREPARED, choices), TallyOf(After(PREPARED, choices).steps);
    RestingCounts(run, AT_FIRST, n);
    var entered, chosen := DecidesLate(PREPARED, choices, AT_FIRST, RedesignRoute, n);
    next := RedesignsIt(entered, chosen);
    LongOffers(After(PREPARED, next));
    BackAtRest(run, After(PREPARED, entered), After(PREPARED, next), Done(AdoptPlan, Plain), t, chosen, 3, 2,
               AT_FIRST);
  }

  lemma LongImplementation(choices: seq<Choice>, n: nat, visits: nat, executed: nat) returns (next: seq<Choice>)
    requires Stage(choices, AT_FIRST, n, visits, executed, -1, None) && n < 30
    ensures Stage(next, IMPLEMENTED, n + 1, visits + 11, executed + 11, 0, None)
  {
    hide After, TallyOf, Executed, ResultRoutes, Resting, IsControlAttempt, NoneCompleted, Hesitant;
    var run, t := After(PREPARED, choices), TallyOf(After(PREPARED, choices).steps);
    RestingCounts(run, AT_FIRST, n);
    var entered, chosen := DecidesLate(PREPARED, choices, AT_FIRST, Implementation, n);
    next := ImplementsIt(PREPARED, entered, chosen);
    Offers(After(PREPARED, next));
    Attempts();
    LevelKept(chosen, 0);
    BackAtRest(run, After(PREPARED, entered), After(PREPARED, next), Done(ClassifyImplementation, Assessed(Verify)),
               t, chosen.(implemented := true), 2, 2, IMPLEMENTED);
  }

  lemma LongVerification(choices: seq<Choice>, n: nat, visits: nat, executed: nat) returns (next: seq<Choice>)
    requires Stage(choices, IMPLEMENTED, n, visits, executed, 0, None) && n < 30
    ensures Stage(next, VERIFIED, n + 1, visits + 11, executed + 10, 1, None)
  {
    hide After, TallyOf, Executed, ResultRoutes, Resting, IsControlAttempt, NoneCompleted, Hesitant;
    var run, t := After(PREPARED, choices), TallyOf(After(PREPARED, choices).steps);
    RestingCounts(run, IMPLEMENTED, n);
    var entered, chosen := DecidesLate(PREPARED, choices, IMPLEMENTED, Verification, n);
    next := VerifiesIt(PREPARED, entered, chosen);
    Offers(After(PREPARED, next));
    Attempts();
    LevelKept(chosen, 1);
    BackAtRest(run, After(PREPARED, entered), After(PREPARED, next), Done(LocalVerificationReady, Plain),
               t, chosen.(level := 1), 2, 1, VERIFIED);
  }

  lemma LevelKept(t: Tally, level: int)
    ensures Hesitant(t) ==> Hesitant(t.(level := level))
    ensures Hesitant(t) ==> Hesitant(t.(published := Some([REPOSITORY]), level := level))
    ensures forall reviews :: Hesitant(t) ==> Hesitant(t.(reviews := reviews))
    ensures forall implemented :: Hesitant(t) ==> Hesitant(t.(implemented := implemented))
  {
  }

  lemma LongPublication(choices: seq<Choice>, n: nat, visits: nat, executed: nat) returns (next: seq<Choice>)
    requires Stage(choices, VERIFIED, n, visits, executed, 1, None) && n < 30
    ensures Stage(next, PUBLISHED, n + 1, visits + 12, executed + 12, 2, Some([REPOSITORY]))
  {
    hide After, TallyOf, Executed, ResultRoutes, Resting, IsControlAttempt, NoneCompleted, Hesitant, RouteTarget;
    var run, t := After(PREPARED, choices), TallyOf(After(PREPARED, choices).steps);
    RestingCounts(run, VERIFIED, n);
    var entered, chosen := DecidesLate(PREPARED, choices, VERIFIED, Publication, n);
    Targets();
    next := Pushes(entered, chosen);
    Offers(After(PREPARED, next));
    Attempts();
    LevelKept(chosen, 2);
    BackAtRest(run, After(PREPARED, entered), After(PREPARED, next),
               Done(PublicationResult, Wrapped(Publish, Pushed([REPOSITORY]))),
               t, chosen.(published := Some([REPOSITORY]), level := 2), 3, 3, PUBLISHED);
  }

  /** The routes on offer after `n` decisions. */
  function AfterReviews(n: nat): seq<Route> { if n >= MAX_CONTROL_DECISIONS then [BlockedRoute] else AGAIN }

  lemma LongReview(choices: seq<Choice>, routes: seq<Route>, n: nat, visits: nat, executed: nat)
      returns (next: seq<Choice>)
    requires Stage(choices, routes, n, visits, executed, 2, Some([REPOSITORY])) && n < 40 && Review in routes
    ensures Stage(next, AfterReviews(n + 1), n + 1, visits + 15, executed + 15, 2, Some([REPOSITORY]))
  {
    hide After, TallyOf, Executed, ResultRoutes, Resting, IsControlAttempt, NoneCompleted, Hesitant, RouteTarget;
    var run, t := After(PREPARED, choices), TallyOf(After(PREPARED, choices).steps);
    RestingCounts(run, routes, n);
    var entered, chosen := DecidesLate(PREPARED, choices, routes, Review, n);
    Targets();
    var after;
    next, after := ReviewsInVain(entered, chosen);
    LongOffers(After(PREPARED, next));
    LevelKept(chosen, 2);
    BackAtRest(run, After(PREPARED, entered), After(PREPARED, next), Done(ReviewResult, UNREPAIRED),
               t, after, 6, 6, AfterReviews(n + 1));
  }

  lemma LongStart()
    ensures Stage([Returned(NoOutput)], AT_FIRST, 0, 1, 1, -1, None)
  {
    hide After, TallyOf, Executed, ResultRoutes, Resting, IsControlAttempt;
    var run := After(PREPARED, [Returned(NoOutput)]);
    Prepares(PREPARED);
    PreparedTally();
    LongOffers(run);
    Rests(run, Done(Prepare, Plain), TallyOf(run.steps), AT_FIRST);
  }

  /** Redesigns, as long as the review is out of reach. */
  lemma {:induction false} Redesigning(n: nat) returns (choices: seq<Choice>)
    requires n <= 3
    ensures Stage(choices, AT_FIRST, n, 1 + 12 * n, 1 + 11 * n, -1, None)
  {
    hide Stage;
    if n == 0 {
      choices := [Returned(NoOutput)];
      LongStart();
    } else {
      choices := Redesigning(n - 1);
      choices := LongRedesign(choices, n - 1, 12 * n - 11, 11 * n - 10);
    }
  }

  /** With a decision to spare for it, the run goes for a publication and then for reviews in vain. */
  lemma {:induction false} Reviewing(n: nat) returns (choices: seq<Choice>)
    requires 4 <= n <= MAX_CONTROL_DECISIONS
    ensures Stage(choices, AfterReviews(n), n, 15 * n - 10, 15 * n - 11, 2, Some([REPOSITORY]))
  {
    hide Stage;
    if n == 4 {
      choices := [Returned(NoOutput)];
      LongStart();
      choices := LongImplementation(choices, 0, 1, 1);
      choices := LongVerification(choices, 1, 12, 12);
      choices := LongPublication(choices, 2, 23, 22);
      choices := LongReview(choices, PUBLISHED, 3, 35, 34);
    } else {
      choices := Reviewing(n - 1);
      choices := LongReview(choices, AGAIN, n - 1, 15 * n - 25, 15 * n - 26);
    }
  }

  /** The last three decisions fail, and the run ends blocked. */
  lemma GivesUp(choices: seq<Choice>, routes: seq<Route>, n: nat, visits: nat, executed: nat)
      returns (next: seq<Choice>)
    requires Rested(After(PREPARED, choices), routes, n, visits, executed)
    ensures var run := After(PREPARED, next);
            && run.at.None? && |run.steps| == visits + 12 && Executed(run.steps) == executed + 12
            && Decisions(run) == n
  {
    hide After, TallyOf, Executed, Ready, Resting, Tallied, Sight;
    var run := After(PREPARED, choices);
    RestingCounts(run, routes, n);
    var twice := FailsTwice(PREPARED, choices, routes, n);
    var after := After(PREPARED, twice);
    ReadyIs(after, routes);
    Observes(PREPARED, twice, routes);
    var first := twice + [Returned(NoOutput)];
    FailureTally(TallyOf(after.steps), Sight(after, routes), true);
    Visited(PREPARED, first, NOTHING, Undone(Decide), ControlFailure);
    var second := first + [NOTHING];
    FailureCounted(After(PREPARED, second), 2);
    Visited(PREPARED, second, Returned(NoOutput), Done(ControlFailure, Failure(true, 3)), PrepareBlocked);
    var third := second + [Returned(NoOutput)];
    next := EndsBlocked(third);
    TallyCounts(After(PREPARED, third));
  }

  lemma TallyCounts(run: Run)
    ensures TallyOf(run.steps).accepted == Decisions(run)
  {
  }

  lemma LastVisit(choices: seq<Choice>)
    requires After(PREPARED, choices).at == Some(Blocked)
    ensures var run, after := After(PREPARED, choices), After(PREPARED, choices + [Returned(NoOutput)]);
            && after.at.None? && Longer(run, after, 1, 1)
            && TallyOf(after.steps) == Tallied(TallyOf(run.steps), Done(Blocked, Plain))
  {
    hide After, Visit, TallyOf, Tallied, Executed, NextFailed;
    hide IsComputed, ComputedOutput;
    var run, s := After(PREPARED, choices), Done(Blocked, Plain);
    ComputesPlain(run, Blocked);
    ComputeVisit(run, Blocked, Plain);
    AfterOne(PREPARED, choices, Returned(NoOutput));
    Records(run, Returned(NoOutput), s);
    TallyStep(run.steps, s);
    ExecutedStep(run.steps, s);
  }

  lemma BlockedEndingEdges()
    ensures NextOk(PrepareBlocked, Plain) == Some(BlockedSummary) && NextOk(BlockedSummary, Plain) == Some(Blocked)
    ensures !IsComputed(BlockedSummary)
  {
  }

  lemma EndsBlocked(choices: seq<Choice>) returns (next: seq<Choice>)
    requires After(PREPARED, choices).at == Some(PrepareBlocked)
    ensures var run, after := After(PREPARED, choices), After(PREPARED, next);
            after.at.None? && Longer(run, after, 3, 3) && Decisions(after) == Decisions(run)
  {
    hide After, TallyOf, Tallied, Executed, IsComputed, ComputedOutput, NextOk;
    var run := After(PREPARED, choices);
    ComputesPlain(run, PrepareBlocked);
    BlockedEndingEdges();
    Compute(PREPARED, choices, PrepareBlocked, Plain, BlockedSummary);
    Agent(PREPARED, choices + [Returned(NoOutput)], BlockedSummary, Plain, Blocked);
    next := choices + [Returned(NoOutput)] + [Returned(Plain)];
    LastVisit(next);
    Quiet(TallyOf(run.steps), Done(PrepareBlocked, Plain));
    Quiet(TallyOf(run.steps), Done(BlockedSummary, Plain));
    Quiet(TallyOf(run.steps), Done(Blocked, Plain));
    next := next + [Returned(NoOutput)];
    TallyCounts(run);
    TallyCounts(After(PREPARED, next));
  }

  /** The bound of `VisitsWithin` is met for every number of decisions; the engine does not count the includes. */
  lemma TheLimitIsMet(n: nat) returns (choices: seq<Choice>)
    requires n <= MAX_CONTROL_DECISIONS
    ensures var run := After(PREPARED, choices);
            && run.at.None? && Decisions(run) == n && |run.steps| == Limit(n)
            && Executed(run.steps) == Limit(n) - if n <= 3 then n else 1
  {
    hide After, Executed, Resting, TallyOf, Decisions;
    if n <= 3 {
      choices := Redesigning(n);
      choices := GivesUp(choices, AT_FIRST, n, 1 + 12 * n, 1 + 11 * n);
    } else {
      choices := Reviewing(n);
      choices := GivesUp(choices, AfterReviews(n), n, 15 * n - 10, 15 * n - 11);
    }
  }

  lemma {:induction false} ExecutedWithin(steps: seq<Step>)
    ensures Executed(steps) <= |steps|
    decreases |steps|
  {
    if steps != [] { ExecutedWithin(steps[..|steps| - 1]); }
  }

  /** No run of at most `n` accepted decisions makes more visits than the engine allows. */
  ghost predicate StaysWithinTheEngine(n: nat) {
    forall input: Input, choices: seq<Choice> ::
      Decisions(After(input, choices)) <= n ==> Executed(After(input, choices).steps) <= MAX_STEPS
  }

  /** The engine's limit holds the runs of at most 21 accepted decisions, and of no number above that. */
  lemma StaysWithinIff(n: nat)
    ensures StaysWithinTheEngine(n) <==> n <= 21
  {
    hide After, Decisions, Executed;
    if n <= 21 {
      forall input: Input, choices: seq<Choice> | Decisions(After(input, choices)) <= n
        ensures Executed(After(input, choices).steps) <= MAX_STEPS
      {
        BoundedByDecisions(input, choices, 21);
        ExecutedWithin(After(input, choices).steps);
      }
    } else {
      var choices := TheLimitIsMet(22);
      assert Executed(After(PREPARED, choices).steps) == 331 && Decisions(After(PREPARED, choices)) <= n;
    }
  }
}
