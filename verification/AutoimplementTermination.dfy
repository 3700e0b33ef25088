/** Every run of the control machine ends: the decisions, the failures and the branch each run out. */
module AutoimplementTermination {
  import opened AutoimplementModel
  import opened AutoimplementGates

  // ---- The measure ---------------------------------------------------------------------------

  /** The most visits from a node of a branch until the branch is back at the loop. */
  function BranchLength(node: Node): nat {
    match node
    case FindPlan => 2
    case PlanDiscoveryResult => 1
    case Workspace => 2
    case WorkspaceReady => 1
    case WorkspaceBlocked => 1
    case Documentation => 2
    case DocumentationReady => 1
    case DocumentationBlocked => 1
    case Implement => 2
    case ClassifyImplementation => 1
    case Fix => 2
    case RepairResult => 1
    case LocalVerification => 2
    case LocalVerificationReady => 1
    case LocalVerificationBlocked => 1
    case RouteVerifiedWorkspace => 3
    case Publish => 2
    case FinalizeDefaultBranch => 2
    case PublicationResult => 1
    case SelectReviewCommands => 6
    case RunReview => 5
    case RouteRunReviewResult => 4
    case AssessReview => 3
    case RepairReviewCommand => 2
    case ReviewResult => 1
    case AddressP2 => 3
    case VerifyP2 => 2
    case P2Result => 1
    case InspectComments => 2
    case CommentsResult => 1
    case InspectCi => 6
    case RouteInspectCiResult => 5
    case TrackCi => 4
    case RouteTrackCiResult => 3
    case AssessTrackedCi => 2
    case RepairCiCommand => 2
    case OpportunisticTest => 1
    case CiResult => 1
    case FinalizeDelivery => 2
    case DeliveryResult => 1
    case Redesign => 3
    case RedesignReady => 2
    case RedesignBlocked => 1
    case AdoptPlan => 1
    case _ => 0
  }

  /** The nodes of the loop and of the two endings. */
  predicate InBranch(node: Node) { BranchLength(node) > 0 }

  function EndingLength(node: Node): nat {
    match node
    case PrepareCompleted => 3
    case CompletedSummary => 2
    case Finalize => 1
    case PrepareBlocked => 3
    case BlockedSummary => 2
    case Blocked => 1
    case _ => 0
  }

  /** At a lower level a selection finds no publication, and fails. */
  function Length(node: Node, level: int): nat {
    if node.SelectReviewCommands? && level < 2 then 1 else BranchLength(node)
  }

  /** The level that the rest of the branch can reach, as far as it opens longer branches. */
  function EndLevel(node: Node, level: int): int {
    match node
    case LocalVerification => if level == 0 then 1 else level
    case RouteVerifiedWorkspace => if level == 1 then 2 else level
    case Publish => if level == 1 then 2 else level
    case _ => level
  }

  /** What `left` decisions fall short of 15 visits each while the long branches wait for a publication. */
  function Saved(left: int, level: int): int {
    var most := if level < 0 then 11 else if level == 0 then 7 else if level == 1 then 3 else 0;
    if 3 * left < most then 3 * left else most
  }

  /**
   * The most visits from an observation, with `left` decisions that lead into a branch and `3 - failures` failures to
   * go. Such a decision costs up to 15: observe, decide, two rounds of failure, dispatch and a branch of six.
   */
  function Budget(left: int, failures: int, level: int): int { 15 * left + 12 - 3 * failures - Saved(left, level) }

  function Decisions(run: Run): nat { |AcceptedDecisions(run.steps)| }

  /** The last accepted decision is to end the run. */
  predicate Ending(run: Run) { LastRoute(run.steps) == Some(Complete) || LastRoute(run.steps) == Some(BlockedRoute) }

  /** At most `n` accepted decisions, not counting one that ends the run. */
  predicate Within(run: Run, n: nat) { Decisions(run) <= n || (Decisions(run) == n + 1 && Ending(run)) }

  /** The most visits from a node of a branch or an ending. */
  function Onward(node: Node, left: int, level: int): int {
    if InBranch(node) then Length(node, level) + Budget(left, 0, EndLevel(node, level)) else EndingLength(node)
  }

  /** The most visits the run still has while it stays within `n` decisions. */
  function Remaining(run: Run, n: nat): int {
    var left, failures, level := n - Decisions(run), FailedDecisions(run.steps), Level(run.steps);
    if run.at.None? then 0
    else
      match run.at.value
      case Prepare => 1 + Budget(left, failures, level)
      case Observe => Budget(left, failures, level)
      case Decide => Budget(left, failures, level) - 1
      case ControlFailure => if failures >= MAX_CONTROL_FAILURES then 4 else 1 + Budget(left, failures, level)
      case Dispatch => if Ending(run) || LastRoute(run.steps).None? then 4
                       else 1 + Onward(RouteTarget(LastRoute(run.steps).value), left, level)
      case node => Onward(node, left, level)
  }

  // ---- What every visit keeps ----------------------------------------------------------------

  /** An observation, once made, offers something; with no decision left to spare, only `blocked`. */
  ghost predicate Observed(run: Run) {
    && (Observe in run.outputs ==> run.outputs[Observe].Observation? && run.outputs[Observe].available != [])
    && (run.at == Some(Decide) || run.at == Some(ControlFailure) ==> Observe in run.outputs)
    && (run.at == Some(Decide) && Decisions(run) >= MAX_CONTROL_DECISIONS ==>
          forall r :: r in run.outputs[Observe].available ==> r == BlockedRoute)
  }

  /** How many failures a node can have seen. */
  predicate Counted(node: Node, failures: nat) {
    if node in {Prepare, Observe, Decide} then failures <= 2
    else if node.ControlFailure? then 1 <= failures <= 3
    else node.Dispatch? || InBranch(node) ==> failures == 0
  }

  ghost predicate Bounded(run: Run) {
    && Decisions(run) <= MAX_CONTROL_DECISIONS + 1
    && (Decisions(run) == MAX_CONTROL_DECISIONS + 1 ==> LastRoute(run.steps) == Some(BlockedRoute))
    && (run.at.Some? ==> Counted(run.at.value, FailedDecisions(run.steps)))
    && Observed(run)
    && (run.at == Some(Dispatch) ==>
          Decide in run.outputs && run.outputs[Decide].Decision?
            && LastRoute(run.steps) == Some(run.outputs[Decide].route))
    && (Ending(run) && run.at.Some? ==> run.at.value.Dispatch? || EndingLength(run.at.value) > 0)
  }

  /** How a step counts. */
  lemma CountStep(run: Run, choice: Choice)
    requires run.at.Some?
    ensures var s, after := Visit(run, run.at.value, choice), Perform(run, choice);
            && s.node == run.at.value
            && after.steps == run.steps + [s]
            && Decisions(after) == Decisions(run) + (if Accepted(s) then 1 else 0)
            && LastRoute(after.steps) == (if Accepted(s) then Some(s.output.route) else LastRoute(run.steps))
            && FailedDecisions(after.steps) == (if !s.node.Decide? then FailedDecisions(run.steps)
                                                else if s.outcome.Ok? then 0 else 1 + FailedDecisions(run.steps))
            && Level(after.steps) == NextLevel(Level(run.steps), s)
  {
    hide ComputedOutput, Allowed, IsComputed, EntersWorkspace, PreparedWorkspace, NextOk, NextFailed;
    var steps := Perform(run, choice).steps;
    assert steps[..|steps| - 1] == run.steps;
  }

  /** Edges inside a branch go down. */
  lemma BranchGoesDown(s: Step)
    requires InBranch(s.node)
    ensures NextOk(s.node, s.output).Some? ==> var next := NextOk(s.node, s.output).value;
              next.Observe? || (InBranch(next) && BranchLength(next) < BranchLength(s.node))
  {
    if BranchLength(s.node) <= 1 {
      ShortBranches(s);
    } else if BranchLength(s.node) <= 2 {
      MiddleBranches(s);
    } else {
      LongBranches(s);
    }
    hide BranchLength, NextOk;
  }

  lemma ShortBranches(s: Step)
    requires BranchLength(s.node) == 1
    ensures NextOk(s.node, s.output) == Some(Observe)
  {
  }

  lemma MiddleBranches(s: Step)
    requires BranchLength(s.node) == 2
    ensures NextOk(s.node, s.output).Some? ==> BranchLength(NextOk(s.node, s.output).value) == 1
  {
  }

  lemma LongBranches(s: Step)
    requires BranchLength(s.node) > 2
    ensures NextOk(s.node, s.output).Some? ==> 0 < BranchLength(NextOk(s.node, s.output).value) < BranchLength(s.node)
  {
  }

  /** A failed visit goes back to the loop or ends the run. */
  lemma FailuresReturn(node: Node)
    ensures NextFailed(node).Some? ==> NextFailed(node).value == if node.Decide? then ControlFailure else Observe
    ensures NextFailed(node).Some? && !node.Decide? ==> InBranch(node)
  {
  }

  /** Every node is in the loop, in a branch or in an ending. */
  lemma NodeKinds(node: Node)
    ensures node in {Prepare, Observe, Decide, ControlFailure, Dispatch} <==> !InBranch(node) && EndingLength(node) == 0
    ensures !(InBranch(node) && EndingLength(node) > 0)
  {
  }

  lemma RouteLengths(route: Route)
    ensures var next := RouteTarget(route);
            (InBranch(next) && BranchLength(next) <= 6)
              || (!InBranch(next) && EndingLength(next) == 3
                  && next !in {Prepare, Observe, Decide, ControlFailure, Dispatch})
    ensures InBranch(RouteTarget(route)) <==> route != Complete && route != BlockedRoute
  {
  }

  lemma ResultRoutesSome(run: Run, node: Node, output: Output)
    requires Observe in run.outputs ==> run.outputs[Observe].Observation? && run.outputs[Observe].available != []
    ensures ResultRoutes(run, node, output).Some? ==> ResultRoutes(run, node, output).value != []
  {
    SomeRoutes(run, output);
    hide InitialRoutes, AfterWorkspace, CiRoutes, PlanRoutes, ReviewRoutes, Inner;
  }

  lemma SomeRoutes(run: Run, output: Output)
    ensures InitialRoutes(run) != [] && AfterWorkspace(run) != [] && ReviewRoutes(output) != []
    ensures forall result :: CiRoutes(result) != [] && PlanRoutes(result) != []
  {
    hide HasPlan, DocumentationIsCurrent, PreparedWorkspace;
  }

  /** An observation always offers a route, and the last one offers only `blocked`. */
  lemma OffersSomething(run: Run)
    requires Observed(run) && Offered(run).Some?
    ensures Offered(run).value != []
    ensures Decisions(run) >= MAX_CONTROL_DECISIONS ==> forall r :: r in Offered(run).value ==> r == BlockedRoute
  {
    hide ResultRoutes, LatestAttempt, NoProgressAttempts;
    var latest := LatestAttempt(run.steps);
    if latest.None? {
      ResultRoutesSome(run, Prepare, NoOutput);
    } else {
      ResultRoutesSome(run, latest.value.node, latest.value.output);
    }
  }

  // ---- The budget ----------------------------------------------------------------------------

  /** Whatever level a branch reaches, it was expected. */
  predicate NoHigher(level: int, expected: int) { level <= expected || expected >= 2 }

  lemma SavedFalls(left: int, level: int, expected: int)
    requires NoHigher(level, expected)
    ensures Saved(left, level) >= Saved(left, expected)
  {
  }

  lemma SavedBounds(left: int, level: int)
    ensures left >= 0 ==> 0 <= Saved(left, level) <= 3 * left
  {
  }

  /** A branch reaches no higher level than expected. */
  lemma LevelsExpected(s: Step, before: int)
    requires InBranch(s.node) && -1 <= before <= 5
    ensures NoHigher(NextLevel(before, s), EndLevel(s.node, before))
    ensures s.outcome.Ok? && NextOk(s.node, s.output).Some? ==>
              NoHigher(EndLevel(NextOk(s.node, s.output).value, NextLevel(before, s)), EndLevel(s.node, before))
  {
    if before < 0 || before >= 2 { ExpectedAtEnds(s, before); } else { ExpectedBetween(s, before); }
    hide NextOk, NextLevel, EndLevel;
  }

  lemma ExpectedAtEnds(s: Step, before: int)
    requires InBranch(s.node) && -1 <= before <= 5 && (before < 0 || before >= 2)
    ensures NextLevel(before, s) >= before && (before < 0 ==> NextLevel(before, s) == before)
    ensures EndLevel(s.node, before) == before
    ensures before < 0 ==> forall next :: EndLevel(next, before) == before
  {
    hide NextOk, Passes;
  }

  lemma ExpectedBetween(s: Step, before: int)
    requires InBranch(s.node) && 0 <= before < 2
    ensures NoHigher(NextLevel(before, s), EndLevel(s.node, before))
    ensures s.outcome.Ok? && NextOk(s.node, s.output).Some? ==>
              NoHigher(EndLevel(NextOk(s.node, s.output).value, NextLevel(before, s)), EndLevel(s.node, before))
  {
    assert NextLevel(before, s) == if Passes(s, before + 1) then before + 1 else before;
    hide NextLevel;
  }

  lemma ObserveEnds(level: int)
    ensures EndLevel(Observe, level) == level
  {
  }

  /** Without a publication nothing is selected for review, and the run ends. */
  lemma SelectionEnds(run: Run, choice: Choice)
    requires run.at == Some(SelectReviewCommands) && Gated(run) && Level(run.steps) < 2
    ensures Perform(run, choice).at.None?
  {
    hide Level, Fresh, Offering, Offered, LatestAttempt, AcceptedDecisions, FailedDecisions, Delivered;
  }

  /** A route that is open leads to a branch that fits the budget. */
  lemma RouteFits(route: Route, phase: Phase, left: int)
    requires RouteOpen(route, phase) && InBranch(RouteTarget(route)) && left >= 1
    ensures var target, level := RouteTarget(route), if route.Implementation? || route.Repair? then 0 else phase.level;
            0 < Length(target, level) <= 6 + Saved(left - 1, EndLevel(target, level)) - Saved(left, phase.level)
  {
  }

  /** What `BranchSpends` and its neighbours say of one visit. */
  ghost predicate Spends(run: Run, after: Run, n: nat) {
    && Bounded(after)
    && (Within(run, n) && Within(after, n) ==> 0 <= Remaining(after, n) < Remaining(run, n))
  }

  lemma EndingGoesDown(s: Step)
    requires EndingLength(s.node) > 0
    ensures NextOk(s.node, s.output).Some? ==> var next := NextOk(s.node, s.output).value;
              !InBranch(next) && 0 < EndingLength(next) < EndingLength(s.node)
  {
    hide BranchLength;
    if NextOk(s.node, s.output).Some? { NodeKinds(NextOk(s.node, s.output).value); }
  }

  /** A visit in a branch or an ending keeps the counts. */
  lemma BranchBounded(run: Run, choice: Choice)
    requires run.at.Some? && Bounded(run)
    requires run.at.value !in {Prepare, Observe, Decide, ControlFailure, Dispatch}
    ensures Bounded(Perform(run, choice))
  {
    hide AcceptedDecisions, FailedDecisions, ComputedOutput, BranchLength, EndingLength, ResultRoutes, NextOk,
      NextFailed, Visit, Level, NextLevel, LastRoute;
    CountStep(run, choice);
    var s := Visit(run, run.at.value, choice);
    NodeKinds(s.node);
    FailuresReturn(s.node);
    if Perform(run, choice).at.Some? { NodeKinds(Perform(run, choice).at.value); }
    if InBranch(s.node) { BranchGoesDown(s); } else { EndingGoesDown(s); }
  }

  /** A visit in a branch spends the budget. */
  lemma BranchFits(run: Run, choice: Choice, n: nat)
    requires run.at.Some? && Bounded(run) && Gated(run) && Within(run, n) && InBranch(run.at.value)
    ensures 0 <= Remaining(Perform(run, choice), n) < Remaining(run, n)
  {
    hide AcceptedDecisions, FailedDecisions, ComputedOutput, BranchLength, EndingLength, ResultRoutes, NextOk,
      NextFailed, Visit, Saved, EndLevel, Level, NextLevel, Gated, LastRoute, Observed;
    CountStep(run, choice);
    var s, after := Visit(run, run.at.value, choice), Perform(run, choice);
    var left, before, level := n - Decisions(run), Level(run.steps), Level(after.steps);
    NodeKinds(s.node);
    FailuresReturn(s.node);
    SavedBounds(left, EndLevel(s.node, before));
    LevelsExpected(s, before);
    BranchGoesDown(s);
    assert left >= 0;
    if after.at.Some? {
      NodeKinds(after.at.value);
      assert EndLevel(Observe, level) == level by { ObserveEnds(level); }
      if s.node.SelectReviewCommands? && before < 2 { SelectionEnds(run, choice); }
      SavedFalls(left, EndLevel(after.at.value, level), EndLevel(s.node, before));
      SavedFalls(left, level, EndLevel(s.node, before));
      SavedBounds(left, level);
      SavedBounds(left, EndLevel(after.at.value, level));
    }
  }

  lemma BranchSpends(run: Run, choice: Choice, n: nat)
    requires run.at.Some? && Bounded(run) && Gated(run)
    requires run.at.value !in {Prepare, Observe, Decide, ControlFailure, Dispatch}
    ensures Spends(run, Perform(run, choice), n)
  {
    hide AcceptedDecisions, FailedDecisions, ComputedOutput, BranchLength, EndingLength, ResultRoutes, NextOk,
      NextFailed, Visit, Saved, EndLevel, Level, NextLevel, Gated, LastRoute;
    BranchBounded(run, choice);
    var s, after := Visit(run, run.at.value, choice), Perform(run, choice);
    assert s.node == run.at.value by { CountStep(run, choice); }
    NodeKinds(s.node);
    if InBranch(s.node) {
      if Within(run, n) { BranchFits(run, choice, n); }
    } else {
      FailuresReturn(s.node);
      EndingGoesDown(s);
      if after.at.Some? { NodeKinds(after.at.value); }
    }
  }

  /** So do the preparation, an observation, a decision and a retry. */
  lemma PrepareSpends(run: Run, choice: Choice, n: nat)
    requires run.at == Some(Prepare) && Bounded(run)
    ensures Spends(run, Perform(run, choice), n)
  {
    hide AcceptedDecisions, FailedDecisions, BranchLength, ResultRoutes, Offered, LatestAttempt, LastRoute,
      FingerprintOf, PreparedWorkspace, Level, Saved;
    CountStep(run, choice);
    NodeKinds(Prepare);
    SavedBounds(n - Decisions(run), Level(run.steps));
  }

  lemma ObserveSpends(run: Run, choice: Choice, n: nat)
    requires run.at == Some(Observe) && Bounded(run)
    ensures Spends(run, Perform(run, choice), n)
  {
    hide AcceptedDecisions, FailedDecisions, BranchLength, ResultRoutes, Offered, LatestAttempt, LastRoute,
      FingerprintOf, PreparedWorkspace, Level, Saved;
    CountStep(run, choice);
    NodeKinds(Observe);
    SavedBounds(n - Decisions(run), Level(run.steps));
    if Offered(run).Some? { OffersSomething(run); }
  }

  lemma RefusalSpends(run: Run, choice: Choice, n: nat)
    requires run.at == Some(Decide) && Bounded(run) && !Visit(run, Decide, choice).outcome.Ok?
    ensures Spends(run, Perform(run, choice), n)
  {
    hide AcceptedDecisions, FailedDecisions, BranchLength, ResultRoutes, Offered, LatestAttempt, LastRoute,
      FingerprintOf, PreparedWorkspace, Level, Saved;
    CountStep(run, choice);
    NodeKinds(Decide);
    SavedBounds(n - Decisions(run), Level(run.steps));
  }

  lemma RetryMade(run: Run, choice: Choice)
    requires run.at == Some(ControlFailure)
    ensures var s, after, failures := Visit(run, ControlFailure, choice), Perform(run, choice),
              FailedDecisions(run.steps);
            && !Accepted(s) && !s.node.Decide?
            && after.at == Some(if failures >= MAX_CONTROL_FAILURES then PrepareBlocked else Observe)
            && after.outputs == run.outputs[ControlFailure := s.output]
            && NextLevel(Level(run.steps), s) == Level(run.steps)
  {
    hide FailedDecisions, Level;
  }

  lemma FailureSpends(run: Run, choice: Choice, n: nat)
    requires run.at == Some(ControlFailure) && Bounded(run)
    ensures Spends(run, Perform(run, choice), n)
  {
    hide AcceptedDecisions, FailedDecisions, BranchLength, LastRoute, Level, Saved, Visit, Perform, NextLevel;
    RetryMade(run, choice);
    CountStep(run, choice);
    NodeKinds(ControlFailure);
    NodeKinds(PrepareBlocked);
    SavedBounds(n - Decisions(run), Level(run.steps));
  }

  lemma DecisionMade(run: Run, choice: Choice)
    requires run.at == Some(Decide) && Visit(run, Decide, choice).outcome.Ok?
    ensures var s, after := Visit(run, Decide, choice), Perform(run, choice);
            && Accepted(s) && Observe in run.outputs && run.outputs[Observe].Observation?
            && s.output.route in run.outputs[Observe].available
            && after.at == Some(Dispatch) && after.outputs == run.outputs[Decide := s.output]
  {
  }

  lemma DecisionLevel(level: int, s: Step)
    requires -1 <= level <= 5 && Accepted(s)
    ensures NextLevel(level, s) == if s.output.route.Implementation? || s.output.route.Repair? then 0 else level
  {
  }

  /** An accepted decision pays for the branch it leads into. */
  lemma DecisionSpends(run: Run, choice: Choice, n: nat)
    requires run.at == Some(Decide) && Bounded(run) && Gated(run) && Visit(run, Decide, choice).outcome.Ok?
    ensures Spends(run, Perform(run, choice), n)
  {
    hide AcceptedDecisions, FailedDecisions, BranchLength, LastRoute, PreparedWorkspace, Level, Saved, EndLevel,
      RouteOpen, Length, Visit, Perform, NextLevel, RouteTarget, EndingLength, NodeOpen, Fresh, LatestOf, Delivered,
      ResultRoutes;
    CountStep(run, choice);
    DecisionMade(run, choice);
    var s, after := Visit(run, run.at.value, choice), Perform(run, choice);
    var route, phase, left := s.output.route, PhaseOf(run), n - Decisions(run);
    DecisionLevel(phase.level, s);
    assert RouteOpen(route, phase);
    NodeKinds(Decide);
    NodeKinds(Dispatch);
    RouteLengths(route);
    SavedBounds(left, phase.level);
    if InBranch(RouteTarget(route)) && left >= 1 {
      RouteFits(route, phase, left);
      SavedBounds(left - 1, EndLevel(RouteTarget(route), Level(after.steps)));
    }
  }

  lemma LoopSpends(run: Run, choice: Choice, n: nat)
    requires run.at.Some? && Bounded(run) && Gated(run)
    requires run.at.value in {Prepare, Observe, Decide, ControlFailure}
    ensures Spends(run, Perform(run, choice), n)
  {
    hide Bounded, Perform, Remaining, Gated, Spends;
    match run.at.value
    case Prepare => PrepareSpends(run, choice, n);
    case Observe => ObserveSpends(run, choice, n);
    case Decide =>
      if Visit(run, Decide, choice).outcome.Ok? {
        DecisionSpends(run, choice, n);
      } else {
        RefusalSpends(run, choice, n);
      }
    case _ => FailureSpends(run, choice, n);
  }

  /** A dispatch leads where the decision paid for. */
  lemma DispatchSpends(run: Run, choice: Choice, n: nat)
    requires run.at == Some(Dispatch) && Bounded(run)
    ensures Spends(run, Perform(run, choice), n)
  {
    hide AcceptedDecisions, FailedDecisions, BranchLength, EndingLength, ResultRoutes, Offered, RouteTarget, Level,
      Saved, EndLevel, Length, LastRoute;
    CountStep(run, choice);
    var target := RouteTarget(run.outputs[Decide].route);
    RouteLengths(run.outputs[Decide].route);
    NodeKinds(target);
    SavedBounds(n - Decisions(run), EndLevel(target, Level(run.steps)));
  }

  /** Every visit spends the budget of a run, for as long as the run stays within `n` decisions. */
  lemma VisitSpends(run: Run, choice: Choice, n: nat)
    requires run.at.Some? && Bounded(run) && Gated(run)
    ensures Bounded(Perform(run, choice))
    ensures Within(run, n) && Within(Perform(run, choice), n) ==>
        0 <= Remaining(Perform(run, choice), n) < Remaining(run, n)
    ensures Within(Perform(run, choice), n) ==> Within(run, n)
    ensures |Perform(run, choice).steps| == |run.steps| + 1
  {
    hide Bounded, Perform, Remaining, Gated;
    if run.at == Some(Dispatch) {
      DispatchSpends(run, choice, n);
    } else if run.at.value in {Prepare, Observe, Decide, ControlFailure} {
      LoopSpends(run, choice, n);
    } else {
      BranchSpends(run, choice, n);
    }
    CountStep(run, choice);
    StaysWithin(run, choice, n);
  }

  lemma StaysWithin(run: Run, choice: Choice, n: nat)
    requires run.at.Some? && Bounded(run)
    ensures Within(Perform(run, choice), n) ==> Within(run, n)
  {
    CountStep(run, choice);
    hide Perform, AcceptedDecisions, LastRoute, Visit;
  }

  // ---- Every run -----------------------------------------------------------------------------

  /** The most visits of a run that stays within `n` decisions: 602 for 40 of them. */
  function Limit(n: nat): int { 1 + Budget(n, 0, -1) }

  lemma SomethingRemains(run: Run, n: nat)
    requires Bounded(run) && Within(run, n) && run.at.Some?
    ensures Remaining(run, n) > 0
  {
    hide Saved, EndLevel, BranchLength, AcceptedDecisions, FailedDecisions, LastRoute, Level;
    var left := n - Decisions(run);
    NodeKinds(run.at.value);
    SavedBounds(left, Level(run.steps));
    SavedBounds(left, EndLevel(run.at.value, Level(run.steps)));
    if run.at == Some(Dispatch) {
      var target := RouteTarget(LastRoute(run.steps).value);
      RouteLengths(LastRoute(run.steps).value);
      SavedBounds(left, EndLevel(target, Level(run.steps)));
    }
  }

  lemma StartsWithin(input: Input, n: nat)
    ensures Bounded(Start(input)) && Within(Start(input), n) && Remaining(Start(input), n) == Limit(n)
  {
  }

  /** A run that stays within `n` decisions makes at most `Limit(n)` visits, whatever the outside chooses. */
  lemma {:induction false} VisitsWithin(input: Input, choices: seq<Choice>, n: nat)
    ensures Bounded(After(input, choices))
    ensures Within(After(input, choices), n) ==>
        |After(input, choices).steps| + Remaining(After(input, choices), n) <= Limit(n)
    ensures After(input, choices).at.Some? ==> |After(input, choices).steps| == |choices|
    ensures After(input, choices).at.Some? && Within(After(input, choices), n) ==>
        Remaining(After(input, choices), n) > 0
    decreases |choices|
  {
    hide Remaining, Perform, Bounded, Within;
    var run := After(input, choices);
    if choices == [] {
      StartsWithin(input, n);
    } else {
      var before := After(input, choices[..|choices| - 1]);
      VisitsWithin(input, choices[..|choices| - 1], n);
      EveryRunIsGated(input, choices[..|choices| - 1]);
      if before.at.Some? { VisitSpends(before, choices[|choices| - 1], n); }
    }
    if run.at.Some? && Within(run, n) { SomethingRemains(run, n); }
  }

  /** An ended run has nothing left. */
  lemma EndedRemains(run: Run, n: nat)
    ensures run.at.None? ==> Remaining(run, n) == 0
  {
  }

  lemma RemainingWithin(run: Run, n: nat)
    requires Bounded(run) && Within(run, n)
    ensures Remaining(run, n) >= 0
  {
    hide Remaining, Bounded;
    if run.at.Some? { SomethingRemains(run, n); } else { EndedRemains(run, n); }
  }

  /** A run with at most `n` accepted decisions makes at most `Limit(n)` visits. */
  lemma BoundedByDecisions(input: Input, choices: seq<Choice>, n: nat)
    requires Decisions(After(input, choices)) <= n
    ensures |After(input, choices).steps| <= Limit(n)
  {
    hide After, Remaining, Decisions;
    assert Within(After(input, choices), n);
    VisitsWithin(input, choices, n);
    RemainingWithin(After(input, choices), n);
  }

  lemma AlwaysWithin(run: Run)
    requires Bounded(run)
    ensures Within(run, MAX_CONTROL_DECISIONS)
  {
  }

  /** No run makes more than 602 visits, so every run ends. */
  lemma EveryRunEnds(input: Input, choices: seq<Choice>)
    ensures |After(input, choices).steps| <= 602
    ensures |choices| >= 602 ==> After(input, choices).at.None?
    ensures After(input, choices).at.Some? ==> |After(input, choices).steps| == |choices|
  {
    hide After, Remaining, Within;
    VisitsWithin(input, choices, MAX_CONTROL_DECISIONS);
    AlwaysWithin(After(input, choices));
    RemainingWithin(After(input, choices), MAX_CONTROL_DECISIONS);
    assert Limit(MAX_CONTROL_DECISIONS) == 602;
  }

  /** At most 41 decisions are accepted, and the 41st is `blocked`. */
  lemma DecisionsRunOut(input: Input, choices: seq<Choice>)
    ensures var decisions := AcceptedDecisions(After(input, choices).steps);
            && |decisions| <= MAX_CONTROL_DECISIONS + 1
            && (|decisions| == MAX_CONTROL_DECISIONS + 1 ==> decisions[MAX_CONTROL_DECISIONS] == BlockedRoute)
  {
    VisitsWithin(input, choices, MAX_CONTROL_DECISIONS);
  }

  /** The third failed decision in a row is the last: the run is then on its way to its blocked ending. */
  lemma FailuresRunOut(input: Input, choices: seq<Choice>)
    requires FailedDecisions(After(input, choices).steps) >= MAX_CONTROL_FAILURES
    ensures var at := After(input, choices).at;
            at.None? || at.value == ControlFailure || EndingLength(at.value) > 0
  {
    VisitsWithin(input, choices, MAX_CONTROL_DECISIONS);
    var at := After(input, choices).at;
    if at.Some? { NodeKinds(at.value); }
  }

  /** No observation fails, and none offers an empty choice. */
  lemma EveryObservationOffers(input: Input, choices: seq<Choice>)
    requires After(input, choices).at == Some(Observe)
    ensures Offered(After(input, choices)).Some? && Offered(After(input, choices)).value != []
  {
    EveryRunIsGated(input, choices);
    VisitsWithin(input, choices, MAX_CONTROL_DECISIONS);
    ObservationOffersOpenRoutes(After(input, choices));
    OffersSomething(After(input, choices));
  }
}
