/** Phase gating: no decider can take the run past a phase that has not been passed since the last change. */
module AutoimplementGates {
  import opened AutoimplementModel

  // ---- Milestones ----------------------------------------------------------------------------

  /** The evidence that passes a phase: verified, published, reviewed, comments clear, CI clear. */
  predicate Passes(s: Step, phase: nat) {
    && s.outcome.Ok?
    && match phase
       case 1 => s.node.LocalVerification? && s.output.Exit? && s.output.ready
       case 2 => s.node.Publish?
       case 3 => || (s.node.AssessReview? && Finds(s.output, Clean))
                 || (s.node.SelectReviewCommands? && s.output == Selection([]))
                 || (s.node.VerifyP2? && s.output == Verified(true))
       case 4 => s.node.InspectComments? && s.output == Commented(ToCi)
       case 5 => (s.node.InspectCi? || s.node.AssessTrackedCi?) && CiClear(s.output)
       case _ => false
  }

  /** CI is green, or red only through failures the change did not cause. */
  predicate CiClear(output: Output) {
    output.CiReport? && (output.ci.Green? || (output.ci.Red? && !output.related && output.unrelated))
  }

  /** An accepted decision to change the code. */
  predicate Changes(s: Step) {
    Accepted(s) && (s.output.route.Implementation? || s.output.route.Repair?)
  }

  /** How many phases have been passed, in order, since the last accepted change; -1 before the first. */
  function Level(steps: seq<Step>): (level: int)
    ensures -1 <= level <= 5
  {
    if steps == [] then -1 else NextLevel(Level(steps[..|steps| - 1]), steps[|steps| - 1])
  }

  function NextLevel(level: int, s: Step): (next: int)
    requires -1 <= level <= 5
    ensures -1 <= next <= 5
  {
    if Changes(s) then 0 else if 0 <= level < 5 && Passes(s, level + 1) then level + 1 else level
  }

  predicate Delivers(s: Step) { s.node.FinalizeDefaultBranch? || s.node.FinalizeDelivery? }

  /** Whether the branch of the last accepted decision has reported a completed delivery. */
  predicate Delivered(steps: seq<Step>) {
    && steps != []
    && var s := steps[|steps| - 1];
       if Accepted(s) then false
       else if Delivers(s) then s.outcome.Ok? && s.output == Status(true)
       else Delivered(steps[..|steps| - 1])
  }

  /** Step positions at which phases 1 .. n were passed, each after the one before, and all after `from`. */
  ghost predicate PassedInOrder(steps: seq<Step>, from: nat, at: seq<nat>, n: nat) {
    && |at| == n
    && (forall k :: 0 <= k < n ==> from < at[k] < |steps| && Passes(steps[at[k]], k + 1))
    && (forall j, k :: 0 <= j < k < n ==> at[j] < at[k])
  }

  /** A level is the record of that many phases passed in order since the last accepted change. */
  lemma {:induction false} LevelMeans(steps: seq<Step>) returns (from: nat, at: seq<nat>)
    requires Level(steps) >= 0
    ensures from < |steps| && Changes(steps[from])
    ensures forall k :: from < k < |steps| ==> !Changes(steps[k])
    ensures PassedInOrder(steps, from, at, Level(steps))
    decreases |steps|
  {
    var n := |steps| - 1;
    if Changes(steps[n]) {
      from, at := n, [];
    } else {
      from, at := LevelMeans(steps[..n]);
      if Level(steps) > Level(steps[..n]) { at := at + [n]; }
    }
  }

  /** A delivery was completed by a step that no accepted decision has followed. */
  lemma {:induction false} DeliveredMeans(steps: seq<Step>) returns (at: nat)
    requires Delivered(steps)
    ensures at < |steps| && Delivers(steps[at]) && steps[at].outcome.Ok? && steps[at].output == Status(true)
    ensures forall k :: at < k < |steps| ==> !Accepted(steps[k])
    decreases |steps|
  {
    var n := |steps| - 1;
    if Delivers(steps[n]) { at := n; } else { at := DeliveredMeans(steps[..n]); }
  }

  // ---- Gates ---------------------------------------------------------------------------------

  /** What the gates look at: the level, the workspace at hand, and whether the delivery is complete. */
  datatype Phase = Phase(level: int, direct: bool, prepared: bool, delivered: bool)

  function PhaseOf(run: Run): Phase {
    var workspace := PreparedWorkspace(run);
    Phase(Level(run.steps), workspace == Some(true), workspace.Some?, Delivered(run.steps))
  }

  /** The phase a route asks for. Routes that prepare the first change are open only before it. */
  predicate RouteOpen(route: Route, phase: Phase) {
    match route
    case PlanDiscovery => phase.level == -1
    case WorkspaceRoute => phase.level == -1
    case DocumentationRoute => phase.level == -1 && phase.prepared
    case Implementation => phase.prepared
    case Repair => phase.level >= 0
    case Verification => phase.level >= 0
    case Publication => phase.level >= 1
    case Review => phase.level >= 2 || (phase.direct && phase.level >= 1)
    case AddressP2Route => phase.level >= 2
    case Comments => phase.level >= 3
    case Ci => phase.level >= 4
    case Delivery => phase.level >= 5
    case Complete => phase.delivered && (phase.level >= 5 || (phase.direct && phase.level >= 1))
    case RedesignRoute => true
    case BlockedRoute => true
  }

  /** The nodes that prepare the first change. */
  predicate Early(node: Node) {
    node in {Prepare, FindPlan, PlanDiscoveryResult, Workspace, WorkspaceReady, WorkspaceBlocked,
             Documentation, DocumentationReady, DocumentationBlocked}
  }

  /** The level a node needs. */
  function NodeLevel(node: Node, direct: bool): int {
    match node
    case Implement => 0
    case ClassifyImplementation => 0
    case Fix => 0
    case RepairResult => 0
    case LocalVerification => 0
    case LocalVerificationReady => 1
    case LocalVerificationBlocked => 0
    case RouteVerifiedWorkspace => 1
    case Publish => 1
    case FinalizeDefaultBranch => 1
    case PublicationResult => 1
    case SelectReviewCommands => if direct then 1 else 2
    case RunReview => 2
    case RouteRunReviewResult => 2
    case RepairReviewCommand => 2
    case AssessReview => 2
    case ReviewResult => 2
    case AddressP2 => 2
    case VerifyP2 => 2
    case P2Result => 2
    case InspectComments => 3
    case CommentsResult => 3
    case InspectCi => 4
    case RouteInspectCiResult => 4
    case TrackCi => 4
    case RouteTrackCiResult => 4
    case RepairCiCommand => 4
    case AssessTrackedCi => 4
    case OpportunisticTest => 4
    case CiResult => 4
    case FinalizeDelivery => 5
    case DeliveryResult => 5
    case _ => -1
  }

  predicate NeedsWorkspace(node: Node) {
    node in {WorkspaceReady, DocumentationReady, DocumentationBlocked, RedesignReady, AdoptPlan}
  }

  /** The phase a node is entered at. */
  predicate NodeOpen(node: Node, phase: Phase) {
    && (Early(node) ==> phase.level == -1)
    && phase.level >= NodeLevel(node, phase.direct)
    && (NeedsWorkspace(node) ==> phase.prepared)
    && (node.Publish? ==> !phase.direct)
    && (node.FinalizeDefaultBranch? ==> phase.direct)
  }

  ghost predicate AllOpen(routes: seq<Route>, phase: Phase) {
    forall r :: r in routes ==> RouteOpen(r, phase)
  }

  /** The newest step, of any node. */
  function Newest(steps: seq<Step>): Step
    requires steps != []
  {
    steps[|steps| - 1]
  }

  /** The nodes that read the step their branch ended with. */
  predicate ReadsBranch(node: Node) {
    node in {PublicationResult, ReviewResult, P2Result, CommentsResult, RouteInspectCiResult, CiResult, DeliveryResult}
  }

  /** The step such a node reads. */
  function Source(steps: seq<Step>, node: Node): Option<Step> {
    if node.CiResult? then LatestOf(steps, {AssessTrackedCi, RepairCiCommand, InspectCi})
    else if steps == [] then None
    else Some(Newest(steps))
  }

  /** `s` ends the branch of `node`, and what it found is in the phase. */
  predicate Ends(node: Node, s: Step, phase: Phase) {
    match node
    case PublicationResult => || (s.node.Publish? && s.output.Pushed? && phase.level >= 2)
                              || (s.node.FinalizeDefaultBranch? && phase.direct
                                  && (s.output == Status(true) ==> phase.delivered))
    case ReviewResult => || (s.node.AssessReview? && (Finds(s.output, Clean) ==> phase.level >= 3))
                         || s.node.RepairReviewCommand?
                         || (s.node.SelectReviewCommands? && phase.level >= 3)
    case P2Result => s.node.VerifyP2? && (s.output == Verified(true) ==> phase.level >= 3)
    case CommentsResult => s.node.InspectComments? && (s.output == Commented(ToCi) ==> phase.level >= 4)
    case RouteInspectCiResult => s.node.InspectCi? && (CiClear(s.output) ==> phase.level >= 5)
    case CiResult => CiClear(s.output) ==> phase.level >= 5
    case DeliveryResult => s.node.FinalizeDelivery? && (s.output == Status(true) ==> phase.delivered)
    case _ => true
  }

  /** A result node reads a step that ended its branch just now. */
  predicate Fresh(run: Run, node: Node) {
    ReadsBranch(node) ==> Source(run.steps, node).Some? && Ends(node, Source(run.steps, node).value, PhaseOf(run))
  }

  /** The visits an observation follows. */
  predicate Returns(s: Step) {
    (s.outcome.Ok? && NextOk(s.node, s.output) == Some(Observe))
      || (!s.outcome.Ok? && NextFailed(s.node) == Some(Observe))
  }

  /** What an observation is about to offer, what the decider may choose from, and what it chose are open. */
  ghost predicate Offering(run: Run) {
    var phase := PhaseOf(run);
    && (run.at == Some(Observe) ==>
          && run.steps != [] && Returns(Newest(run.steps))
          && var routes := ResultRoutes(run, Newest(run.steps).node, Newest(run.steps).output);
             routes.Some? ==> AllOpen(routes.value, phase))
    && (run.at == Some(Decide) || run.at == Some(ControlFailure) ==>
          Observe in run.outputs && run.outputs[Observe].Observation? && AllOpen(run.outputs[Observe].available, phase))
    && (run.at == Some(Dispatch) ==>
          && Decide in run.outputs && run.outputs[Decide].Decision?
          && NodeOpen(RouteTarget(run.outputs[Decide].route), phase))
  }

  /** What the machine keeps at every visit. */
  ghost predicate Gated(run: Run) {
    && (run.at.Some? ==> NodeOpen(run.at.value, PhaseOf(run)) && Fresh(run, run.at.value))
    && (PhaseOf(run).level >= 0 ==> PhaseOf(run).prepared)
    && (LatestOf(run.steps, {Publish}).Some? ==> PhaseOf(run).level >= 0 && !PhaseOf(run).direct)
    && Offering(run)
  }

  // ---- One visit -----------------------------------------------------------------------------

  /** How a step moves the phase. Only a visit of the workspace mount changes the workspace at hand. */
  predicate Moves(s: Step, before: Phase, after: Phase) {
    && -1 <= before.level <= 5
    && after.level == NextLevel(before.level, s)
    && after.delivered == (if Accepted(s) then false
                           else if Delivers(s) then s.outcome.Ok? && s.output == Status(true) else before.delivered)
    && (!s.node.Workspace? ==> after.direct == before.direct && after.prepared == before.prepared)
    && (s.node.Workspace? && s.outcome.Ok? && s.output.Exit? && s.output.ready ==> after.prepared)
    && (EntersWorkspace(s.node) && s.outcome.Ok? ==> before.prepared)
    && (s.node.RouteVerifiedWorkspace? && s.outcome.Ok? ==> s.output == Mode(before.direct))
  }

  lemma PhaseStep(run: Run, choice: Choice)
    requires run.at.Some?
    ensures var s := Visit(run, run.at.value, choice);
            && Perform(run, choice).steps == run.steps + [s] && s.node == run.at.value
            && Newest(Perform(run, choice).steps) == s
            && Moves(s, PhaseOf(run), PhaseOf(Perform(run, choice)))
  {
    var s := Visit(run, run.at.value, choice);
    var steps := run.steps + [s];
    assert steps[..|steps| - 1] == run.steps;
  }

  lemma LatestOfStep(steps: seq<Step>, s: Step, nodes: set<Node>)
    ensures LatestOf(steps + [s], nodes) == if s.node in nodes then Some(s) else LatestOf(steps, nodes)
  {
    assert (steps + [s])[..|steps|] == steps;
  }

  /** Outside the decider a step raises the level, by one phase, or leaves it; it leaves it at -1. */
  lemma LevelMoves(s: Step, before: Phase, after: Phase)
    requires Moves(s, before, after) && !s.node.Decide?
    ensures after.level >= before.level && (before.level == -1 ==> after.level == -1)
    ensures forall n: nat :: 1 <= n <= 5 && before.level >= n - 1 && Passes(s, n) ==> after.level >= n
  {
  }

  /** No edge asks for a higher level than the node it leaves, but where that node passed a phase. */
  lemma EdgeLevels(s: Step, direct: bool)
    requires s.outcome.Ok? && !s.node.Dispatch? && !s.node.Decide?
    requires s.node.SelectReviewCommands? ==> !direct
    ensures var next := NextOk(s.node, s.output);
            next.Some? ==> NodeLevel(next.value, direct) <= NodeLevel(s.node, direct)
                           || (Passes(s, 1) && NodeLevel(next.value, direct) == 1)
  {
  }

  lemma EdgeWorkspaces(s: Step, before: Phase, after: Phase)
    requires s.outcome.Ok? && !s.node.Dispatch? && !s.node.Decide?
    requires Moves(s, before, after) && NodeOpen(s.node, before)
    ensures var next := NextOk(s.node, s.output);
            next.Some? ==> && (Early(next.value) ==> Early(s.node))
                           && (NeedsWorkspace(next.value) ==> after.prepared)
                           && (next.value.Publish? ==> !after.direct)
                           && (next.value.FinalizeDefaultBranch? ==> after.direct)
  {
    hide NodeLevel, NextLevel;
  }

  /** The edges of the graph lead from open nodes to open nodes. */
  lemma EdgesStayOpen(s: Step, before: Phase, after: Phase)
    requires NodeOpen(s.node, before) && Moves(s, before, after)
    requires !s.node.Dispatch? && !s.node.Decide? && s.outcome.Ok?
    requires s.node.SelectReviewCommands? ==> !before.direct
    ensures NextOk(s.node, s.output).Some? ==> NodeOpen(NextOk(s.node, s.output).value, after)
  {
    LevelMoves(s, before, after);
    EdgeWorkspaces(s, before, after);
    EdgeLevels(s, before.direct);
    assert Passes(s, 1) ==> before.level >= 0;
    assert s.node.Workspace? ==> NextOk(s.node, s.output).Some? ==>
        NextOk(s.node, s.output).value in {WorkspaceReady, WorkspaceBlocked};
    hide NextLevel, NextOk;
  }

  /** A visit of a node whose gate is open leads to a node whose gate is open. */
  lemma NextNodeOpen(run: Run, choice: Choice)
    requires run.at.Some? && !run.at.value.Dispatch? && !run.at.value.Decide?
    requires NodeOpen(run.at.value, PhaseOf(run)) && (PhaseOf(run).level >= 0 ==> PhaseOf(run).prepared)
    requires LatestOf(run.steps, {Publish}).Some? ==> PhaseOf(run).level >= 0 && !PhaseOf(run).direct
    ensures var after := Perform(run, choice);
            && (after.at.Some? ==> NodeOpen(after.at.value, PhaseOf(after)))
            && (PhaseOf(after).level >= 0 ==> PhaseOf(after).prepared)
  {
    hide PhaseOf, Level, Delivered, LatestOf, LatestAttempt, AcceptedDecisions, Offered, InitialRoutes,
        FailedDecisions, HasPlan, NextOk;
    PhaseStep(run, choice);
    var s := Visit(run, run.at.value, choice);
    assert s.node.SelectReviewCommands? && s.outcome.Ok? ==> LatestOf(run.steps, {Publish}).Some?;
    if s.outcome.Ok? { EdgesStayOpen(s, PhaseOf(run), PhaseOf(Perform(run, choice))); }
    assert !s.outcome.Ok? && NextFailed(s.node).Some? ==> NextFailed(s.node) in {Some(Observe), Some(ControlFailure)};
  }

  /** The edges into a result node leave the steps whose evidence it reports. */
  lemma EdgesEnd(s: Step, before: Phase, after: Phase)
    requires NodeOpen(s.node, before) && Moves(s, before, after)
    requires !s.node.Dispatch? && !s.node.Decide? && s.outcome.Ok?
    requires s.node.SelectReviewCommands? ==> !before.direct && s.output.Selection?
    requires (s.node.RepairCiCommand? ==> s.output.Retry?) && (s.node.Publish? ==> s.output.Pushed?)
    requires !s.node.RouteInspectCiResult?
    ensures var next := NextOk(s.node, s.output);
            next.Some? && ReadsBranch(next.value) ==>
              Ends(next.value, s, after)
              && (next.value.CiResult? ==> s.node in {AssessTrackedCi, RepairCiCommand, InspectCi})
  {
    LevelMoves(s, before, after);
    assert s.outcome.Ok? ==>
        && (s.node.Publish? ==> Passes(s, 2))
        && (s.node.AssessReview? && Finds(s.output, Clean) ==> Passes(s, 3))
        && (s.node.SelectReviewCommands? && s.output == Selection([]) ==> Passes(s, 3))
        && (s.node.VerifyP2? && s.output == Verified(true) ==> Passes(s, 3))
        && (s.node.InspectComments? && s.output == Commented(ToCi) ==> Passes(s, 4))
        && ((s.node.InspectCi? || s.node.AssessTrackedCi?) && CiClear(s.output) ==> Passes(s, 5));
    hide NextLevel, Passes;
  }

  /** A branch's result node is entered from the step whose evidence it reports. */
  lemma NextFresh(run: Run, choice: Choice)
    requires run.at.Some? && !run.at.value.Dispatch? && !run.at.value.Decide?
    requires NodeOpen(run.at.value, PhaseOf(run)) && Fresh(run, run.at.value)
    requires LatestOf(run.steps, {Publish}).Some? ==> !PhaseOf(run).direct
    ensures var after := Perform(run, choice); after.at.Some? ==> Fresh(after, after.at.value)
  {
    hide PhaseOf, Level, Delivered, LatestOf, LatestAttempt, AcceptedDecisions, Offered, InitialRoutes,
        FailedDecisions, HasPlan, NextLevel, Ends, NodeOpen;
    PhaseStep(run, choice);
    var s, after := Visit(run, run.at.value, choice), Perform(run, choice);
    LatestOfStep(run.steps, s, {AssessTrackedCi, RepairCiCommand, InspectCi});
    if run.at.value.RouteInspectCiResult? {
      CiSourceKept(run, s, PhaseOf(after));
    } else if s.outcome.Ok? {
      EdgesEnd(s, PhaseOf(run), PhaseOf(after));
    }
  }

  /** Routing an inspection leaves it the step the CI result reads. */
  lemma CiSourceKept(run: Run, s: Step, after: Phase)
    requires Fresh(run, RouteInspectCiResult) && s.node.RouteInspectCiResult? && Moves(s, PhaseOf(run), after)
    ensures Source(run.steps + [s], CiResult).Some? && Ends(CiResult, Source(run.steps + [s], CiResult).value, after)
  {
    hide PhaseOf, Level, Delivered;
    LevelMoves(s, PhaseOf(run), after);
    assert run.steps == run.steps[..|run.steps| - 1] + [Newest(run.steps)];
    LatestOfStep(run.steps[..|run.steps| - 1], Newest(run.steps), {AssessTrackedCi, RepairCiCommand, InspectCi});
    LatestOfStep(run.steps, s, {AssessTrackedCi, RepairCiCommand, InspectCi});
  }

  lemma ReturnsAreAttempts(s: Step)
    requires Returns(s)
    ensures IsControlAttempt(s.node) && !s.node.Decide?
    ensures s.node !in {Workspace, Documentation, LocalVerification, Redesign}
  {
  }

  /** The routes offered for a recorded result are open once that result is in the phase. */
  lemma ResultsOfferOpenRoutes(run: Run, s: Step, phase: Phase)
    requires Returns(s) && !s.node.ControlFailure? && !ReadsBranch(s.node)
    requires NodeOpen(s.node, phase) && phase.prepared == PreparedWorkspace(run).Some?
        && (phase.level >= 0 ==> phase.prepared)
    ensures ResultRoutes(run, s.node, s.output).Some? ==> AllOpen(ResultRoutes(run, s.node, s.output).value, phase)
  {
    hide HasPlan, DocumentationIsCurrent, PreparedWorkspace;
    ReturnsAreAttempts(s);
  }

  lemma BranchesOfferOpenRoutes(run: Run, s: Step, src: Step, phase: Phase)
    requires ReadsBranch(s.node) && !s.node.RouteInspectCiResult?
    requires s.outcome.Ok? && s.output == Wrapped(src.node, src.output) && Ends(s.node, src, phase)
    requires NodeOpen(s.node, phase) && phase.prepared
    ensures ResultRoutes(run, s.node, s.output).Some? && AllOpen(ResultRoutes(run, s.node, s.output).value, phase)
  {
  }

  lemma NewestIsLatest(steps: seq<Step>)
    requires steps != [] && IsControlAttempt(Newest(steps).node)
    ensures LatestAttempt(steps) == Some(Newest(steps))
  {
  }

  /** Only the result of an include that has not exited cannot be read. */
  lemma OnlyMountsThrow(run: Run, node: Node, output: Output)
    requires node !in {Workspace, Documentation, LocalVerification, Redesign}
    ensures ResultRoutes(run, node, output).Some?
  {
    hide InitialRoutes, ReviewRoutes, CiRoutes;
  }

  /** An observation succeeds and offers open routes only. */
  lemma ObservationOffersOpenRoutes(run: Run)
    requires run.at == Some(Observe) && Offering(run)
    ensures Offered(run).Some? && AllOpen(Offered(run).value, PhaseOf(run))
  {
    hide PhaseOf, ResultRoutes, LatestAttempt, AcceptedDecisions, MustDrop, IsControlAttempt;
    ReturnsAreAttempts(Newest(run.steps));
    NewestIsLatest(run.steps);
    OnlyMountsThrow(run, Newest(run.steps).node, Newest(run.steps).output);
  }

  /** A visit of a branch node that returns leaves an observation open routes to offer. */
  lemma BranchOffering(run: Run, choice: Choice)
    requires run.at.Some? && run.at.value !in {Observe, Decide, ControlFailure, Dispatch}
    requires NodeOpen(run.at.value, PhaseOf(run)) && Fresh(run, run.at.value)
    requires PhaseOf(run).level >= 0 ==> PhaseOf(run).prepared
    ensures Offering(Perform(run, choice))
  {
    hide PhaseOf, Level, Delivered, LatestOf, LatestAttempt, AcceptedDecisions, Offered, InitialRoutes, HasPlan,
      NextLevel,
      ResultRoutes, IsControlAttempt, Ends, Passes;
    PhaseStep(run, choice);
    var s, after := Visit(run, run.at.value, choice), Perform(run, choice);
    var before, phase := PhaseOf(run), PhaseOf(after);
    LevelMoves(s, before, phase);
    assert after.at == if s.outcome.Ok? then NextOk(s.node, s.output) else NextFailed(s.node);
    OnlyTheLoopDecides(s);
    if Returns(s) {
      ReturnsAreAttempts(s);
      ReturnsKeepPhase(s, before, phase);
      if ReadsBranch(s.node) {
        var src := Source(run.steps, s.node).value;
        BranchReads(run, choice);
        EndsStays(s, src, before, phase);
        BranchesOfferOpenRoutes(after, s, src, phase);
      } else {
        assert phase.prepared == PreparedWorkspace(after).Some? by { PreparedIs(after); }
        ResultsOfferOpenRoutes(after, s, phase);
      }
    }
  }

  lemma PreparedIs(run: Run)
    ensures PhaseOf(run).prepared == PreparedWorkspace(run).Some?
  {
  }

  lemma OnlyTheLoopDecides(s: Step)
    requires s.node !in {Observe, Decide, ControlFailure, Dispatch}
    ensures s.outcome.Ok? ==> NextOk(s.node, s.output) !in {Some(Decide), Some(ControlFailure), Some(Dispatch)}
    ensures NextFailed(s.node) !in {Some(Decide), Some(ControlFailure), Some(Dispatch)}
  {
  }

  lemma ReturnsKeepPhase(s: Step, before: Phase, after: Phase)
    requires Returns(s) && Moves(s, before, after) && NodeOpen(s.node, before) && !s.node.Decide?
    requires before.level >= 0 ==> before.prepared
    ensures NodeOpen(s.node, after) && (after.level >= 0 ==> after.prepared)
    ensures ReadsBranch(s.node) ==> after.prepared
  {
    LevelMoves(s, before, after);
  }

  lemma EndsStays(s: Step, src: Step, before: Phase, after: Phase)
    requires ReadsBranch(s.node) && Moves(s, before, after) && Ends(s.node, src, before)
    ensures Ends(s.node, src, after)
  {
    LevelMoves(s, before, after);
  }

  /** The newest step of a branch's sources is the one it ended with. */
  lemma NewestOf(steps: seq<Step>, nodes: set<Node>)
    requires steps != [] && Newest(steps).node in nodes
    ensures LatestOf(steps, nodes) == Some(Newest(steps))
  {
  }

  /** The nodes whose steps a result node reads. */
  function Sources(node: Node): set<Node> {
    match node
    case PublicationResult => {FinalizeDefaultBranch, Publish}
    case ReviewResult => {AssessReview, RepairReviewCommand, SelectReviewCommands}
    case P2Result => {VerifyP2}
    case CommentsResult => {InspectComments}
    case CiResult => {AssessTrackedCi, RepairCiCommand, InspectCi}
    case DeliveryResult => {FinalizeDelivery}
    case _ => {}
  }

  lemma BranchWraps(run: Run, choice: Choice)
    requires run.at.Some? && ReadsBranch(run.at.value) && !run.at.value.RouteInspectCiResult?
    requires LatestOf(run.steps, Sources(run.at.value)).Some?
    ensures var s, src := Visit(run, run.at.value, choice), LatestOf(run.steps, Sources(run.at.value)).value;
            s.outcome.Ok? && s.output == Wrapped(src.node, src.output)
  {
    hide Offered, LatestAttempt, LatestOf, AcceptedDecisions, FailedDecisions, PublishedBy, PreparedWorkspace;
  }

  lemma EndsAtSource(node: Node, s: Step, phase: Phase)
    requires ReadsBranch(node) && !node.RouteInspectCiResult? && !node.CiResult? && Ends(node, s, phase)
    ensures s.node in Sources(node)
  {
  }

  /** A result node wraps the step its branch ended with. */
  lemma BranchReads(run: Run, choice: Choice)
    requires run.at.Some? && ReadsBranch(run.at.value) && !run.at.value.RouteInspectCiResult?
        && Fresh(run, run.at.value)
    ensures var s, src := Visit(run, run.at.value, choice), Source(run.steps, run.at.value).value;
            s.outcome.Ok? && s.output == Wrapped(src.node, src.output)
  {
    hide Visit, PhaseOf, LatestOf, Ends;
    if !run.at.value.CiResult? {
      EndsAtSource(run.at.value, Newest(run.steps), PhaseOf(run));
      NewestOf(run.steps, Sources(run.at.value));
    }
    BranchWraps(run, choice);
  }

  lemma RouteLeadsOpen(route: Route, s: Step, before: Phase, after: Phase)
    requires RouteOpen(route, before) && Accepted(s) && s.output.route == route && Moves(s, before, after)
    requires before.level >= 0 ==> before.prepared
    ensures NodeOpen(RouteTarget(route), after) && !ReadsBranch(RouteTarget(route))
    ensures NodeOpen(Dispatch, after) && !ReadsBranch(Dispatch)
    ensures after.level >= 0 ==> after.prepared
    ensures after.level == -1 ==> before.level == -1
  {
  }

  lemma LoopMoves(s: Step, before: Phase, after: Phase)
    requires Moves(s, before, after) && s.node in {Observe, Decide, ControlFailure, Dispatch} && !Accepted(s)
    ensures after == before
    ensures forall next :: next in {Observe, Decide, ControlFailure, Dispatch, PrepareBlocked} ==>
        NodeOpen(next, after) && !ReadsBranch(next)
  {
  }

  /** A retried observation repeats the routes of the one before. */
  lemma RetriesOffer(run: Run)
    requires run.steps != [] && Newest(run.steps).node.ControlFailure?
    requires Observe in run.outputs && run.outputs[Observe].Observation?
    ensures ResultRoutes(run, Newest(run.steps).node, Newest(run.steps).output) == Some(run.outputs[Observe].available)
  {
  }

  /** An accepted decision, like a refused one, keeps the gates. */
  lemma DecideGated(run: Run, choice: Choice)
    requires run.at == Some(Decide) && Gated(run)
    ensures Gated(Perform(run, choice))
  {
    hide PhaseOf, Level, Delivered, LatestAttempt, AcceptedDecisions, Offered, InitialRoutes, HasPlan, NextLevel,
      ResultRoutes, RouteOpen, NodeOpen, Passes, FailedDecisions;
    PhaseStep(run, choice);
    var s, after := Visit(run, run.at.value, choice), Perform(run, choice);
    LatestOfStep(run.steps, s, {Publish});
    if s.outcome.Ok? {
      RouteLeadsOpen(s.output.route, s, PhaseOf(run), PhaseOf(after));
    } else {
      LoopMoves(s, PhaseOf(run), PhaseOf(after));
    }
  }

  /** The rest of the loop offers, retries and dispatches open routes only. */
  lemma LoopGated(run: Run, choice: Choice)
    requires run.at.Some? && run.at.value in {Observe, ControlFailure, Dispatch} && Gated(run)
    ensures Gated(Perform(run, choice))
  {
    hide PhaseOf, Level, Delivered, LatestAttempt, AcceptedDecisions, Offered, InitialRoutes, HasPlan, NextLevel,
      ResultRoutes, RouteOpen, NodeOpen, Passes, FailedDecisions;
    PhaseStep(run, choice);
    var s, after := Visit(run, run.at.value, choice), Perform(run, choice);
    LoopMoves(s, PhaseOf(run), PhaseOf(after));
    LatestOfStep(run.steps, s, {Publish});
    if run.at == Some(Observe) { ObservationOffersOpenRoutes(run); }
    if run.at == Some(ControlFailure) { RetriesOffer(after); }
    if run.at == Some(Dispatch) { DispatchedFresh(run.outputs[Decide]); }
  }

  lemma DispatchedFresh(decision: Output)
    requires decision.Decision?
    ensures !ReadsBranch(RouteTarget(decision.route))
        && RouteTarget(decision.route) !in {Observe, Decide, ControlFailure, Dispatch}
  {
  }

  /** A visit of a branch node keeps the gates. */
  lemma BranchGated(run: Run, choice: Choice)
    requires run.at.Some? && run.at.value !in {Observe, Decide, ControlFailure, Dispatch} && Gated(run)
    ensures Gated(Perform(run, choice))
  {
    hide PhaseOf, Level, Delivered, LatestAttempt, AcceptedDecisions, Offered, InitialRoutes, HasPlan, NextLevel,
      ResultRoutes, RouteOpen, NodeOpen, Passes, FailedDecisions, Offering, Fresh, NextOk, NextFailed;
    PhaseStep(run, choice);
    var s, after := Visit(run, run.at.value, choice), Perform(run, choice);
    NextNodeOpen(run, choice);
    NextFresh(run, choice);
    BranchOffering(run, choice);
    LevelMoves(s, PhaseOf(run), PhaseOf(after));
    LatestOfStep(run.steps, s, {Publish});
    PublishesOpen(s, PhaseOf(run), PhaseOf(after));
  }

  lemma PublishesOpen(s: Step, before: Phase, after: Phase)
    requires Moves(s, before, after) && NodeOpen(s.node, before) && !s.node.Decide?
    ensures s.node.Publish? ==> after.level >= 0 && !after.direct
    ensures before.level >= 0 ==> after.level >= 0 && after.direct == before.direct
  {
  }

  // ---- Every run -----------------------------------------------------------------------------

  /** Whatever the outside chooses, the gates hold at every visit of every run. */
  lemma {:induction false} EveryRunIsGated(input: Input, choices: seq<Choice>)
    ensures Gated(After(input, choices))
    decreases |choices|
  {
    if choices != [] {
      var before := After(input, choices[..|choices| - 1]);
      EveryRunIsGated(input, choices[..|choices| - 1]);
      if before.at.Some? {
        if before.at == Some(Decide) { DecideGated(before, choices[|choices| - 1]); }
        else if before.at.value in {Observe, ControlFailure, Dispatch} { LoopGated(before, choices[|choices| - 1]); }
        else { BranchGated(before, choices[|choices| - 1]); }
      }
    }
  }

  /** An accepted decision takes a route whose phases have been passed, whatever the decider answers. */
  lemma AcceptedRoutesAreOpen(input: Input, choices: seq<Choice>, choice: Choice)
    requires After(input, choices).at == Some(Decide) && Accepted(Visit(After(input, choices), Decide, choice))
    ensures RouteOpen(Visit(After(input, choices), Decide, choice).output.route, PhaseOf(After(input, choices)))
  {
    EveryRunIsGated(input, choices);
  }

  /**
   * A delivery decision is accepted only when, after the last accepted change, verification was ready, the change was
   * published, its review was clean or its P2 findings were fixed, comments were clear and CI was clear, in that order.
   */
  lemma DeliveryFollowsEveryPhase(input: Input, choices: seq<Choice>, choice: Choice)
      returns (change: nat, at: seq<nat>)
    requires After(input, choices).at == Some(Decide)
    requires Accepted(Visit(After(input, choices), Decide, choice))
        && Visit(After(input, choices), Decide, choice).output.route == Delivery
    ensures var steps := After(input, choices).steps;
            && change < |steps| && Changes(steps[change]) && (forall k :: change < k < |steps| ==> !Changes(steps[k]))
            && PassedInOrder(steps, change, at, 5)
  {
    AcceptedRoutesAreOpen(input, choices, choice);
    change, at := LevelMeans(After(input, choices).steps);
  }

  /** A complete decision is accepted only after a completed delivery that no other accepted decision has followed. */
  lemma CompleteFollowsDelivery(input: Input, choices: seq<Choice>, choice: Choice) returns (at: nat)
    requires After(input, choices).at == Some(Decide)
    requires Accepted(Visit(After(input, choices), Decide, choice))
        && Visit(After(input, choices), Decide, choice).output.route == Complete
    ensures var steps := After(input, choices).steps;
            && at < |steps| && Delivers(steps[at]) && steps[at].outcome.Ok? && steps[at].output == Status(true)
            && (forall k :: at < k < |steps| ==> !Accepted(steps[k]))
            && (Level(steps) == 5 || (PhaseOf(After(input, choices)).direct && Level(steps) >= 1))
  {
    AcceptedRoutesAreOpen(input, choices, choice);
    at := DeliveredMeans(After(input, choices).steps);
  }
}
