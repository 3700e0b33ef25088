/**
 * The autoimplement control machine: nodes, results, the edge table and what each observation
 * offers. Agents, actions and included workflows return whatever the outside chooses.
 */
module AutoimplementModel {
  datatype Option<+T> = None | Some(value: T)

  datatype Route =
    | PlanDiscovery | WorkspaceRoute | DocumentationRoute | Implementation | Repair | Verification | Publication
    | Review | AddressP2Route | Comments | Ci | Delivery | RedesignRoute | Complete | BlockedRoute

  datatype Node =
    | Prepare | Observe | Decide | ControlFailure | Dispatch
    | FindPlan | PlanDiscoveryResult
    | Workspace | WorkspaceReady | WorkspaceBlocked
    | Documentation | DocumentationReady | DocumentationBlocked
    | Implement | ClassifyImplementation
    | Fix | RepairResult
    | LocalVerification | LocalVerificationReady | LocalVerificationBlocked
    | RouteVerifiedWorkspace | Publish | FinalizeDefaultBranch | PublicationResult
    | SelectReviewCommands | RunReview | RouteRunReviewResult | RepairReviewCommand | AssessReview | ReviewResult
    | AddressP2 | VerifyP2 | P2Result
    | InspectComments | CommentsResult
    | InspectCi | RouteInspectCiResult | TrackCi | RouteTrackCiResult | RepairCiCommand | AssessTrackedCi
    | OpportunisticTest | CiResult
    | FinalizeDelivery | DeliveryResult
    | Redesign | RedesignReady | RedesignBlocked | AdoptPlan
    | PrepareCompleted | CompletedSummary | Finalize
    | PrepareBlocked | BlockedSummary | Blocked

  datatype Outcome = Ok | TimedOut | Failed

  datatype Verdict = Verify | FixIt | RedesignIt | BlockedVerdict
  datatype Findings = Critical | P2 | Clean | CommandError
  datatype CommentVerdict = ToRedesign | ToFix | ToCi | CommentsBlocked
  datatype CiState = Green | Red | PendingCi | Unavailable

  /** A published repository: its id, the head that was pushed and what it depends on. */
  datatype Repository = Repository(id: string, headRevision: string, dependencyFingerprint: Option<string>)

  /** The worst finding of a review: P0 or P1, P2, or anything less. */
  datatype Severity = Serious | Minor | Harmless

  /** The review of one repository at the head it was published with. */
  datatype Assessment = Assessment(repository: Repository, succeeded: bool, worst: Severity)

  /** A node's output, as far as the control machine reads it. */
  datatype Output =
    | NoOutput
    | Plain
    | Observation(lastRoute: Option<Route>, fingerprint: Fingerprint, available: seq<Route>)
    | Decision(route: Route)
    | Failure(blocked: bool, attempts: nat)
    | Found(found: bool, documented: bool)
    | Exit(ready: bool, defaultBranch: bool, hasPlan: bool)
    | Assessed(verdict: Verdict)
    | Mode(defaultBranch: bool)
    | Status(completed: bool)
    | Pushed(repositories: seq<Repository>)
    | Selection(repositories: seq<Repository>)
    | Batch(needsRepair: bool)
    | Retry(retry: bool)
    | Reviewed(findings: Findings, entries: seq<Assessment>)
    | Verified(passed: bool)
    | Commented(comments: CommentVerdict)
    | CiReport(ci: CiState, related: bool, unrelated: bool)
    | Wrapped(source: Node, result: Output)

  datatype Fingerprint = Untouched | Fingerprint(node: Node, outcome: Outcome, output: Output, error: string)

  /** One recorded visit. `stamp` stands for the fields a result carries that are not progress. */
  datatype Step = Step(node: Node, outcome: Outcome, output: Output, error: string, stamp: int)

  datatype Input = Input(hasPlan: bool, documented: bool, prepared: Option<bool>)

  /** `at` is the node to visit next; None once the run has ended. `prepared` tells the workspace mode. */
  datatype Run = Run(input: Input, steps: seq<Step>, outputs: map<Node, Output>, at: Option<Node>)

  const MAX_STEPS := 320
  const MAX_CONTROL_DECISIONS := 40
  const MAX_CONTROL_FAILURES := 3
  const MAX_CONSECUTIVE_NO_PROGRESS_ATTEMPTS := 3

  // ---- Reading the trace ---------------------------------------------------------------------

  predicate IsControlAttempt(node: Node) {
    node in {Prepare, Workspace, Documentation, LocalVerification, Redesign, FindPlan, PlanDiscoveryResult,
             ClassifyImplementation, Implement, RepairResult, Fix, PublicationResult, Publish, ReviewResult, RunReview,
             RepairReviewCommand, P2Result, AddressP2, VerifyP2, CommentsResult, InspectComments, CiResult, InspectCi,
             TrackCi, RepairCiCommand, OpportunisticTest, DeliveryResult, FinalizeDefaultBranch, FinalizeDelivery,
             AdoptPlan, Decide, ControlFailure,
             WorkspaceReady, WorkspaceBlocked, DocumentationReady, DocumentationBlocked,
             LocalVerificationReady, LocalVerificationBlocked, RedesignReady, RedesignBlocked}
  }

  /** The newest step that counts as a control attempt. */
  function LatestAttempt(steps: seq<Step>): (latest: Option<Step>)
    ensures latest.Some? ==> latest.value in steps && IsControlAttempt(latest.value.node)
  {
    if steps == [] then None
    else if IsControlAttempt(steps[|steps| - 1].node) then Some(steps[|steps| - 1])
    else LatestAttempt(steps[..|steps| - 1])
  }

  /** The newest step of one of `nodes`. */
  function LatestOf(steps: seq<Step>, nodes: set<Node>): (latest: Option<Step>)
    ensures latest.Some? ==> latest.value in steps && latest.value.node in nodes
    ensures latest.None? <==> forall s :: s in steps ==> s.node !in nodes
  {
    if steps == [] then None
    else if steps[|steps| - 1].node in nodes then Some(steps[|steps| - 1])
    else LatestOf(steps[..|steps| - 1], nodes)
  }

  /** The includes: the engine does not count the entry of one, but its nodes inside, of which it returns by one. */
  predicate Included(node: Node) {
    node.Workspace? || node.Documentation? || node.LocalVerification? || node.Redesign?
  }

  /** The visits that the engine counts, apart from those inside includes before they return. */
  function Executed(steps: seq<Step>): nat {
    if steps == [] then 0
    else Executed(steps[..|steps| - 1]) + if Included(steps[|steps| - 1].node) then 0 else 1
  }

  predicate Accepted(s: Step) { s.node.Decide? && s.outcome.Ok? && s.output.Decision? }

  function AcceptedDecisions(steps: seq<Step>): seq<Route> {
    if steps == [] then []
    else
      var s := steps[|steps| - 1];
      AcceptedDecisions(steps[..|steps| - 1]) + if Accepted(s) then [s.output.route] else []
  }

  /** The decide attempts that failed since the last accepted one. */
  function FailedDecisions(steps: seq<Step>): nat {
    if steps == [] then 0
    else
      var s := steps[|steps| - 1];
      if !s.node.Decide? then FailedDecisions(steps[..|steps| - 1])
      else if s.outcome.Ok? then 0
      else 1 + FailedDecisions(steps[..|steps| - 1])
  }

  function LastRoute(steps: seq<Step>): Option<Route> {
    var decisions := AcceptedDecisions(steps);
    if decisions == [] then None else Some(decisions[|decisions| - 1])
  }

  /** The digest of the stable part of a result; results that differ only in their stamps agree. */
  function FingerprintOf(latest: Option<Step>): Fingerprint {
    if latest.None? then Untouched
    else Fingerprint(latest.value.node, latest.value.outcome, latest.value.output, latest.value.error)
  }

  predicate SameObservation(s: Step, route: Option<Route>, fingerprint: Fingerprint) {
    s.output.Observation? && s.output.lastRoute == route && s.output.fingerprint == fingerprint
  }

  /** How many of the newest accepted observations in a row saw this route end in this result. */
  function Repeats(steps: seq<Step>, route: Option<Route>, fingerprint: Fingerprint): nat {
    if steps == [] then 0
    else
      var s := steps[|steps| - 1];
      if !s.node.Observe? || !s.outcome.Ok? then Repeats(steps[..|steps| - 1], route, fingerprint)
      else if SameObservation(s, route, fingerprint) then 1 + Repeats(steps[..|steps| - 1], route, fingerprint)
      else 0
  }

  function NoProgressAttempts(steps: seq<Step>): nat {
    var latest, route := LatestAttempt(steps), LastRoute(steps);
    if route.None? || latest.None? || latest.value.node.Decide? then 0
    else 1 + Repeats(steps, route, FingerprintOf(latest))
  }

  method FindLatestAttempt(steps: seq<Step>) returns (latest: Option<Step>)
    ensures latest == LatestAttempt(steps)
  {
    assert steps[..|steps|] == steps;
    var index := |steps|;
    while index > 0
      invariant 0 <= index <= |steps|
      invariant LatestAttempt(steps) == LatestAttempt(steps[..index])
    {
      index := index - 1;
      assert steps[..index + 1][..index] == steps[..index];
      if IsControlAttempt(steps[index].node) {
        return Some(steps[index]);
      }
    }
    return None;
  }

  method CountNoProgressAttempts(steps: seq<Step>, lastRoute: Option<Route>, latest: Option<Step>) returns (count: nat)
    requires lastRoute == LastRoute(steps) && latest == LatestAttempt(steps)
    ensures count == NoProgressAttempts(steps)
  {
    if lastRoute.None? || latest.None? || latest.value.node.Decide? {
      return 0;
    }
    var fingerprint := FingerprintOf(latest);
    count := 1;
    assert steps[..|steps|] == steps;
    var index := |steps|;
    while index > 0
      invariant 0 <= index <= |steps|
      invariant 1 + Repeats(steps, lastRoute, fingerprint) == count + Repeats(steps[..index], lastRoute, fingerprint)
    {
      index := index - 1;
      assert steps[..index + 1][..index] == steps[..index];
      var step := steps[index];
      if step.node.Observe? && step.outcome.Ok? {
        if !SameObservation(step, lastRoute, fingerprint) {
          break;
        }
        count := count + 1;
      }
    }
  }

  method CountFailures(steps: seq<Step>) returns (output: Output)
    ensures output == Failure(FailedDecisions(steps) >= MAX_CONTROL_FAILURES, FailedDecisions(steps))
  {
    var attempts: nat := 0;
    assert steps[..|steps|] == steps;
    var index := |steps|;
    while index > 0
      invariant 0 <= index <= |steps|
      invariant FailedDecisions(steps) == attempts + FailedDecisions(steps[..index])
    {
      index := index - 1;
      assert steps[..index + 1][..index] == steps[..index];
      if steps[index].node.Decide? {
        if steps[index].outcome.Ok? {
          break;
        }
        attempts := attempts + 1;
      }
    }
    output := Failure(attempts >= MAX_CONTROL_FAILURES, attempts);
  }

  // ---- Reading the outputs -------------------------------------------------------------------

  predicate ExitedReady(run: Run, mount: Node) {
    mount in run.outputs && run.outputs[mount].Exit? && run.outputs[mount].ready
  }

  predicate HasPlan(run: Run) {
    || AdoptPlan in run.outputs
    || (ExitedReady(run, Documentation) && run.outputs[Documentation].hasPlan)
    || (FindPlan in run.outputs && run.outputs[FindPlan].Found? && run.outputs[FindPlan].found)
    || run.input.hasPlan
  }

  /** Whether a prepared workspace is at hand, and then whether it is the default branch's. */
  function PreparedWorkspace(run: Run): Option<bool> {
    if run.input.prepared.Some? then run.input.prepared
    else if ExitedReady(run, Workspace) then Some(run.outputs[Workspace].defaultBranch)
    else None
  }

  predicate DocumentationIsCurrent(run: Run) {
    || run.input.documented
    || (FindPlan in run.outputs && run.outputs[FindPlan].Found? && run.outputs[FindPlan].found
        && run.outputs[FindPlan].documented)
    || AdoptPlan in run.outputs
    || ExitedReady(run, Documentation)
  }

  // ---- The routes offered after a result -----------------------------------------------------

  function InitialRoutes(run: Run): seq<Route> {
    if !HasPlan(run) then [PlanDiscovery, BlockedRoute]
    else if PreparedWorkspace(run).None? then [WorkspaceRoute, BlockedRoute]
    else AfterWorkspace(run)
  }

  function AfterWorkspace(run: Run): seq<Route> {
    if DocumentationIsCurrent(run) then [Implementation, RedesignRoute, BlockedRoute]
    else [DocumentationRoute, RedesignRoute, BlockedRoute]
  }

  /** The result inside a branch's wrapper, or the result itself. */
  function Inner(output: Output): Output {
    if output.Wrapped? && !output.result.NoOutput? then output.result else output
  }

  predicate Finds(output: Output, findings: Findings) { output.Reviewed? && output.findings == findings }

  function ReviewRoutes(output: Output): seq<Route> {
    var result := Inner(output);
    if output.Wrapped? && output.source.SelectReviewCommands? && result == Selection([]) then
      [Comments, Review, BlockedRoute]
    else if output.Wrapped? && output.source.RepairReviewCommand? then [Review, BlockedRoute]
    else if Finds(result, Critical) then [Repair, RedesignRoute, BlockedRoute]
    else if Finds(result, P2) then [AddressP2Route, Repair, RedesignRoute, BlockedRoute]
    else if Finds(result, Clean) then [Comments, Review, BlockedRoute]
    else [Review, BlockedRoute]
  }

  function CiRoutes(result: Output): seq<Route> {
    if !result.CiReport? then [Ci, BlockedRoute]
    else
      match result.ci
      case Green => [Delivery, Ci, BlockedRoute]
      case Red => if !result.related && result.unrelated then [Delivery, Ci, BlockedRoute]
                  else [Repair, RedesignRoute, Ci, BlockedRoute]
      case PendingCi => [Ci, BlockedRoute]
      case Unavailable => [Ci, BlockedRoute]
  }

  /** Reading an include's result throws unless the include has exited. */
  function MountRoutes(run: Run, mount: Node, ready: seq<Route>, blocked: seq<Route>): Option<seq<Route>> {
    if mount !in run.outputs || !run.outputs[mount].Exit? then None
    else Some(if run.outputs[mount].ready then ready else blocked)
  }

  function ResultRoutes(run: Run, node: Node, output: Output): Option<seq<Route>> {
    var result := Inner(output);
    match node
    case Prepare => Some(InitialRoutes(run))
    case Workspace => MountRoutes(run, Workspace, AfterWorkspace(run), [WorkspaceRoute, RedesignRoute, BlockedRoute])
    case Documentation =>
      MountRoutes(run, Documentation, [Implementation, RedesignRoute, BlockedRoute],
        [DocumentationRoute, RedesignRoute, BlockedRoute])
    case LocalVerification =>
      MountRoutes(run, LocalVerification, [Publication, Repair, RedesignRoute, BlockedRoute],
        [Verification, Repair, RedesignRoute, BlockedRoute])
    case Redesign =>
      MountRoutes(run, Redesign, [Implementation, RedesignRoute, BlockedRoute], [RedesignRoute, BlockedRoute])
    case FindPlan => Some(PlanRoutes(result))
    case PlanDiscoveryResult => Some(PlanRoutes(result))
    case WorkspaceReady => Some(AfterWorkspace(run))
    case WorkspaceBlocked => Some([WorkspaceRoute, RedesignRoute, BlockedRoute])
    case DocumentationReady => Some([Implementation, RedesignRoute, BlockedRoute])
    case AdoptPlan => Some([Implementation, RedesignRoute, BlockedRoute])
    case DocumentationBlocked => Some([DocumentationRoute, RedesignRoute, BlockedRoute])
    case ClassifyImplementation =>
      Some(if result == Assessed(Verify) then [Verification, Repair, RedesignRoute, BlockedRoute]
           else if result == Assessed(FixIt) then [Repair, RedesignRoute, BlockedRoute]
           else if result == Assessed(RedesignIt) then [RedesignRoute, Repair, BlockedRoute]
           else [Implementation, Repair, RedesignRoute, BlockedRoute])
    case Implement => Some([Implementation, Repair, RedesignRoute, BlockedRoute])
    case RepairResult => Some([Verification, RedesignRoute, BlockedRoute])
    case Fix => Some([Repair, RedesignRoute, BlockedRoute])
    case LocalVerificationReady => Some([Publication, Repair, RedesignRoute, BlockedRoute])
    case LocalVerificationBlocked => Some([Verification, Repair, RedesignRoute, BlockedRoute])
    case PublicationResult =>
      Some(if result == Status(true) then [Complete] else [Review, Publication, RedesignRoute, BlockedRoute])
    case Publish => Some([Publication, Repair, RedesignRoute, BlockedRoute])
    case ReviewResult => Some(ReviewRoutes(output))
    case RunReview => Some([Review, BlockedRoute])
    case RepairReviewCommand => Some([Review, BlockedRoute])
    case P2Result =>
      Some(if result == Verified(true) then [Comments, Review, BlockedRoute] else [Repair, RedesignRoute, BlockedRoute])
    case AddressP2 => Some([AddressP2Route, Repair, RedesignRoute, BlockedRoute])
    case VerifyP2 => Some([AddressP2Route, Repair, RedesignRoute, BlockedRoute])
    case CommentsResult =>
      Some(if result == Commented(ToCi) then [Ci, Comments, BlockedRoute]
           else if result == Commented(ToFix) then [Repair, RedesignRoute, BlockedRoute]
           else if result == Commented(ToRedesign) then [RedesignRoute, Repair, BlockedRoute]
           else [Comments, BlockedRoute])
    case InspectComments => Some([Comments, Review, BlockedRoute])
    case CiResult => Some(CiRoutes(result))
    case InspectCi => Some([Ci, Repair, BlockedRoute])
    case TrackCi => Some([Ci, Repair, BlockedRoute])
    case RepairCiCommand => Some([Ci, Repair, BlockedRoute])
    case OpportunisticTest => Some([Ci, Repair, BlockedRoute])
    case DeliveryResult => Some(if result == Status(true) then [Complete] else [Delivery, BlockedRoute])
    case FinalizeDefaultBranch => Some([Publication, RedesignRoute, BlockedRoute])
    case FinalizeDelivery => Some([Delivery, BlockedRoute])
    case RedesignBlocked => Some([RedesignRoute, BlockedRoute])
    case Decide => Some(PreviousRoutes(run))
    case ControlFailure => Some(PreviousRoutes(run))
    case _ => Some(InitialRoutes(run))
  }

  function PlanRoutes(result: Output): seq<Route> {
    if result.Found? && result.found then [WorkspaceRoute, BlockedRoute] else [PlanDiscovery, BlockedRoute]
  }

  /** What the previous observation offered. */
  function PreviousRoutes(run: Run): seq<Route> {
    if Observe in run.outputs && run.outputs[Observe].Observation? then
      run.outputs[Observe].available
    else InitialRoutes(run)
  }

  function Without(routes: seq<Route>, route: Route): (rest: seq<Route>)
    ensures forall r :: r in rest <==> r in routes && r != route
  {
    if routes == [] then []
    else
      assert routes == routes[..|routes| - 1] + [routes[|routes| - 1]];
      Without(routes[..|routes| - 1], route) + if routes[|routes| - 1] == route then [] else [routes[|routes| - 1]]
  }

  predicate MustDrop(steps: seq<Step>) {
    var lastRoute := LastRoute(steps);
    && lastRoute.Some? && lastRoute.value != Complete && lastRoute.value != BlockedRoute
    && NoProgressAttempts(steps) >= MAX_CONSECUTIVE_NO_PROGRESS_ATTEMPTS
  }

  /** The routes an observation offers, or None when computing them throws. */
  function Offered(run: Run): Option<seq<Route>> {
    var latest := LatestAttempt(run.steps);
    var routes := if |AcceptedDecisions(run.steps)| >= MAX_CONTROL_DECISIONS then Some([BlockedRoute])
                  else if latest.None? then ResultRoutes(run, Prepare, NoOutput)
                  else ResultRoutes(run, latest.value.node, latest.value.output);
    if routes.None? || !MustDrop(run.steps) then routes
    else
      var kept := Without(routes.value, LastRoute(run.steps).value);
      Some(if kept == [] then [BlockedRoute] else kept)
  }

  // ---- Visiting a node -----------------------------------------------------------------------

  /** What the outside makes of a visit. */
  datatype Choice = Choice(outcome: Outcome, output: Output, error: string, stamp: int)

  /** The wrapper a branch ends with: the newest step of its sources. */
  function BranchResult(run: Run, sources: set<Node>): Option<Output> {
    var latest := LatestOf(run.steps, sources);
    if latest.None? then None else Some(Wrapped(latest.value.node, latest.value.output))
  }

  function StoredOutput(run: Run, node: Node): Option<Output> {
    if node in run.outputs then Some(run.outputs[node]) else None
  }

  predicate IsComputed(node: Node) {
    node in {Prepare, Observe, ControlFailure, Dispatch, PlanDiscoveryResult, RepairResult, RouteVerifiedWorkspace,
             PublicationResult, SelectReviewCommands, RouteRunReviewResult, ReviewResult, P2Result, CommentsResult,
             RouteInspectCiResult, RouteTrackCiResult, CiResult, DeliveryResult, AdoptPlan,
             PrepareCompleted, PrepareBlocked, Finalize, Blocked}
  }

  // ---- Reviews -------------------------------------------------------------------------------

  /** What the newest publication reported, if it succeeded. */
  function PublishedBy(steps: seq<Step>): Option<seq<Repository>> {
    var latest := LatestOf(steps, {Publish});
    if latest.Some? && latest.value.outcome.Ok? && latest.value.output.Pushed? then
      Some(latest.value.output.repositories)
    else None
  }

  /** The newest report of what is published, by a publication or a verified P2 fix, succeeded. */
  predicate Republished(steps: seq<Step>) {
    var latest := LatestOf(steps, {Publish, VerifyP2});
    latest.Some? && latest.value.outcome.Ok?
  }

  /** The newest implementation succeeded. */
  predicate Implemented(steps: seq<Step>) {
    var latest := LatestOf(steps, {Implement});
    latest.Some? && latest.value.outcome.Ok?
  }

  /** The entries of every review that was assessed. */
  function ReviewEntries(steps: seq<Step>): seq<Assessment> {
    if steps == [] then []
    else
      var s := steps[|steps| - 1];
      ReviewEntries(steps[..|steps| - 1])
        + if s.node.AssessReview? && s.outcome.Ok? && s.output.Reviewed? then s.output.entries else []
  }

  /** Some review of the repository at this head, with these dependencies, was completed. Its findings do not matter. */
  predicate ReviewedAtHead(steps: seq<Step>, r: Repository) {
    exists e :: e in ReviewEntries(steps) && e.repository == r && e.succeeded
  }

  /** The repositories that are still to be reviewed. */
  function Unreviewed(repositories: seq<Repository>, steps: seq<Step>): (rest: seq<Repository>)
    ensures forall r :: r in rest <==> r in repositories && !ReviewedAtHead(steps, r)
  {
    if repositories == [] then []
    else
      assert repositories == repositories[..|repositories| - 1] + [repositories[|repositories| - 1]];
      Unreviewed(repositories[..|repositories| - 1], steps)
        + if ReviewedAtHead(steps, repositories[|repositories| - 1]) then [] else [repositories[|repositories| - 1]]
  }

  /** The repositories the newest selection asks to review. */
  function Selected(steps: seq<Step>): seq<Repository> {
    var latest := LatestOf(steps, {SelectReviewCommands});
    if latest.Some? && latest.value.output.Selection? then latest.value.output.repositories else []
  }

  /** What an assessment comes to: an invocation that failed counts before any finding. */
  function AssessmentOf(entries: seq<Assessment>): Findings {
    if exists e :: e in entries && !e.succeeded then CommandError
    else if exists e :: e in entries && e.worst.Serious? then Critical
    else if exists e :: e in entries && e.worst.Minor? then P2
    else Clean
  }

  function RepositoriesOf(entries: seq<Assessment>): (repositories: seq<Repository>)
    ensures |repositories| == |entries| && forall i :: 0 <= i < |entries| ==> repositories[i] == entries[i].repository
  {
    seq(|entries|, i requires 0 <= i < |entries| => entries[i].repository)
  }

  /** A publication reports the one prepared repository: at least one entry, none of another repository, no id twice. */
  predicate PublishesOne(repositories: seq<Repository>) {
    && repositories != []
    && (forall i :: 0 <= i < |repositories| ==> repositories[i].id == repositories[0].id)
    && (forall i, j :: 0 <= i < j < |repositories| ==> repositories[i].id != repositories[j].id)
  }

  /** An assessment has one entry for each selected repository, and says what they come to. */
  predicate Assesses(output: Output, selected: seq<Repository>) {
    output.Reviewed? && multiset(RepositoriesOf(output.entries)) == multiset(selected)
      && output.findings == AssessmentOf(output.entries)
  }

  /** The output of a compute node, or None when it throws. */
  function ComputedOutput(run: Run, node: Node): Option<Output> {
    match node
    case Observe =>
      var offered := Offered(run);
      if offered.None? then None
      else Some(Observation(LastRoute(run.steps), FingerprintOf(LatestAttempt(run.steps)), offered.value))
    case ControlFailure => Some(Failure(FailedDecisions(run.steps) >= MAX_CONTROL_FAILURES, FailedDecisions(run.steps)))
    case Dispatch => StoredOutput(run, Decide)
    case PlanDiscoveryResult => BranchResult(run, {FindPlan})
    case RepairResult => BranchResult(run, {Fix})
    case RouteVerifiedWorkspace =>
      if PreparedWorkspace(run).None? then None else Some(Mode(PreparedWorkspace(run).value))
    case PublicationResult => BranchResult(run, {FinalizeDefaultBranch, Publish})
    case SelectReviewCommands =>
      var published := PublishedBy(run.steps);
      if published.None? then None else Some(Selection(Unreviewed(published.value, run.steps)))
    case RouteRunReviewResult => StoredOutput(run, RunReview)
    case ReviewResult => BranchResult(run, {AssessReview, RepairReviewCommand, SelectReviewCommands})
    case P2Result => BranchResult(run, {VerifyP2})
    case CommentsResult => BranchResult(run, {InspectComments})
    case RouteInspectCiResult => StoredOutput(run, InspectCi)
    case RouteTrackCiResult => StoredOutput(run, TrackCi)
    case CiResult => BranchResult(run, {AssessTrackedCi, RepairCiCommand, InspectCi})
    case DeliveryResult => BranchResult(run, {FinalizeDelivery})
    case _ => Some(Plain)
  }

  /** The outputs an agent, action or include may return. */
  predicate Allowed(run: Run, node: Node, output: Output) {
    match node
    case Decide =>
      output.Decision? && Observe in run.outputs && run.outputs[Observe].Observation?
        && output.route in run.outputs[Observe].available
    case FindPlan => output.Found?
    case Workspace => output.Exit?
    case Documentation => output.Exit?
    case LocalVerification => output.Exit?
    case Redesign => output.Exit?
    case ClassifyImplementation => output.Assessed?
    case FinalizeDefaultBranch => output.Status?
    case RunReview => output.Batch?
    case RepairReviewCommand => output.Retry?
    case Publish => output.Pushed? && PublishesOne(output.repositories)
    case AssessReview => Assesses(output, Selected(run.steps))
    case VerifyP2 => output.Verified? && PublishedBy(run.steps).Some?
    case InspectComments => output.Commented?
    case InspectCi => output.CiReport? && Republished(run.steps)
    case TrackCi => output.Batch?
    case RepairCiCommand => output.Retry?
    case AssessTrackedCi => output.CiReport?
    case FinalizeDelivery => output.Status? && (output.completed ==> Republished(run.steps))
    case _ => output.Plain?
  }

  /** These includes read the prepared workspace for their input and throw without one. */
  predicate EntersWorkspace(node: Node) { node.Documentation? || node.LocalVerification? || node.Redesign? }

  /** The documentation also reads the plan, and local verification the files of the newest implementation. */
  predicate CanEnter(run: Run, node: Node) {
    && (EntersWorkspace(node) ==> PreparedWorkspace(run).Some?)
    && (node.Documentation? ==> HasPlan(run))
    && (node.LocalVerification? ==> Implemented(run.steps))
  }

  /** The step a visit records. An output the validator refuses is a failed visit. */
  function Visit(run: Run, node: Node, choice: Choice): Step {
    if IsComputed(node) then
      var computed := ComputedOutput(run, node);
      if computed.None? then Step(node, Failed, NoOutput, choice.error, choice.stamp)
      else Step(node, Ok, computed.value, "", choice.stamp)
    else if !CanEnter(run, node) then
      Step(node, Failed, NoOutput, choice.error, choice.stamp)
    else if choice.outcome.Ok? && Allowed(run, node, choice.output) then Step(node, Ok, choice.output, "", choice.stamp)
    else Step(node, if choice.outcome.Ok? then Failed else choice.outcome, NoOutput, choice.error, choice.stamp)
  }

  /** The node of a route. */
  function RouteTarget(route: Route): Node {
    match route
    case PlanDiscovery => FindPlan
    case WorkspaceRoute => Workspace
    case DocumentationRoute => Documentation
    case Implementation => Implement
    case Repair => Fix
    case Verification => LocalVerification
    case Publication => RouteVerifiedWorkspace
    case Review => SelectReviewCommands
    case AddressP2Route => AddressP2
    case Comments => InspectComments
    case Ci => InspectCi
    case Delivery => FinalizeDelivery
    case RedesignRoute => Redesign
    case Complete => PrepareCompleted
    case BlockedRoute => PrepareBlocked
  }

  /** The edge taken when a visit succeeds; None where the graph ends or no case matches. */
  function NextOk(node: Node, output: Output): Option<Node> {
    match node
    case Prepare => Some(Observe)
    case Observe => Some(Decide)
    case Decide => Some(Dispatch)
    case ControlFailure => if !output.Failure? then None else Some(if output.blocked then PrepareBlocked else Observe)
    case Dispatch => if output.Decision? then Some(RouteTarget(output.route)) else None
    case FindPlan => Some(PlanDiscoveryResult)
    case PlanDiscoveryResult => Some(Observe)
    case Workspace => if !output.Exit? then None else Some(if output.ready then WorkspaceReady else WorkspaceBlocked)
    case Documentation =>
      if !output.Exit? then None else Some(if output.ready then DocumentationReady else DocumentationBlocked)
    case LocalVerification =>
      if !output.Exit? then None else Some(if output.ready then LocalVerificationReady else LocalVerificationBlocked)
    case Redesign => if !output.Exit? then None else Some(if output.ready then RedesignReady else RedesignBlocked)
    case WorkspaceReady => Some(Observe)
    case WorkspaceBlocked => Some(Observe)
    case DocumentationReady => Some(Observe)
    case DocumentationBlocked => Some(Observe)
    case LocalVerificationReady => Some(Observe)
    case LocalVerificationBlocked => Some(Observe)
    case RedesignReady => Some(AdoptPlan)
    case RedesignBlocked => Some(Observe)
    case AdoptPlan => Some(Observe)
    case Implement => Some(ClassifyImplementation)
    case ClassifyImplementation => Some(Observe)
    case Fix => Some(RepairResult)
    case RepairResult => Some(Observe)
    case RouteVerifiedWorkspace =>
      if !output.Mode? then None else Some(if output.defaultBranch then FinalizeDefaultBranch else Publish)
    case Publish => Some(PublicationResult)
    case FinalizeDefaultBranch => Some(PublicationResult)
    case PublicationResult => Some(Observe)
    case SelectReviewCommands =>
      if !output.Selection? then None else Some(if output.repositories == [] then ReviewResult else RunReview)
    case RunReview => Some(RouteRunReviewResult)
    case RouteRunReviewResult =>
      if !output.Batch? then None else Some(if output.needsRepair then RepairReviewCommand else AssessReview)
    case RepairReviewCommand => Some(ReviewResult)
    case AssessReview =>
      if !output.Reviewed? then
        None
      else Some(if output.findings.CommandError? then RepairReviewCommand else ReviewResult)
    case ReviewResult => Some(Observe)
    case AddressP2 => Some(VerifyP2)
    case VerifyP2 => Some(P2Result)
    case P2Result => Some(Observe)
    case InspectComments => Some(CommentsResult)
    case CommentsResult => Some(Observe)
    case InspectCi => Some(RouteInspectCiResult)
    case RouteInspectCiResult =>
      if !output.CiReport? then None else Some(if output.ci.PendingCi? then TrackCi else CiResult)
    case TrackCi => Some(RouteTrackCiResult)
    case RouteTrackCiResult =>
      if !output.Batch? then None else Some(if output.needsRepair then RepairCiCommand else AssessTrackedCi)
    case RepairCiCommand => Some(CiResult)
    case AssessTrackedCi =>
      if !output.CiReport? then None else Some(if output.ci.PendingCi? then OpportunisticTest else CiResult)
    case OpportunisticTest => Some(Observe)
    case CiResult => Some(Observe)
    case FinalizeDelivery => Some(DeliveryResult)
    case DeliveryResult => Some(Observe)
    case PrepareCompleted => Some(CompletedSummary)
    case CompletedSummary => Some(Finalize)
    case PrepareBlocked => Some(BlockedSummary)
    case BlockedSummary => Some(Blocked)
    case Finalize => None
    case Blocked => None
  }

  /** The nodes whose edge routes on the outcome; a failed visit of any other node ends the run. */
  function NextFailed(node: Node): Option<Node> {
    if node.Decide? then Some(ControlFailure)
    else if node in {FindPlan, Implement, FinalizeDefaultBranch, Fix, Publish, RunReview, RepairReviewCommand,
                     AddressP2, VerifyP2, InspectComments, InspectCi, TrackCi, RepairCiCommand, OpportunisticTest,
                     FinalizeDelivery}
    then Some(Observe)
    else None
  }

  /** Visit the node in hand. */
  function Perform(run: Run, choice: Choice): Run
    requires run.at.Some?
  {
    var node := run.at.value;
    var step := Visit(run, node, choice);
    var outputs := if step.outcome.Ok? then run.outputs[node := step.output] else run.outputs - {node};
    var next := if step.outcome.Ok? then NextOk(node, step.output) else NextFailed(node);
    Run(run.input, run.steps + [step], outputs, next)
  }

  function Start(input: Input): Run { Run(input, [], map[], Some(Prepare)) }

  /** The run after the outside has made `choices`, one per visit, until it ended. */
  function After(input: Input, choices: seq<Choice>): Run {
    if choices == [] then Start(input)
    else
      var before := After(input, choices[..|choices| - 1]);
      if before.at.None? then before else Perform(before, choices[|choices| - 1])
  }
}
