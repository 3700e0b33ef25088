/** Which of the routes on offer can be carried out: all but three kinds, which end the run. */
module AutoimplementRoutes {
  import opened AutoimplementModel
  import opened AutoimplementGates
  import opened AutoimplementWitnesses
  import opened AutoimplementLimits

  /** The routes on offer. */
  function OnOffer(run: Run): Option<seq<Route>> {
    if Observe in run.outputs && run.outputs[Observe].Observation? then Some(run.outputs[Observe].available) else None
  }

  // ---- What is published ---------------------------------------------------------------------

  /** The two reports of what is published: the last publication, and the last of it or of a verified P2 fix. */
  datatype Report = OfPublication | OfAny

  /** The report succeeded, or there is none to make: the default branch is worked on directly. */
  predicate There(report: Report, steps: seq<Step>, direct: bool) {
    direct || if report.OfPublication? then PublishedBy(steps).Some? else Republished(steps)
  }

  /** The routes that read the report, or lead to one that does. */
  predicate Reads(report: Report, route: Route) {
    route.Review? || route.Comments?
    || if report.OfPublication? then route.AddressP2Route? else route.Ci? || route.Delivery?
  }

  ghost predicate OffersReading(report: Report, routes: Option<seq<Route>>) {
    routes.Some? && exists r :: r in routes.value && Reads(report, r)
  }

  /** The nodes of their branches, and the results that first offer them. */
  predicate OnReport(report: Report, node: Node) {
    || node.PublicationResult? || node.SelectReviewCommands? || node.RunReview? || node.RouteRunReviewResult?
    || node.RepairReviewCommand? || node.AssessReview? || node.ReviewResult? || node.P2Result?
    || node.InspectComments? || node.CommentsResult?
    || if report.OfPublication? then node.AddressP2? || node.VerifyP2?
       else || node.InspectCi? || node.RouteInspectCiResult? || node.TrackCi? || node.RouteTrackCiResult?
            || node.RepairCiCommand? || node.AssessTrackedCi? || node.OpportunisticTest? || node.CiResult?
            || node.FinalizeDelivery? || node.DeliveryResult?
  }

  /** Wherever the run stands on the report, or is about to, there is one to read. */
  ghost predicate Published(report: Report, run: Run) {
    run.at.Some? && !There(report, run.steps, PhaseOf(run).direct) ==>
      && !OnReport(report, run.at.value)
      && (run.at.value.Observe? ==>
            run.steps != []
            && !OffersReading(report, ResultRoutes(run, Newest(run.steps).node, Newest(run.steps).output)))
      && (run.at.value.Decide? || run.at.value.ControlFailure? ==> !OffersReading(report, OnOffer(run)))
      && (run.at.value.Dispatch? ==>
            && Decide in run.outputs && run.outputs[Decide].Decision?
            && !Reads(report, run.outputs[Decide].route))
  }

  /** Only a result of those branches offers such a route, or an observation that repeats an earlier one. */
  lemma WhoOffersReading(report: Report, run: Run, node: Node, output: Output)
    requires OffersReading(report, ResultRoutes(run, node, output))
    ensures OnReport(report, node) || node.Decide? || node.ControlFailure?
  {
    OthersOfferNone(report, run);
    hide InitialRoutes, AfterWorkspace, CiRoutes, PlanRoutes, ReviewRoutes, PreviousRoutes, Inner, Reads;
    WhichReads(report);
  }

  lemma WhichReads(report: Report)
    ensures !Reads(report, BlockedRoute) && !Reads(report, RedesignRoute) && !Reads(report, Repair)
    ensures !Reads(report, WorkspaceRoute) && !Reads(report, DocumentationRoute) && !Reads(report, Implementation)
    ensures !Reads(report, Verification) && !Reads(report, Publication) && !Reads(report, Complete)
    ensures !Reads(OfAny, AddressP2Route) && !Reads(OfPublication, Ci) && !Reads(OfPublication, Delivery)
  {
  }

  lemma OthersOfferNone(report: Report, run: Run)
    ensures forall r :: r in InitialRoutes(run) || r in AfterWorkspace(run) ==> !Reads(report, r)
    ensures forall result, r :: r in PlanRoutes(result) ==> !Reads(report, r)
    ensures forall result, r :: r in CiRoutes(result) && report.OfPublication? ==> !Reads(report, r)
  {
    hide HasPlan, DocumentationIsCurrent, PreparedWorkspace;
  }

  /** The edges into those branches. */
  lemma EdgesOntoReport(report: Report, s: Step)
    requires s.outcome.Ok? && NextOk(s.node, s.output).Some?
    ensures OnReport(report, NextOk(s.node, s.output).value) ==>
              OnReport(report, s.node) || s.node.Publish? || s.node.FinalizeDefaultBranch?
              || (s.node.VerifyP2? && report.OfAny?)
              || (s.node.Dispatch? && s.output.Decision? && Reads(report, s.output.route))
  {
  }

  /** Only these visits change what there is to read. */
  predicate Reports(node: Node) { node.Publish? || node.VerifyP2? || node.Workspace? }

  lemma ThereStep(report: Report, run: Run, choice: Choice)
    requires run.at.Some?
    ensures var s, after := Visit(run, run.at.value, choice), Perform(run, choice);
            && (!Reports(s.node) || (s.node.VerifyP2? && report.OfPublication?) ==>
                  There(report, after.steps, PhaseOf(after).direct) == There(report, run.steps, PhaseOf(run).direct))
            && ((s.node.Publish? || (s.node.VerifyP2? && report.OfAny?)) && s.outcome.Ok? ==>
                  There(report, after.steps, PhaseOf(after).direct))
  {
    hide PhaseOf, Level, Delivered, LatestOf, LatestAttempt, AcceptedDecisions, FailedDecisions, Offered,
      PreparedWorkspace, HasPlan, NextOk, NextFailed;
    PhaseStep(run, choice);
    LatestOfStep(run.steps, Visit(run, run.at.value, choice), {Publish});
    LatestOfStep(run.steps, Visit(run, run.at.value, choice), {Publish, VerifyP2});
  }

  lemma LoopPublished(report: Report, run: Run, choice: Choice)
    requires run.at.Some? && run.at.value in {Observe, Decide, ControlFailure, Dispatch}
    requires Gated(run) && Published(report, run)
    ensures Published(report, Perform(run, choice))
  {
    hide PhaseOf, Level, Delivered, ResultRoutes, There, RouteOpen, NodeOpen, AllOpen, LatestAttempt,
      AcceptedDecisions, FailedDecisions, NoProgressAttempts, MustDrop, InitialRoutes, Fresh, OnReport, Reads;
    PhaseStep(run, choice);
    var s, after := Visit(run, run.at.value, choice), Perform(run, choice);
    ThereStep(report, run, choice);
    LoopReadsNothing(report);
    if s.outcome.Ok? && NextOk(s.node, s.output).Some? { EdgesOntoReport(report, s); }
    if run.at == Some(Observe) { ObservationOffersNoMore(report, run); }
    if run.at == Some(ControlFailure) && after.at == Some(Observe) { RetriesOffer(after); }
  }

  lemma LoopReadsNothing(report: Report)
    ensures forall node :: node in {Observe, Decide, ControlFailure, Dispatch, PrepareBlocked} ==>
        !OnReport(report, node)
  {
  }

  /** An observation offers such a route only if the step it follows does. */
  lemma ObservationOffersNoMore(report: Report, run: Run)
    requires run.at == Some(Observe) && Gated(run)
    ensures OffersReading(report, Offered(run)) ==>
        OffersReading(report, ResultRoutes(run, Newest(run.steps).node, Newest(run.steps).output))
  {
    hide Reads;
    OfferedWas(run);
    NothingReads(report);
    hide Offered, ResultRoutes, Gated;
  }

  lemma NothingReads(report: Report)
    ensures !Reads(report, BlockedRoute)
  {
  }

  /** What an observation offers, the step it follows does, but for the way out. */
  lemma OfferedWas(run: Run)
    requires run.at == Some(Observe) && Gated(run)
    ensures var routes := ResultRoutes(run, Newest(run.steps).node, Newest(run.steps).output);
            && run.steps != []
            && (Offered(run).Some? ==>
                  forall r :: r in Offered(run).value ==> r == BlockedRoute || (routes.Some? && r in routes.value))
  {
    hide PhaseOf, ResultRoutes, LatestAttempt, AcceptedDecisions, MustDrop, IsControlAttempt, Fresh, NodeOpen, AllOpen;
    ReturnsAreAttempts(Newest(run.steps));
    NewestIsLatest(run.steps);
  }

  lemma BranchPublished(report: Report, run: Run, choice: Choice)
    requires run.at.Some? && run.at.value !in {Observe, Decide, ControlFailure, Dispatch}
    requires Gated(run) && Published(report, run)
    ensures Published(report, Perform(run, choice))
  {
    hide PhaseOf, Level, Delivered, ResultRoutes, There, RouteOpen, AllOpen, LatestAttempt, AcceptedDecisions,
      FailedDecisions, InitialRoutes, Fresh, OnReport, Visit, NextOk, NextFailed, NodeOpen, Offering;
    PhaseStep(run, choice);
    var s, after := Visit(run, run.at.value, choice), Perform(run, choice);
    ThereStep(report, run, choice);
    OnlyTheLoopDecides(s);
    if s.node.FinalizeDefaultBranch? { FinalizesDirectly(report, run); }
    if s.outcome.Ok? && NextOk(s.node, s.output).Some? { EdgesOntoReport(report, s); }
    FailuresLeave(s.node);
    if after.at == Some(Observe) && OffersReading(report, ResultRoutes(after, s.node, s.output)) {
      WhoOffersReading(report, after, s.node, s.output);
    }
    ReportersDoNotRead(report);
  }

  lemma ReportersDoNotRead(report: Report)
    ensures !OnReport(report, Publish) && !OnReport(report, Workspace) && !OnReport(report, Observe)
    ensures !OnReport(report, WorkspaceReady) && !OnReport(report, WorkspaceBlocked)
    ensures !OnReport(OfAny, VerifyP2)
  {
  }

  lemma FailuresLeave(node: Node)
    ensures NextFailed(node).Some? ==> NextFailed(node).value in {Observe, ControlFailure}
  {
  }

  /** The default branch is finalized only when it is worked on directly. */
  lemma FinalizesDirectly(report: Report, run: Run)
    requires run.at == Some(FinalizeDefaultBranch) && Gated(run)
    ensures There(report, run.steps, PhaseOf(run).direct)
  {
  }

  /** In every run. */
  lemma {:induction false} EveryRunIsPublished(report: Report, input: Input, choices: seq<Choice>)
    ensures Published(report, After(input, choices))
    decreases |choices|
  {
    hide Published, Gated, Perform;
    if choices == [] {
      StartPublished(report, input);
    } else {
      var before := After(input, choices[..|choices| - 1]);
      EveryRunIsPublished(report, input, choices[..|choices| - 1]);
      EveryRunIsGated(input, choices[..|choices| - 1]);
      if before.at.Some? { VisitPublished(report, before, choices[|choices| - 1]); }
    }
  }

  lemma StartPublished(report: Report, input: Input)
    ensures Published(report, Start(input))
  {
  }

  lemma VisitPublished(report: Report, run: Run, choice: Choice)
    requires run.at.Some? && Gated(run) && Published(report, run)
    ensures Published(report, Perform(run, choice))
  {
    hide Published, Gated, Perform;
    if run.at.value in {Observe, Decide, ControlFailure, Dispatch} {
      LoopPublished(report, run, choice);
    } else {
      BranchPublished(report, run, choice);
    }
  }

  // ---- Which plan there is -------------------------------------------------------------------

  /** A plan was given or found. */
  predicate BasePlan(run: Run) {
    run.input.hasPlan || (FindPlan in run.outputs && run.outputs[FindPlan].Found? && run.outputs[FindPlan].found)
  }

  predicate NeedsPlan(route: Route) { route.WorkspaceRoute? || route.DocumentationRoute? }

  ghost predicate Offers(routes: Option<seq<Route>>, route: Route) { routes.Some? && route in routes.value }

  ghost predicate OffersPlanned(routes: Option<seq<Route>>) {
    Offers(routes, WorkspaceRoute) || Offers(routes, DocumentationRoute)
  }

  predicate PlanNode(node: Node) {
    || node.Workspace? || node.WorkspaceReady? || node.WorkspaceBlocked?
    || node.Documentation? || node.DocumentationReady? || node.DocumentationBlocked?
  }

  predicate SearchNode(node: Node) { node.FindPlan? || node.PlanDiscoveryResult? }

  /** The routes that need a plan have one, and the search for it is over before anything is documented. */
  ghost predicate Fits(run: Run, routes: Option<seq<Route>>) {
    (OffersPlanned(routes) ==> BasePlan(run)) && (Offers(routes, PlanDiscovery) ==> Documentation !in run.outputs)
  }

  ghost predicate Planned(run: Run) {
    run.at.Some? ==>
      && (PlanNode(run.at.value) ==> BasePlan(run))
      && (SearchNode(run.at.value) ==> Documentation !in run.outputs)
      && (run.at.value.Observe? ==>
            run.steps != [] && Fits(run, ResultRoutes(run, Newest(run.steps).node, Newest(run.steps).output)))
      && (run.at.value.Decide? || run.at.value.ControlFailure? ==> Fits(run, OnOffer(run)))
      && (run.at.value.Dispatch? ==>
            && Decide in run.outputs && run.outputs[Decide].Decision?
            && Fits(run, Some([run.outputs[Decide].route])))
      && (run.at.value.PlanDiscoveryResult? ==>
            && run.steps != [] && Newest(run.steps).node.FindPlan?
            && StoredOutput(run, FindPlan) == Some(Newest(run.steps).output))
      && (run.at.value.Prepare? ==> run.outputs == map[])
  }

  /** The nodes whose results have no routes of their own. */
  predicate Routeless(node: Node) {
    || node.Observe? || node.Dispatch? || node.RedesignReady? || node.RouteVerifiedWorkspace?
    || node.SelectReviewCommands? || node.RouteRunReviewResult? || node.AssessReview? || node.RouteInspectCiResult?
    || node.RouteTrackCiResult? || node.AssessTrackedCi? || node.PrepareCompleted? || node.CompletedSummary?
    || node.Finalize? || node.PrepareBlocked? || node.BlockedSummary? || node.Blocked?
  }

  lemma ReturnsHaveRoutes(s: Step)
    requires Returns(s)
    ensures !Routeless(s.node)
  {
  }

  /** Which results offer those routes. */
  lemma WhoOffersPlans(run: Run, s: Step)
    requires Returns(s) && !s.node.ControlFailure?
    ensures var routes := ResultRoutes(run, s.node, s.output);
            && (OffersPlanned(routes) ==> PlanNode(s.node) || SearchNode(s.node) || s.node.Prepare?)
            && (Offers(routes, PlanDiscovery) ==> SearchNode(s.node) || s.node.Prepare?)
  {
    ReturnsAreAttempts(s);
    ReturnsHaveRoutes(s);
    ReviewsOfferNoPlans(run, s.output);
    hide Returns, IsControlAttempt, AfterWorkspace, PlanRoutes;
    hide ReviewRoutes, CiRoutes, InitialRoutes, PreviousRoutes, Inner;
    if !(SearchNode(s.node) || s.node.Prepare?) { OthersPlanNothing(run, s.node, s.output); }
  }

  lemma OthersPlanNothing(run: Run, node: Node, output: Output)
    requires !Routeless(node) && !SearchNode(node) && !node.Prepare? && !node.ControlFailure? && !node.Decide?
    requires node !in {Workspace, Documentation, LocalVerification, Redesign}
    ensures var routes := ResultRoutes(run, node, output);
            (OffersPlanned(routes) ==> PlanNode(node)) && !Offers(routes, PlanDiscovery)
  {
    ReviewsOfferNoPlans(run, output);
    hide AfterWorkspace, PlanRoutes, ReviewRoutes, CiRoutes, InitialRoutes, PreviousRoutes, Inner, MountRoutes;
  }

  lemma ReviewsOfferNoPlans(run: Run, output: Output)
    ensures !OffersPlanned(Some(ReviewRoutes(output))) && !Offers(Some(ReviewRoutes(output)), PlanDiscovery)
    ensures forall result :: !OffersPlanned(Some(CiRoutes(result))) && !Offers(Some(CiRoutes(result)), PlanDiscovery)
    ensures !Offers(Some(AfterWorkspace(run)), PlanDiscovery)
  {
    hide DocumentationIsCurrent;
  }

  /** The edges onto those nodes. */
  lemma EdgesOntoPlans(s: Step)
    requires s.outcome.Ok? && NextOk(s.node, s.output).Some?
    ensures var next := NextOk(s.node, s.output).value;
            && (PlanNode(next) ==>
                  PlanNode(s.node) || (s.node.Dispatch? && s.output.Decision? && NeedsPlan(s.output.route)))
            && (SearchNode(next) ==>
                  s.node.FindPlan? || (s.node.Dispatch? && s.output == Decision(PlanDiscovery)))
            && (next.PlanDiscoveryResult? ==> s.node.FindPlan?)
            && !next.Prepare?
  {
  }

  lemma LoopPlanned(run: Run, choice: Choice)
    requires run.at.Some? && run.at.value in {Observe, Decide, ControlFailure, Dispatch}
    requires Gated(run) && Planned(run)
    ensures Planned(Perform(run, choice))
  {
    hide PhaseOf, Level, Delivered, ResultRoutes, RouteOpen, NodeOpen, AllOpen, LatestAttempt,
      AcceptedDecisions, FailedDecisions, NoProgressAttempts, MustDrop, InitialRoutes, Fresh, PlanNode, SearchNode,
      BasePlan, Moves, HasPlan, PreparedWorkspace, DocumentationIsCurrent, CanEnter;
    PhaseStep(run, choice);
    var s, after := Visit(run, run.at.value, choice), Perform(run, choice);
    LoopPlansNothing();
    PlanStep(run, choice);
    if s.outcome.Ok? && NextOk(s.node, s.output).Some? { EdgesOntoPlans(s); }
    if run.at == Some(Observe) { OfferedWas(run); }
    if run.at == Some(ControlFailure) && after.at == Some(Observe) { RetriesOffer(after); }
  }

  lemma LoopPlansNothing()
    ensures forall node :: node in {Observe, Decide, ControlFailure, Dispatch, PrepareBlocked} ==>
        !PlanNode(node) && !SearchNode(node)
  {
  }

  /** Only the search changes whether there is a plan, and only the documentation whether anything is documented. */
  lemma PlanStep(run: Run, choice: Choice)
    requires run.at.Some?
    ensures var node, after := run.at.value, Perform(run, choice);
            && (!node.FindPlan? ==> BasePlan(after) == BasePlan(run))
            && (!node.Documentation? ==> (Documentation in after.outputs <==> Documentation in run.outputs))
            && (node.FindPlan? && Visit(run, node, choice).outcome.Ok? ==>
                  StoredOutput(after, FindPlan) == Some(Visit(run, node, choice).output))
  {
    hide Visit, NextOk, NextFailed;
  }

  lemma BranchPlanned(run: Run, choice: Choice)
    requires run.at.Some? && run.at.value !in {Observe, Decide, ControlFailure, Dispatch}
    requires Gated(run) && Planned(run)
    ensures Planned(Perform(run, choice))
  {
    hide PhaseOf, Level, Delivered, ResultRoutes, RouteOpen, AllOpen, LatestAttempt, AcceptedDecisions, BasePlan,
      FailedDecisions, InitialRoutes, Fresh, Visit, NextOk, NextFailed, NodeOpen, Offering, Gated, OffersPlanned,
        Offers;
    PhaseStep(run, choice);
    var s, after := Visit(run, run.at.value, choice), Perform(run, choice);
    PlanStep(run, choice);
    OnlyTheLoopDecides(s);
    if s.outcome.Ok? && NextOk(s.node, s.output).Some? { EdgesOntoPlans(s); }
    FailuresLeave(s.node);
    if after.at == Some(Observe) {
      assert Returns(s);
      WhoOffersPlans(after, s);
      if SearchNode(s.node) || s.node.Prepare? { SearchFits(run, choice); }
    }
  }

  /** The search offers a workspace when it has found a plan, and to go on searching when it has not. */
  lemma SearchFits(run: Run, choice: Choice)
    requires run.at.Some? && (SearchNode(run.at.value) || run.at.value.Prepare?) && Planned(run)
    requires Perform(run, choice).at == Some(Observe)
    ensures var s, after := Visit(run, run.at.value, choice), Perform(run, choice);
            Fits(after, ResultRoutes(after, s.node, s.output))
  {
    hide LatestAttempt, AcceptedDecisions, FailedDecisions, Offered, DocumentationIsCurrent, PreparedWorkspace;
    var s, after := Visit(run, run.at.value, choice), Perform(run, choice);
    PlanStep(run, choice);
    if s.node.PlanDiscoveryResult? { NewestOf(run.steps, {FindPlan}); }
    hide LatestOf;
  }

  /** In every run. */
  lemma {:induction false} EveryRunIsPlanned(input: Input, choices: seq<Choice>)
    ensures Planned(After(input, choices))
    decreases |choices|
  {
    hide Planned, Gated, Perform;
    if choices == [] {
      StartPlanned(input);
    } else {
      var before := After(input, choices[..|choices| - 1]);
      EveryRunIsPlanned(input, choices[..|choices| - 1]);
      EveryRunIsGated(input, choices[..|choices| - 1]);
      if before.at.Some? { VisitPlanned(before, choices[|choices| - 1]); }
    }
  }

  lemma StartPlanned(input: Input)
    ensures Planned(Start(input))
  {
  }

  lemma VisitPlanned(run: Run, choice: Choice)
    requires run.at.Some? && Gated(run) && Planned(run)
    ensures Planned(Perform(run, choice))
  {
    hide Planned, Gated, Perform;
    if run.at.value in {Observe, Decide, ControlFailure, Dispatch} {
      LoopPlanned(run, choice);
    } else {
      BranchPlanned(run, choice);
    }
  }

  // ---- Carrying a route out ------------------------------------------------------------------

  /** Some answer of the outside makes the next visit succeed. */
  ghost predicate Doable(run: Run)
    requires run.at.Some?
  {
    exists choice: Choice :: Visit(run, run.at.value, choice).outcome.Ok?
  }

  /**
   * A review reads a publication, which a workspace on the default branch never has; a redesign enters the prepared
   * workspace; and local verification reads the files of the newest implementation, which a failed one has not.
   */
  predicate CanStart(route: Route, run: Run) {
    && (route.Review? ==> PreparedWorkspace(run) != Some(true))
    && (route.RedesignRoute? ==> PreparedWorkspace(run).Some?)
    && (route.Verification? ==> Implemented(run.steps))
  }

  /** What the first visit of a route's branch may return. */
  function FirstOutput(route: Route): Output {
    match route
    case PlanDiscovery => Found(false, false)
    case WorkspaceRoute => NOT_READY
    case DocumentationRoute => NOT_READY
    case Verification => NOT_READY
    case RedesignRoute => NOT_READY
    case Comments => Commented(CommentsBlocked)
    case Ci => CiReport(Unavailable, false, false)
    case Delivery => Status(false)
    case _ => Plain
  }

  lemma StartsWhenReady(run: Run, route: Route)
    requires route in {DocumentationRoute, Verification, Publication, RedesignRoute} ==> PreparedWorkspace(run).Some?
    requires (route.DocumentationRoute? ==> HasPlan(run)) && (route.Verification? ==> Implemented(run.steps))
    requires (route.Review? ==> PublishedBy(run.steps).Some?) && (route.Ci? ==> Republished(run.steps))
    ensures Visit(run, RouteTarget(route), Returned(FirstOutput(route))).outcome.Ok?
  {
    hide PreparedWorkspace, HasPlan, Implemented, Republished, PublishedBy, Unreviewed, Offered, LatestOf;
  }

  /** The failures end the run. */
  lemma CannotStart(run: Run, choice: Choice)
    requires run.at.Some?
    requires || (run.at.value.SelectReviewCommands? && PublishedBy(run.steps).None?)
             || (run.at.value.Redesign? && PreparedWorkspace(run).None?)
             || (run.at.value.LocalVerification? && !Implemented(run.steps))
    ensures !Visit(run, run.at.value, choice).outcome.Ok? && Perform(run, choice).at.None?
  {
    hide PreparedWorkspace, HasPlan, Implemented, PublishedBy, Unreviewed, Offered, LatestOf;
  }

  /** What the gates and the reports say where a route's branch begins. */
  lemma WhatRoutesFind(run: Run, route: Route)
    requires run.at == Some(RouteTarget(route)) && Gated(run)
    requires Published(OfPublication, run) && Published(OfAny, run)
    ensures route in {Verification, Publication} ==> PreparedWorkspace(run).Some?
    ensures route.Review? ==> (PublishedBy(run.steps).Some? <==> PreparedWorkspace(run) != Some(true))
    ensures route.Ci? ==> Republished(run.steps)
  {
    hide Level, Delivered, LatestOf, Offering, Fresh, ResultRoutes;
    assert PublishedBy(run.steps).Some? ==> LatestOf(run.steps, {Publish}).Some?;
    if route.Ci? { PublishedNotDirect(run); }
  }

  /** Past the publication the default branch is not worked on directly. */
  lemma PublishedNotDirect(run: Run)
    requires run.at == Some(InspectCi) && Gated(run)
    ensures !PhaseOf(run).direct
  {
    var from, at := LevelMeans(run.steps);
    assert Passes(run.steps[at[1]], 2);
    hide Level, Delivered, Offering, Fresh, LatestOf;
    assert run.steps[at[1]] in run.steps;
  }

  /** A decision for a route on offer is accepted and dispatched. */
  lemma IsDispatched(input: Input, choices: seq<Choice>, route: Route)
    requires After(input, choices).at == Some(Decide)
    requires Offers(OnOffer(After(input, choices)), route)
    ensures var run := After(input, choices);
            var after := After(input, choices + [Returned(Decision(route))] + [Returned(NoOutput)]);
            && after.at == Some(RouteTarget(route)) && after.input == run.input
            && Implemented(after.steps) == Implemented(run.steps)
            && StoredOutput(after, Workspace) == StoredOutput(run, Workspace)
  {
    hide After, RouteTarget, TallyOf;
    var run, decided := After(input, choices), choices + [Returned(Decision(route))];
    Chooses(input, choices, route);
    DispatchesTo(input, decided, route);
    LatestOfStep(run.steps, Done(Decide, Decision(route)), {Implement});
    LatestOfStep(After(input, decided).steps, Done(Dispatch, Decision(route)), {Implement});
  }

  lemma SameWorkspace(run: Run, after: Run)
    requires after.input == run.input && StoredOutput(after, Workspace) == StoredOutput(run, Workspace)
    ensures PreparedWorkspace(after) == PreparedWorkspace(run)
  {
  }

  /** The documentation is offered only with a workspace and a plan at hand. */
  lemma DocumentationIsReady(input: Input, choices: seq<Choice>)
    requires After(input, choices).at == Some(Documentation)
    ensures HasPlan(After(input, choices))
  {
    EveryRunIsPlanned(input, choices);
  }

  lemma DocumentationIsPrepared(input: Input, choices: seq<Choice>)
    requires After(input, choices).at == Some(Decide)
    requires Offers(OnOffer(After(input, choices)), DocumentationRoute)
    ensures PreparedWorkspace(After(input, choices)).Some?
  {
    EveryRunIsGated(input, choices);
  }

  /**
   * A route on offer is dispatched when it is chosen, and its first visit can succeed exactly if it is not a review on
   * the default branch, a redesign without a workspace or a verification of an implementation that failed; in those
   * cases the visit fails whatever the outside answers, and ends the run.
   */
  lemma OfferedRouteIff(input: Input, choices: seq<Choice>, route: Route)
    requires After(input, choices).at == Some(Decide)
    requires Offers(OnOffer(After(input, choices)), route)
    ensures var after := After(input, choices + [Returned(Decision(route))] + [Returned(NoOutput)]);
            && after.at == Some(RouteTarget(route))
            && (Doable(after) <==> CanStart(route, After(input, choices)))
            && (!Doable(after) ==> forall choice: Choice :: Perform(after, choice).at.None?)
  {
    hide After, Gated, Published, PhaseOf, Visit, Perform, PreparedWorkspace, PublishedBy, HasPlan, Implemented,
      Republished;
    var run, dispatched := After(input, choices), choices + [Returned(Decision(route))] + [Returned(NoOutput)];
    var after := After(input, dispatched);
    IsDispatched(input, choices, route);
    SameWorkspace(run, after);
    EveryRunIsGated(input, dispatched);
    EveryRunIsPublished(OfPublication, input, dispatched);
    EveryRunIsPublished(OfAny, input, dispatched);
    WhatRoutesFind(after, route);
    if route.DocumentationRoute? {
      DocumentationIsPrepared(input, choices);
      DocumentationIsReady(input, dispatched);
    }
    if CanStart(route, run) {
      StartsWhenReady(after, route);
    } else {
      forall choice: Choice
        ensures !Visit(after, after.at.value, choice).outcome.Ok? && Perform(after, choice).at.None?
      {
        CannotStart(after, choice);
      }
    }
  }

  // ---- The three exceptions happen -------------------------------------------------------------

  lemma ObservesReady(input: Input, choices: seq<Choice>, routes: seq<Route>)
    requires Ready(After(input, choices), routes)
    ensures var run, after := After(input, choices), After(input, choices + [Returned(NoOutput)]);
            && after.at == Some(Decide) && OnOffer(after) == Some(routes)
            && after.input == run.input && StoredOutput(after, Workspace) == StoredOutput(run, Workspace)
  {
    hide After, Ready;
    ReadyIs(After(input, choices), routes);
    Observes(input, choices, routes);
    SightIs(After(input, choices), routes);
  }

  /** There is a plan and its documentation, but no workspace. */
  const UNPREPARED := Input(true, true, None)

  lemma UnpreparedStarts() returns (routes: seq<Route>)
    ensures Resting(After(UNPREPARED, [Returned(NoOutput)]), routes, 0) && WorkspaceRoute in routes
    ensures After(UNPREPARED, [Returned(NoOutput)]).input == UNPREPARED
  {
    hide After, Resting;
    StuckStarts(UNPREPARED);
    routes :| Resting(After(UNPREPARED, [Returned(NoOutput)]), routes, 0) && StuckOn(UNPREPARED) in routes;
  }

  lemma WorkspaceBlocks(choices: seq<Choice>, t: Tally) returns (next: seq<Choice>)
    requires After(UNPREPARED, choices).at == Some(Workspace) && TallyOf(After(UNPREPARED, choices).steps) == t
    ensures Back(After(UNPREPARED, choices), After(UNPREPARED, next), Done(WorkspaceBlocked, Plain), t, 2, 1)
    ensures StoredOutput(After(UNPREPARED, next), Workspace) == Some(NOT_READY)
  {
    hide After, TallyOf, Back, Visit;
    var returned := choices + [Returned(NOT_READY)];
    IncludeBlocks(UNPREPARED, choices, Workspace, WorkspaceBlocked, t);
    BlockedVisits(After(UNPREPARED, choices), After(UNPREPARED, returned));
    Visited(UNPREPARED, choices, Returned(NOT_READY), Done(Workspace, NOT_READY), WorkspaceBlocked);
    Visited(UNPREPARED, returned, Returned(Plain), Done(WorkspaceBlocked, Plain), Observe);
    next := returned + [Returned(Plain)];
  }

  lemma BlockedVisits(run: Run, returned: Run)
    ensures Visit(run, Workspace, Returned(NOT_READY)) == Done(Workspace, NOT_READY)
    ensures Visit(returned, WorkspaceBlocked, Returned(Plain)) == Done(WorkspaceBlocked, Plain)
  {
  }

  /** A redesign is on offer, though there is no workspace it could enter. */
  lemma RedesignIsOfferedWithoutWorkspace() returns (choices: seq<Choice>)
    ensures var run := After(UNPREPARED, choices);
            && run.at == Some(Decide) && Offers(OnOffer(run), RedesignRoute)
            && !CanStart(RedesignRoute, run)
  {
    hide After, TallyOf, ResultRoutes, Resting, Ready, IsControlAttempt, Hesitant;
    var routes := UnpreparedStarts();
    var entered, t := DecidesLate(UNPREPARED, [Returned(NoOutput)], routes, WorkspaceRoute, 0);
    RestingCounts(After(UNPREPARED, [Returned(NoOutput)]), routes, 0);
    var blocked := WorkspaceBlocks(entered, t);
    StuckOffers(After(UNPREPARED, blocked), UNPREPARED);
    Rests(After(UNPREPARED, blocked), Done(WorkspaceBlocked, Plain), t, StuckRoutes(UNPREPARED));
    RestingReady(After(UNPREPARED, blocked), StuckRoutes(UNPREPARED), 1);
    ObservesReady(UNPREPARED, blocked, StuckRoutes(UNPREPARED));
    choices := blocked + [Returned(NoOutput)];
  }

  lemma RestingReady(run: Run, routes: seq<Route>, n: nat)
    requires Resting(run, routes, n)
    ensures Ready(run, routes)
  {
  }

  /** The plan, its documentation and a workspace on the default branch are at hand. */
  const DIRECT := Input(true, true, Some(true))

  const UNFINISHED := Wrapped(FinalizeDefaultBranch, Status(false))

  lemma DirectOffers(run: Run)
    requires run.input == DIRECT
    ensures ResultRoutes(run, Prepare, Plain) == Some(AT_FIRST)
    ensures ResultRoutes(run, ClassifyImplementation, Assessed(Verify)) == Some(IMPLEMENTED)
    ensures ResultRoutes(run, LocalVerificationReady, Plain) == Some(VERIFIED)
    ensures ResultRoutes(run, PublicationResult, UNFINISHED) == Some(PUBLISHED)
    ensures IsControlAttempt(Prepare)
  {
  }

  lemma FinalizeEdges(run: Run)
    requires run.input == DIRECT
    ensures IsComputed(RouteVerifiedWorkspace) && ComputedOutput(run, RouteVerifiedWorkspace) == Some(Mode(true))
    ensures NextOk(RouteVerifiedWorkspace, Mode(true)) == Some(FinalizeDefaultBranch)
    ensures !IsComputed(FinalizeDefaultBranch) && !EntersWorkspace(FinalizeDefaultBranch)
    ensures NextOk(FinalizeDefaultBranch, Status(false)) == Some(PublicationResult)
    ensures NextOk(PublicationResult, UNFINISHED) == Some(Observe)
    ensures FinalizeDefaultBranch in Sources(PublicationResult)
  {
    hide Offered, LatestOf;
  }

  /** The default branch is not finalized. */
  lemma LeavesUnfinished(choices: seq<Choice>, t: Tally) returns (next: seq<Choice>)
    requires var run := After(DIRECT, choices);
             run.input == DIRECT && run.at == Some(RouteVerifiedWorkspace) && TallyOf(run.steps) == t
    ensures Back(After(DIRECT, choices), After(DIRECT, next), Done(PublicationResult, UNFINISHED), t, 3, 3)
  {
    hide After, TallyOf, Tallied, Executed, IsComputed, ComputedOutput, NextOk, EntersWorkspace, Sources;
    FinalizeEdges(After(DIRECT, choices));
    ResultsAreSilent(PublicationResult);
    Compute(DIRECT, choices, RouteVerifiedWorkspace, Mode(true), FinalizeDefaultBranch);
    Quiet(t, Done(RouteVerifiedWorkspace, Mode(true)));
    var routed := choices + [Returned(NoOutput)];
    Agent(DIRECT, routed, FinalizeDefaultBranch, Status(false), PublicationResult);
    Quiet(t, Done(FinalizeDefaultBranch, Status(false)));
    next := routed + [Returned(Status(false))];
    ResultWraps(After(DIRECT, next), PublicationResult);
    Compute(DIRECT, next, PublicationResult, UNFINISHED, Observe);
    Quiet(t, Done(PublicationResult, UNFINISHED));
    next := next + [Returned(NoOutput)];
  }

  lemma DirectStarts()
    ensures var run := After(DIRECT, [Returned(NoOutput)]);
            run.input == DIRECT && Resting(run, AT_FIRST, 0) && TallyOf(run.steps).level == -1
  {
    hide After, TallyOf, ResultRoutes, IsControlAttempt;
    var run := After(DIRECT, [Returned(NoOutput)]);
    Prepares(DIRECT);
    PreparedTally();
    DirectOffers(run);
    Rests(run, Done(Prepare, Plain), TallyOf(run.steps), AT_FIRST);
  }

  /** Implementation and verification; the publication is up next. */
  lemma DirectVerified() returns (choices: seq<Choice>)
    ensures var run := After(DIRECT, choices);
            run.input == DIRECT && Resting(run, VERIFIED, 2) && TallyOf(run.steps).level == 1
  {
    hide After, TallyOf, ResultRoutes, Resting, IsControlAttempt, Hesitant;
    choices := [Returned(NoOutput)];
    DirectStarts();
    RestingCounts(After(DIRECT, choices), AT_FIRST, 0);
    Attempts();
    var entered, t := DecidesLate(DIRECT, choices, AT_FIRST, Implementation, 0);
    choices := ImplementsIt(DIRECT, entered, t);
    DirectOffers(After(DIRECT, choices));
    LevelKept(t, 0);
    Rests(After(DIRECT, choices), Done(ClassifyImplementation, Assessed(Verify)), t.(implemented := true), IMPLEMENTED);
    entered, t := DecidesLate(DIRECT, choices, IMPLEMENTED, Verification, 1);
    choices := VerifiesIt(DIRECT, entered, t);
    LevelKept(t, 1);
    DirectOffers(After(DIRECT, choices));
    Rests(After(DIRECT, choices), Done(LocalVerificationReady, Plain), t.(level := 1), VERIFIED);
  }

  /** A review is on offer, though a workspace on the default branch has no publication to review. */
  lemma ReviewIsOfferedDirectly() returns (choices: seq<Choice>)
    ensures var run := After(DIRECT, choices);
            && run.at == Some(Decide) && Offers(OnOffer(run), Review)
            && !CanStart(Review, run)
  {
    hide After, TallyOf, ResultRoutes, Resting, Ready, IsControlAttempt, Hesitant, RouteTarget;
    choices := DirectVerified();
    RestingCounts(After(DIRECT, choices), VERIFIED, 2);
    Attempts();
    Targets();
    var entered, t := DecidesLate(DIRECT, choices, VERIFIED, Publication, 2);
    choices := LeavesUnfinished(entered, t);
    DirectOffers(After(DIRECT, choices));
    Rests(After(DIRECT, choices), Done(PublicationResult, UNFINISHED), t, PUBLISHED);
    RestingReady(After(DIRECT, choices), PUBLISHED, 3);
    ObservesReady(DIRECT, choices, PUBLISHED);
    choices := choices + [Returned(NoOutput)];
  }

  /** The implementation fails, and the repair after it succeeds. */
  lemma RepairedAfterFailure() returns (choices: seq<Choice>)
    ensures var run := After(PREPARED, choices);
            run.input == PREPARED && Resting(run, REPAIRED, 2) && !TallyOf(run.steps).implemented
  {
    hide After, TallyOf, ResultRoutes, Resting, IsControlAttempt, Hesitant, RouteTarget;
    choices := [Returned(NoOutput)];
    LongStart();
    RestingCounts(After(PREPARED, choices), AT_FIRST, 0);
    Attempts();
    assert RouteTarget(Implementation) == Implement && RouteTarget(Repair) == Fix by { ChangeTargets(); }
    var entered, t := DecidesLate(PREPARED, choices, AT_FIRST, Implementation, 0);
    AgentFails(PREPARED, entered, Implement, t);
    var failed, after := entered + [NOTHING], t.(implemented := false);
    StuckOffers(After(PREPARED, failed), PREPARED);
    LevelKept(t, 0);
    Rests(After(PREPARED, failed), Undone(Implement), after, StuckRoutes(PREPARED));
    entered, t := DecidesLate(PREPARED, failed, StuckRoutes(PREPARED), Repair, 1);
    choices := RepairsIt(entered, t);
    AutoimplementWitnesses.Offers(After(PREPARED, choices));
    Rests(After(PREPARED, choices), Done(RepairResult, Wrapped(Fix, Plain)), t, REPAIRED);
  }

  lemma ChangeTargets()
    ensures RouteTarget(Implementation) == Implement && RouteTarget(Repair) == Fix
  {
  }

  /** A verification is on offer after a failed implementation was repaired, though it will look for its files. */
  lemma VerificationIsOfferedAfterFailure() returns (choices: seq<Choice>)
    ensures var run := After(PREPARED, choices);
            run.at == Some(Decide) && OnOffer(run) == Some(REPAIRED) && !CanStart(Verification, run)
  {
    hide After, TallyOf, Resting, Ready, Implemented;
    choices := RepairedAfterFailure();
    var run := After(PREPARED, choices);
    ImplementedIs(run);
    RestingReady(run, REPAIRED, 2);
    ObservesReady(PREPARED, choices, REPAIRED);
    ImplementedStays(choices, REPAIRED);
    choices := choices + [Returned(NoOutput)];
  }

  lemma ImplementedStays(choices: seq<Choice>, routes: seq<Route>)
    requires Ready(After(PREPARED, choices), routes)
    ensures Implemented(After(PREPARED, choices + [Returned(NoOutput)]).steps)
        == Implemented(After(PREPARED, choices).steps)
  {
    hide After, Ready, TallyOf;
    var run := After(PREPARED, choices);
    ReadyIs(run, routes);
    Observes(PREPARED, choices, routes);
    LatestOfStep(run.steps, Done(Observe, Sight(run, routes)), {Implement});
  }
}
