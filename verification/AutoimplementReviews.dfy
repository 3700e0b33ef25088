/** Review reuse: what is passed on to comments and delivery was reviewed at the head that was published. */
module AutoimplementReviews {
  import opened AutoimplementModel
  import opened AutoimplementGates
  import opened AutoimplementProgress

  // ---- What the trace says about reviews -----------------------------------------------------

  /** Every repository of the newest publication was reviewed at its head. */
  ghost predicate AllReviewed(steps: seq<Step>) {
    PublishedBy(steps).Some? && forall r :: r in PublishedBy(steps).value ==> ReviewedAtHead(steps, r)
  }

  /** Every repository of the newest publication was reviewed at its head, or is selected for review. */
  ghost predicate Covered(steps: seq<Step>) {
    && PublishedBy(steps).Some?
    && forall r :: r in PublishedBy(steps).value ==> ReviewedAtHead(steps, r) || r in Selected(steps)
  }

  lemma PublishedStep(steps: seq<Step>, s: Step)
    requires !s.node.Publish?
    ensures PublishedBy(steps + [s]) == PublishedBy(steps)
  {
    LatestOfStep(steps, s, {Publish});
  }

  lemma SelectedStep(steps: seq<Step>, s: Step)
    ensures Selected(steps + [s]) == if !s.node.SelectReviewCommands? then Selected(steps)
                                     else if s.output.Selection? then s.output.repositories else []
  {
    LatestOfStep(steps, s, {SelectReviewCommands});
  }

  lemma EntriesStep(steps: seq<Step>, s: Step)
    ensures ReviewEntries(steps + [s])
            == ReviewEntries(steps) + if s.node.AssessReview? && s.outcome.Ok?
              && s.output.Reviewed? then s.output.entries else []
    ensures forall r :: ReviewedAtHead(steps, r) ==> ReviewedAtHead(steps + [s], r)
  {
    assert (steps + [s])[..|steps|] == steps;
  }

  /** Only a publication takes away that everything was reviewed, and only that or a selection that it is covered. */
  lemma ReviewedStays(steps: seq<Step>, s: Step)
    requires !s.node.Publish?
    ensures AllReviewed(steps) ==> AllReviewed(steps + [s])
    ensures Covered(steps) && !s.node.SelectReviewCommands? ==> Covered(steps + [s])
  {
    PublishedStep(steps, s);
    SelectedStep(steps, s);
    EntriesStep(steps, s);
    hide PublishedBy, Selected, ReviewEntries, ReviewedAtHead;
  }

  /**
   * A selection asks for exactly what is missing: nothing, if and only if everything was reviewed, whatever was found.
   */
  lemma ReuseIff(run: Run, choice: Choice)
    requires run.at == Some(SelectReviewCommands)
    ensures var s := Visit(run, SelectReviewCommands, choice);
            && (s.outcome.Ok? && s.output == Selection([]) <==> AllReviewed(run.steps))
            && (s.outcome.Ok? ==> s.output.Selection? && Covered(run.steps + [s]))
  {
    hide PublishedBy, Selected, ReviewEntries, ReviewedAtHead;
    var s := Visit(run, SelectReviewCommands, choice);
    PublishedStep(run.steps, s);
    SelectedStep(run.steps, s);
    EntriesStep(run.steps, s);
    if PublishedBy(run.steps).Some? {
      var missing := Unreviewed(PublishedBy(run.steps).value, run.steps);
      assert missing != [] ==> missing[0] in missing;
    }
  }

  /** An assessment in which no invocation failed leaves nothing of what was covered unreviewed. */
  lemma AssessmentReviews(steps: seq<Step>, s: Step)
    requires Covered(steps) && s.node.AssessReview? && s.outcome.Ok? && Assesses(s.output, Selected(steps))
    requires s.output.findings != CommandError
    ensures AllReviewed(steps + [s])
  {
    PublishedStep(steps, s);
    EntriesStep(steps, s);
    var entries, selected := s.output.entries, Selected(steps);
    hide PublishedBy, Selected, ReviewEntries;
    forall r | r in PublishedBy(steps).value ensures ReviewedAtHead(steps + [s], r) {
      if r in selected {
        assert r in multiset(selected) && r in RepositoriesOf(entries);
        var i :| 0 <= i < |entries| && RepositoriesOf(entries)[i] == r;
        assert entries[i] in ReviewEntries(steps + [s]) && entries[i] in entries;
      }
    }
  }

  // ---- What every visit keeps ----------------------------------------------------------------

  ghost predicate OffersP2(routes: Option<seq<Route>>) { routes.Some? && AddressP2Route in routes.value }

  /** Wherever the run stands on a review, that review is of the published heads. */
  ghost predicate Stands(run: Run) {
    run.at.Some? ==>
      match run.at.value
      case RunReview => Covered(run.steps)
      case RouteRunReviewResult => Covered(run.steps)
      case AssessReview => Covered(run.steps)
      case ReviewResult =>
        run.steps != [] && (Finds(Newest(run.steps).output, P2) ==> AllReviewed(run.steps))
      case AddressP2 => AllReviewed(run.steps)
      case VerifyP2 => AllReviewed(run.steps)
      case Observe =>
        run.steps != []
        && (OffersP2(ResultRoutes(run, Newest(run.steps).node, Newest(run.steps).output)) ==> AllReviewed(run.steps))
      case Decide => OffersP2(Observed(run)) ==> AllReviewed(run.steps)
      case ControlFailure => OffersP2(Observed(run)) ==> AllReviewed(run.steps)
      case Dispatch => StoredOutput(run, Decide) == Some(Decision(AddressP2Route)) ==> AllReviewed(run.steps)
      case _ => true
  }

  /** The routes on offer. */
  function Observed(run: Run): Option<seq<Route>> {
    if Observe in run.outputs && run.outputs[Observe].Observation? then Some(run.outputs[Observe].available) else None
  }

  /** Fixing P2 findings is offered after a review that found them, or a failed try; else only as it was before. */
  lemma WhoOffersP2(run: Run, node: Node, output: Output)
    requires OffersP2(ResultRoutes(run, node, output))
    ensures node in {ReviewResult, AddressP2, VerifyP2, Decide, ControlFailure}
  {
    OthersOfferNoP2(run);
    hide InitialRoutes, AfterWorkspace, CiRoutes, PlanRoutes, ReviewRoutes, PreviousRoutes, Inner, Finds;
  }

  lemma OthersOfferNoP2(run: Run)
    ensures AddressP2Route !in InitialRoutes(run) && AddressP2Route !in AfterWorkspace(run)
    ensures forall result :: AddressP2Route !in CiRoutes(result) && AddressP2Route !in PlanRoutes(result)
  {
    hide HasPlan, DocumentationIsCurrent, PreparedWorkspace;
  }

  lemma ReviewOffersP2(output: Output)
    requires output.Wrapped? && AddressP2Route in ReviewRoutes(output)
    ensures !output.source.RepairReviewCommand? && Finds(Inner(output), P2)
  {
  }

  /** The steps that lead to the nodes in question. */
  lemma WhereFrom(s: Step)
    requires s.outcome.Ok?
    ensures var next := NextOk(s.node, s.output);
            && (next == Some(RunReview) ==> s.node.SelectReviewCommands? || s.node.Dispatch?)
            && (next == Some(RouteRunReviewResult) ==> s.node.RunReview?)
            && (next == Some(AssessReview) ==> s.node.RouteRunReviewResult?)
            && (next == Some(ReviewResult) ==> s.node in {AssessReview, RepairReviewCommand, SelectReviewCommands})
            && (next == Some(AddressP2) ==> s.node.Dispatch? && s.output == Decision(AddressP2Route))
            && (next == Some(VerifyP2) ==> s.node.AddressP2?)
            && (next == Some(Decide) <==> s.node.Observe?)
            && (next == Some(Dispatch) <==> s.node.Decide?)
            && next != Some(ControlFailure)
            && (s.node.Dispatch? ==> next !in {Some(RunReview), Some(Observe)})
            && (next == Some(Observe) ==> s.node !in {AddressP2, VerifyP2, Publish, SelectReviewCommands})
  {
  }

  /** Observing, deciding and retrying offer P2 fixes only as before. */
  lemma LoopStands(run: Run, choice: Choice)
    requires run.at.Some? && run.at.value in {Observe, Decide, ControlFailure, Dispatch}
    requires Gated(run) && Stands(run)
    ensures Stands(Perform(run, choice))
  {
    hide PhaseOf, Level, Delivered, ResultRoutes, AllReviewed, Covered, RouteOpen, NodeOpen, AllOpen, LatestAttempt,
      AcceptedDecisions, FailedDecisions, NoProgressAttempts, MustDrop, InitialRoutes, Fresh;
    PhaseStep(run, choice);
    var s, after := Visit(run, run.at.value, choice), Perform(run, choice);
    ReviewedStays(run.steps, s);
    if s.outcome.Ok? { WhereFrom(s); }
    if run.at == Some(Observe) {
      ObservationStands(run);
    }
    if run.at == Some(ControlFailure) && after.at == Some(Observe) {
      RetriesOffer(after);
    }
  }

  lemma ObservationStands(run: Run)
    requires run.at == Some(Observe) && Gated(run)
    ensures OffersP2(Offered(run)) ==> OffersP2(ResultRoutes(run, Newest(run.steps).node, Newest(run.steps).output))
  {
    hide PhaseOf, ResultRoutes, LatestAttempt, AcceptedDecisions, MustDrop, IsControlAttempt, Fresh, NodeOpen, AllOpen;
    ReturnsAreAttempts(Newest(run.steps));
    NewestIsLatest(run.steps);
  }

  lemma OnlyAssessmentsFind(run: Run, choice: Choice)
    requires run.at.Some?
    ensures var s := Visit(run, run.at.value, choice);
            && (s.node in {RepairReviewCommand, SelectReviewCommands} ==> !s.output.Reviewed?)
            && (s.node.AssessReview? && s.outcome.Ok? ==> Assesses(s.output, Selected(run.steps)))
  {
    hide PublishedBy, Selected, Assesses, PreparedWorkspace, Offered, LatestAttempt, AcceptedDecisions, FailedDecisions;
  }

  /** A visit of a branch stands on the reviews that the branch was entered with or has made. */
  lemma BranchStands(run: Run, choice: Choice)
    requires run.at.Some? && run.at.value !in {Observe, Decide, ControlFailure, Dispatch}
    requires Gated(run) && Stands(run)
    ensures Stands(Perform(run, choice))
  {
    hide PhaseOf, Level, Delivered, ResultRoutes, AllReviewed, Covered, RouteOpen, NodeOpen, AllOpen, LatestAttempt,
        NextOk,
      AcceptedDecisions, FailedDecisions, InitialRoutes, Offered, PublishedBy, Selected, AssessmentOf, RepositoriesOf,
        Fresh, Inner, Visit, Moves, Offering;
    PhaseStep(run, choice);
    var s, after := Visit(run, run.at.value, choice), Perform(run, choice);
    if s.outcome.Ok? { WhereFrom(s); }
    if !s.node.Publish? { ReviewedStays(run.steps, s); }
    if s.node.SelectReviewCommands? { ReuseIff(run, choice); }
    OnlyAssessmentsFind(run, choice);
    if s.node.AssessReview? && s.outcome.Ok? && s.output.findings != CommandError { AssessmentReviews(run.steps, s); }
    OnlyTheLoopDecides(s);
    if after.at == Some(Observe) && OffersP2(ResultRoutes(after, s.node, s.output)) {
      WhoOffersP2(after, s.node, s.output);
      if s.node.ReviewResult? { ResultStands(run, choice, after); }
    }
  }

  /** The result of a review offers P2 fixes only if the review that was just made found P2. */
  lemma ResultStands(run: Run, choice: Choice, after: Run)
    requires run.at == Some(ReviewResult) && Gated(run) && Stands(run)
    requires var s := Visit(run, ReviewResult, choice); OffersP2(ResultRoutes(after, ReviewResult, s.output))
    ensures AllReviewed(run.steps)
  {
    var s := Visit(run, ReviewResult, choice);
    BranchReads(run, choice);
    var src := Newest(run.steps);
    assert s.output == Wrapped(src.node, src.output);
    hide PhaseOf, AllReviewed;
    ReviewOffersP2(s.output);
  }

  lemma VisitStands(run: Run, choice: Choice)
    requires run.at.Some? && Gated(run) && Stands(run)
    ensures Stands(Perform(run, choice))
  {
    hide Stands, Gated, Perform;
    if run.at.value in {Observe, Decide, ControlFailure, Dispatch} {
      LoopStands(run, choice);
    } else {
      BranchStands(run, choice);
    }
  }

  lemma StartStands(input: Input)
    ensures Stands(Start(input))
  {
  }

  /** In every run. */
  lemma {:induction false} EveryRunStands(input: Input, choices: seq<Choice>)
    ensures Stands(After(input, choices))
    decreases |choices|
  {
    hide Stands, Gated, Perform;
    if choices == [] {
      StartStands(input);
    } else {
      var before := After(input, choices[..|choices| - 1]);
      EveryRunStands(input, choices[..|choices| - 1]);
      EveryRunIsGated(input, choices[..|choices| - 1]);
      if before.at.Some? { VisitStands(before, choices[|choices| - 1]); }
    }
  }

  // ---- What it means -------------------------------------------------------------------------

  /** What passes the review phase was reviewed. */
  lemma PassingIsReviewed(run: Run, choice: Choice)
    requires run.at.Some? && Stands(run) && Passes(Visit(run, run.at.value, choice), 3)
    ensures AllReviewed(run.steps + [Visit(run, run.at.value, choice)])
  {
    var s := Visit(run, run.at.value, choice);
    assert s.node == run.at.value && s.outcome.Ok?;
    hide AllReviewed, Covered, PublishedBy, Selected, ReviewedAtHead, Unreviewed;
    ReviewedStays(run.steps, s);
    if s.node.SelectReviewCommands? { ReuseIff(run, choice); }
    if s.node.AssessReview? { AssessmentReviews(run.steps, s); }
  }

  /** Whatever passes the review phase in a run, every repository published last was reviewed at its head by then. */
  lemma ReviewPhaseIsReviewed(input: Input, choices: seq<Choice>, k: nat)
    requires k < |After(input, choices).steps| && Passes(After(input, choices).steps[k], 3)
    ensures AllReviewed(After(input, choices).steps[..k + 1])
  {
    hide After, Visit, Perform, Passes, AllReviewed, Stands;
    var steps := After(input, choices).steps;
    History(input, choices, k);
    EveryRunStands(input, choices[..k]);
    assert steps[..k + 1] == steps[..k] + [steps[k]];
    PassingIsReviewed(After(input, choices[..k]), choices[k]);
  }

  /** The entries are those of the assessments on record. */
  lemma {:induction false} EntryStep(steps: seq<Step>, e: Assessment) returns (j: nat)
    requires e in ReviewEntries(steps)
    ensures j < |steps| && steps[j].node.AssessReview? && steps[j].outcome.Ok? && steps[j].output.Reviewed?
    ensures e in steps[j].output.entries
    decreases |steps|
  {
    if e in ReviewEntries(steps[..|steps| - 1]) { j := EntryStep(steps[..|steps| - 1], e); } else { j := |steps| - 1; }
  }

  /**
   * A delivery decision is accepted only when, after the last accepted change, every phase was passed in order, and
   * each repository published before the review phase was passed had been reviewed by a step on record, at the
   * published head.
   */
  lemma DeliveryIsReviewed(input: Input, choices: seq<Choice>, choice: Choice) returns (change: nat, at: seq<nat>)
    requires After(input, choices).at == Some(Decide)
    requires Accepted(Visit(After(input, choices), Decide, choice))
        && Visit(After(input, choices), Decide, choice).output.route == Delivery
    ensures var steps := After(input, choices).steps;
            && change < |steps| && Changes(steps[change]) && (forall k :: change < k < |steps| ==> !Changes(steps[k]))
            && PassedInOrder(steps, change, at, 5)
            && PublishedBy(steps[..at[2]]).Some?
            && forall r :: r in PublishedBy(steps[..at[2]]).value ==>
                exists j :: 0 <= j <= at[2] && Reviews(steps[j], r)
  {
    hide After, Passes, Changes, Visit;
    change, at := DeliveryFollowsEveryPhase(input, choices, choice);
    var steps := After(input, choices).steps;
    assert Passes(steps[at[2]], 2 + 1);
    ReviewPhaseIsReviewed(input, choices, at[2]);
    assert !steps[at[2]].node.Publish? by { PassesThree(steps[at[2]]); }
    ReviewedByThen(steps, at[2]);
  }

  lemma PassesThree(s: Step)
    requires Passes(s, 3)
    ensures !s.node.Publish?
  {
  }

  lemma ReviewedByThen(steps: seq<Step>, k: nat)
    requires k < |steps| && AllReviewed(steps[..k + 1]) && !steps[k].node.Publish?
    ensures PublishedBy(steps[..k]).Some?
    ensures forall r :: r in PublishedBy(steps[..k]).value ==> exists j :: 0 <= j <= k && Reviews(steps[j], r)
  {
    assert steps[..k + 1] == steps[..k] + [steps[k]];
    PublishedStep(steps[..k], steps[k]);
    hide PublishedBy, ReviewEntries;
    forall r | r in PublishedBy(steps[..k]).value ensures exists j :: 0 <= j <= k && Reviews(steps[j], r) {
      var e :| e in ReviewEntries(steps[..k + 1]) && e.repository == r && e.succeeded;
      var j := EntryStep(steps[..k + 1], e);
      assert Reviews(steps[j], r);
    }
  }

  /** The step assessed a completed review of the repository at this head. */
  ghost predicate Reviews(s: Step, r: Repository) {
    && s.node.AssessReview? && s.outcome.Ok? && s.output.Reviewed?
    && exists e :: e in s.output.entries && e.repository == r && e.succeeded
  }
}
