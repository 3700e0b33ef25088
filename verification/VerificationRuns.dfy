/** The change verification workflow: its nodes, the repair guard, and every run of them. */
module VerificationRuns {
  import opened ChangeVerification

  const MAX_REPAIR_ATTEMPTS := 2
  const MAX_STEPS := 30

  datatype Node =
    | SelectChecks | PlanChecks | PlanChecksBlocked | RunCandidate | RunBase | ClassifyNode | RouteReconciliation
    | RepairGuard | MechanicalRepair | SemanticRepair | ReconcileRepair | Judge | ReadyNode | BlockedNode

  datatype Outcome = Ok | TimedOut | Failed

  datatype Judgment = JudgedReady | JudgedRepair | JudgedBlocked
  datatype Reconciliation = Verify | Retry | CannotSettle
  datatype Guard = Mechanical(digest: FailurePrint) | Semantic(digest: FailurePrint) | GuardBlocked(repeated: bool)

  datatype Output =
    | NoOutput
    | Selected(run: bool)
    | Planned(checks: seq<Check>, untested: seq<string>)
    | Candidate(items: seq<Item>)
    | Base(items: seq<Item>, cleanupEvidence: seq<string>, cleanupFailed: bool)
    | Classified(route: Route)
    | Guarded(guard: Guard)
    | Repaired(attempt: Attempt)
    | Judged(judgment: Judgment)
    | Reconciled(reconciliation: Reconciliation)

  datatype Step = Step(node: Node, outcome: Outcome, output: Output)

  /** What the outside answers to a visit: an outcome, and what it returns when that is ok. */
  datatype Choice = Choice(outcome: Outcome, output: Output, result: string)

  datatype Input = Input(checks: seq<Check>, untested: seq<string>)

  datatype Run = Run(input: Input, plan: Option<Output>, candidate: seq<Item>, base: Option<Output>, steps: seq<Step>,
      at: Option<Node>)

  // ---- Reading the trace ---------------------------------------------------------------------

  predicate IsRepair(node: Node) { node.MechanicalRepair? || node.SemanticRepair? }

  /** The digest of the last repair that the guard let through. */
  function LastGuarded(steps: seq<Step>, none: FailurePrint): FailurePrint {
    if steps == [] then none
    else
      var s := steps[|steps| - 1];
      if s.node.RepairGuard? && s.outcome.Ok? && s.output.Guarded?
          && !s.output.guard.GuardBlocked? then s.output.guard.digest
      else LastGuarded(steps[..|steps| - 1], none)
  }

  const NO_PRINT := FailurePrint(multiset{}, multiset{}, multiset{})

  function InterruptedResult(s: Step): string {
    if s.node.SemanticRepair? then "semanticRepair ended early" else "mechanicalRepair ended early"
  }

  /** The repairs a trace records: those reported, and those that failed or timed out. */
  function Attempts(steps: seq<Step>): seq<Attempt> {
    if steps == [] then []
    else
      var before, s := Attempts(steps[..|steps| - 1]), steps[|steps| - 1];
      if !IsRepair(s.node) then before
      else if s.outcome.Ok? then if s.output.Repaired? then before + [s.output.attempt] else before
      else before + [Attempt(|before| + 1, LastGuarded(steps[..|steps| - 1], NO_PRINT), InterruptedResult(s))]
  }

  method PreviousRepairAttempts(steps: seq<Step>) returns (attempts: seq<Attempt>)
    ensures attempts == Attempts(steps)
  {
    attempts := [];
    var digest := NO_PRINT;
    for i := 0 to |steps|
      invariant attempts == Attempts(steps[..i]) && digest == LastGuarded(steps[..i], NO_PRINT)
    {
      assert steps[..i + 1][..i] == steps[..i];
      var step := steps[i];
      if step.node.RepairGuard? && step.outcome.Ok? && step.output.Guarded? && !step.output.guard.GuardBlocked? {
        digest := step.output.guard.digest;
      }
      if IsRepair(step.node) {
        if step.outcome.Ok? {
          if step.output.Repaired? { attempts := attempts + [step.output.attempt]; }
        } else {
          attempts := attempts + [Attempt(|attempts| + 1, digest, InterruptedResult(step))];
        }
      }
    }
    assert steps[..|steps|] == steps;
  }

  function ChecksOf(run: Run): seq<Check> {
    if run.input.checks != [] then run.input.checks
    else if run.plan.Some? && run.plan.value.Planned? then run.plan.value.checks
    else []
  }

  function UntestedOf(run: Run): seq<string> {
    run.input.untested + if run.plan.Some? && run.plan.value.Planned? then run.plan.value.untested else []
  }

  function EvidenceOf(run: Run): Evidence {
    if run.base.Some? && run.base.value.Base? then
      Evidence(ChecksOf(run), run.candidate, run.base.value.items, run.base.value.cleanupEvidence,
               run.base.value.cleanupFailed, Attempts(run.steps), UntestedOf(run))
    else Evidence(ChecksOf(run), run.candidate, [], [], false, Attempts(run.steps), UntestedOf(run))
  }

  function LatestClassification(run: Run): Classification { Classify(EvidenceOf(run)) }

  /** Some completed repair was made for this very failure. */
  predicate Repeated(steps: seq<Step>, digest: FailurePrint) {
    exists s :: s in steps && IsRepair(s.node) && s.outcome.Ok? && s.output.Repaired?
      && s.output.attempt.digest == digest
  }

  predicate AllFixable(c: Classification, checks: seq<Check>) {
    c.related != [] && forall f :: f in c.related ==> exists check ::
      check in checks && check.id == f.checkId
      && check.fixable
  }

  function GuardOf(run: Run): Guard {
    var c := LatestClassification(run);
    var repeated := Repeated(run.steps, c.digest);
    if |Attempts(run.steps)| >= MAX_REPAIR_ATTEMPTS || repeated then GuardBlocked(repeated)
    else if AllFixable(c, ChecksOf(run)) then Mechanical(c.digest)
    else Semantic(c.digest)
  }

  // ---- Visiting a node -----------------------------------------------------------------------

  /** The step a visit records. */
  function Visit(run: Run, node: Node, choice: Choice): Step {
    match node
    case SelectChecks => Step(node, Ok, Selected(run.input.checks != []))
    case PlanChecks => Answer(node, choice, choice.output.Planned?)
    case PlanChecksBlocked => Step(node, Ok, NoOutput)
    case RunCandidate => Answer(node, choice, choice.output.Candidate?)
    case RunBase => Answer(node, choice, choice.output.Base?)
    case ClassifyNode => Step(node, Ok, Classified(LatestClassification(run).route))
    case RouteReconciliation =>
      if run.steps != [] && run.steps[|run.steps| - 1].output.Reconciled?
          then Step(node, Ok, run.steps[|run.steps| - 1].output)
      else Step(node, Failed, NoOutput)
    case RepairGuard => Step(node, Ok, Guarded(GuardOf(run)))
    case MechanicalRepair => RepairStep(run, node, choice)
    case SemanticRepair => RepairStep(run, node, choice)
    case ReconcileRepair => Answer(node, choice, choice.output.Reconciled?)
    case Judge => Answer(node, choice, choice.output.Judged?)
    case ReadyNode => Step(node, Ok, NoOutput)
    case BlockedNode => Step(node, Ok, NoOutput)
  }

  function Answer(node: Node, choice: Choice, accepted: bool): Step {
    if choice.outcome.Ok? && accepted then Step(node, Ok, choice.output)
    else Step(node, if choice.outcome.Ok? then Failed else choice.outcome, NoOutput)
  }

  /** A repair reports the failure it was made for. */
  function RepairStep(run: Run, node: Node, choice: Choice): Step {
    if choice.outcome.Ok? then
      Step(node, Ok, Repaired(Attempt(|Attempts(run.steps)| + 1, LatestClassification(run).digest, choice.result)))
    else Step(node, choice.outcome, NoOutput)
  }

  /** The edge table; None where the run ends. */
  function Next(s: Step): Option<Node> {
    match s.node
    case SelectChecks => if s.output.Selected? then Some(if s.output.run then RunCandidate else PlanChecks) else None
    case PlanChecks => Some(if s.outcome.Ok? then RunCandidate else PlanChecksBlocked)
    case PlanChecksBlocked => Some(BlockedNode)
    case RunCandidate => if s.outcome.Ok? then Some(RunBase) else None
    case RunBase => if s.outcome.Ok? then Some(ClassifyNode) else None
    case ClassifyNode =>
      if !s.output.Classified? then None
      else
        (match s.output.route
         case Ready => Some(ReadyNode)
         case Repairable => Some(RepairGuard)
         case NeedsJudgment => Some(Judge)
         case BlockedRoute => Some(BlockedNode))
    case RepairGuard =>
      if !s.output.Guarded? then None
      else
        (match s.output.guard
         case Mechanical(_) => Some(MechanicalRepair)
         case Semantic(_) => Some(SemanticRepair)
         case GuardBlocked(_) => Some(BlockedNode))
    case MechanicalRepair => if s.outcome.Ok? then Some(RunCandidate) else None
    case SemanticRepair => Some(if s.outcome.Ok? then RunCandidate else ReconcileRepair)
    case ReconcileRepair => Some(if s.outcome.Ok? then RouteReconciliation else BlockedNode)
    case RouteReconciliation =>
      if !s.output.Reconciled? then None
      else
        (match s.output.reconciliation
         case Verify => Some(RunCandidate)
         case Retry => Some(RepairGuard)
         case CannotSettle => Some(BlockedNode))
    case Judge =>
      if !s.output.Judged? then None
      else
        (match s.output.judgment
         case JudgedReady => Some(ReadyNode)
         case JudgedRepair => Some(RepairGuard)
         case JudgedBlocked => Some(BlockedNode))
    case ReadyNode => None
    case BlockedNode => None
  }

  function Perform(run: Run, choice: Choice): Run
    requires run.at.Some?
  {
    var s := Visit(run, run.at.value, choice);
    Run(run.input,
        if s.node.PlanChecks? && s.outcome.Ok? then Some(s.output) else run.plan,
        if s.node.RunCandidate? && s.output.Candidate? then s.output.items else run.candidate,
        if s.node.RunBase? && s.outcome.Ok? then Some(s.output) else run.base,
        run.steps + [s],
        Next(s))
  }

  function Start(input: Input): Run { Run(input, None, [], None, [], Some(SelectChecks)) }

  /** The run after the outside has made `choices`, one per visit, until it ended. */
  function After(input: Input, choices: seq<Choice>): Run {
    if choices == [] then Start(input)
    else
      var before := After(input, choices[..|choices| - 1]);
      if before.at.None? then before else Perform(before, choices[|choices| - 1])
  }

  // ---- The bound -----------------------------------------------------------------------------

  /** The most visits left at a node, when `attempts` repairs have been made. */
  function Remaining(node: Option<Node>, attempts: nat): int {
    if node.None? then 0
    else
      match node.value
      case SelectChecks => 24
      case PlanChecks => 23
      case PlanChecksBlocked => 2
      case RunCandidate => 22 - 8 * attempts
      case RunBase => 21 - 8 * attempts
      case ClassifyNode => 20 - 8 * attempts
      case Judge => 19 - 8 * attempts
      case RepairGuard => 18 - 8 * attempts
      case MechanicalRepair => 17 - 8 * attempts
      case SemanticRepair => 17 - 8 * attempts
      case ReconcileRepair => 24 - 8 * attempts
      case RouteReconciliation => 23 - 8 * attempts
      case ReadyNode => 1
      case BlockedNode => 1
  }

  /** How many repairs can have been made at a node. */
  predicate Within(node: Node, attempts: nat) {
    match node
    case SelectChecks => attempts == 0
    case PlanChecks => attempts == 0
    case PlanChecksBlocked => attempts == 0
    case MechanicalRepair => attempts < MAX_REPAIR_ATTEMPTS
    case SemanticRepair => attempts < MAX_REPAIR_ATTEMPTS
    case ReconcileRepair => 0 < attempts <= MAX_REPAIR_ATTEMPTS
    case RouteReconciliation => 0 < attempts <= MAX_REPAIR_ATTEMPTS
    case _ => attempts <= MAX_REPAIR_ATTEMPTS
  }

  function Repairs(steps: seq<Step>): nat {
    if steps == [] then 0 else Repairs(steps[..|steps| - 1]) + if IsRepair(steps[|steps| - 1].node) then 1 else 0
  }

  /** Every repair visited is an attempt on record. */
  ghost predicate Bounded(run: Run) {
    && Repairs(run.steps) == |Attempts(run.steps)| <= MAX_REPAIR_ATTEMPTS
    && (run.at.Some? ==> Within(run.at.value, |Attempts(run.steps)|))
  }

  lemma StepCounts(run: Run, choice: Choice)
    requires run.at.Some?
    ensures var s, after := Visit(run, run.at.value, choice), Perform(run, choice);
            && s.node == run.at.value && after.steps == run.steps + [s] && after.at == Next(s)
            && Repairs(after.steps) == Repairs(run.steps) + (if IsRepair(s.node) then 1 else 0)
            && |Attempts(after.steps)| == |Attempts(run.steps)| + (if IsRepair(s.node) then 1 else 0)
            && (s.node.RepairGuard? && !s.output.guard.GuardBlocked? ==> |Attempts(run.steps)| < MAX_REPAIR_ATTEMPTS)
  {
    hide LatestClassification, LastGuarded, AllFixable;
    var s := Visit(run, run.at.value, choice);
    assert (run.steps + [s])[..|run.steps|] == run.steps;
  }

  lemma VisitSpends(run: Run, choice: Choice)
    requires run.at.Some? && Bounded(run)
    ensures Bounded(Perform(run, choice))
    ensures var n := |Attempts(Perform(run, choice).steps)|;
            0 <= Remaining(Perform(run, choice).at, n) < Remaining(run.at, |Attempts(run.steps)|)
  {
    hide LatestClassification, LastGuarded, AllFixable, Attempts, Repairs, Perform, Repeated;
    StepCounts(run, choice);
  }

  /** Every run makes at most two repairs and at most 24 visits, so the limit of 30 steps is never why a run ends. */
  lemma {:induction false} EveryRunEnds(input: Input, choices: seq<Choice>)
    ensures Bounded(After(input, choices)) && Repairs(After(input, choices).steps) <= MAX_REPAIR_ATTEMPTS
    ensures |After(input, choices).steps|
        + Remaining(After(input, choices).at, |Attempts(After(input, choices).steps)|) <= 24 < MAX_STEPS
    ensures |After(input, choices).steps| <= 24
    ensures After(input, choices).at.Some? ==> |After(input, choices).steps| == |choices|
    ensures |choices| >= 24 ==> After(input, choices).at.None?
    decreases |choices|
  {
    hide Perform, Attempts, Repairs;
    if choices == [] {
      NothingAttempted();
    } else {
      var before, choice := After(input, choices[..|choices| - 1]), choices[|choices| - 1];
      EveryRunEnds(input, choices[..|choices| - 1]);
      if before.at.Some? {
        VisitSpends(before, choice);
        StepCounts(before, choice);
      }
      SomethingRemains(After(input, choices));
    }
  }

  lemma NothingAttempted()
    ensures Attempts([]) == [] && Repairs([]) == 0
  {
  }

  lemma SomethingRemains(run: Run)
    requires Bounded(run)
    ensures run.at.Some? ==> Remaining(run.at, |Attempts(run.steps)|) > 0
    ensures Remaining(run.at, |Attempts(run.steps)|) >= 0
  {
    hide Attempts, Repairs;
  }

  // ---- No failure is repaired twice ----------------------------------------------------------

  /** Completed repairs were made for different failures. */
  ghost predicate RepairsDiffer(steps: seq<Step>) {
    forall i, j :: 0 <= i < j < |steps| && steps[i].output.Repaired? && steps[j].output.Repaired? ==>
                     steps[i].output.attempt.digest != steps[j].output.attempt.digest
  }

  /**
   * Before a repair, no completed repair was made for the failure at hand; and repairs are recorded as what they are.
   */
  ghost predicate Unrepeated(run: Run) {
    && RepairsDiffer(run.steps)
    && (forall s :: s in run.steps && s.output.Repaired? ==> IsRepair(s.node) && s.outcome.Ok?)
    && (run.at.Some? && IsRepair(run.at.value) ==> !Repeated(run.steps, LatestClassification(run).digest))
  }

  lemma AttemptsKept(steps: seq<Step>, s: Step)
    requires !IsRepair(s.node)
    ensures Attempts(steps + [s]) == Attempts(steps)
  {
    assert (steps + [s])[..|steps|] == steps;
  }

  /** Only a repair, a plan or new results change the evidence. */
  lemma EvidenceKept(run: Run, choice: Choice)
    requires run.at.Some? && run.at.value in {ClassifyNode, Judge, RepairGuard}
    ensures EvidenceOf(Perform(run, choice)) == EvidenceOf(run)
  {
    hide LatestClassification, GuardOf, Attempts;
    AttemptsKept(run.steps, Visit(run, run.at.value, choice));
  }

  lemma OutputsAreOwn(run: Run, node: Node, choice: Choice)
    ensures Visit(run, node, choice).node == node
    ensures Visit(run, node, choice).output.Repaired? ==>
              IsRepair(node) && Visit(run, node, choice).outcome.Ok?
                && Visit(run, node, choice).output.attempt.digest == LatestClassification(run).digest
  {
    hide LatestClassification, GuardOf;
  }

  lemma StaysUnrepeated(run: Run, choice: Choice)
    requires run.at.Some? && Unrepeated(run)
    ensures Unrepeated(Perform(run, choice))
  {
    hide LatestClassification, Attempts, EvidenceOf, Visit;
    var s, after := Visit(run, run.at.value, choice), Perform(run, choice);
    OutputsAreOwn(run, run.at.value, choice);
    assert after.steps == run.steps + [s];
    if run.at == Some(RepairGuard) {
      EvidenceKept(run, choice);
      GuardRefusesRepeats(run, choice);
    } else {
      OnlyTheGuardRepairs(s);
    }
  }

  lemma OnlyTheGuardRepairs(s: Step)
    requires !s.node.RepairGuard?
    ensures Next(s).Some? ==> !IsRepair(Next(s).value)
  {
  }

  lemma GuardRefusesRepeats(run: Run, choice: Choice)
    requires run.at == Some(RepairGuard)
    ensures var s := Visit(run, RepairGuard, choice);
            && (Next(s).Some? && IsRepair(Next(s).value) ==> !Repeated(run.steps, LatestClassification(run).digest))
            && LatestClassification(Perform(run, choice)) == LatestClassification(run)
            && (Repeated(Perform(run, choice).steps, LatestClassification(run).digest) <==>
                Repeated(run.steps, LatestClassification(run).digest))
  {
    EvidenceKept(run, choice);
    hide EvidenceOf, Attempts, AllFixable, Classify;
  }

  /** In every run, no two completed repairs were made for the same failure. */
  lemma {:induction false} NoFailureRepairedTwice(input: Input, choices: seq<Choice>)
    ensures Unrepeated(After(input, choices)) && RepairsDiffer(After(input, choices).steps)
    decreases |choices|
  {
    hide Perform;
    if choices != [] {
      var before := After(input, choices[..|choices| - 1]);
      NoFailureRepairedTwice(input, choices[..|choices| - 1]);
      if before.at.Some? { StaysUnrepeated(before, choices[|choices| - 1]); }
    }
  }

  // ---- Ready is earned -----------------------------------------------------------------------

  /** The results observed since the last repair: the candidate's, and then the base's. */
  datatype Observed = Nothing | OnCandidate(items: seq<Item>) | OnBoth(candidate: seq<Item>, base: Output)

  function SinceRepair(steps: seq<Step>): Observed {
    if steps == [] then Nothing else Observe(SinceRepair(steps[..|steps| - 1]), steps[|steps| - 1])
  }

  function Observe(o: Observed, s: Step): Observed {
    if IsRepair(s.node) then Nothing
    else if s.node.RunCandidate? then if s.output.Candidate? then OnCandidate(s.output.items) else Nothing
    else if s.node.RunBase? && s.output.Base? && o.OnCandidate? then OnBoth(o.items, s.output)
    else o
  }

  /** Both results are those of visits that no repair has followed, the base's after the candidate's. */
  lemma {:induction false} SinceRepairMeans(steps: seq<Step>) returns (candidate: nat, base: nat)
    requires SinceRepair(steps).OnBoth?
    ensures candidate < base < |steps| && forall k :: candidate <= k < |steps| ==> !IsRepair(steps[k].node)
    ensures steps[candidate].node.RunCandidate? && steps[candidate].output == Candidate(SinceRepair(steps).candidate)
    ensures steps[base].node.RunBase? && steps[base].output == SinceRepair(steps).base
  {
    var n := |steps| - 1;
    if SinceRepair(steps[..n]).OnBoth? {
      candidate, base := SinceRepairMeans(steps[..n]);
    } else {
      base := n;
      candidate := CandidateSinceRepair(steps[..n]);
    }
  }

  lemma {:induction false} CandidateSinceRepair(steps: seq<Step>) returns (candidate: nat)
    requires SinceRepair(steps).OnCandidate?
    ensures candidate < |steps| && forall k :: candidate <= k < |steps| ==> !IsRepair(steps[k].node)
    ensures steps[candidate].node.RunCandidate? && steps[candidate].output == Candidate(SinceRepair(steps).items)
  {
    var n := |steps| - 1;
    if steps[n].node.RunCandidate? { candidate := n; } else { candidate := CandidateSinceRepair(steps[..n]); }
  }

  predicate JudgedReadyLast(steps: seq<Step>) { steps != [] && steps[|steps| - 1].output == Judged(JudgedReady) }

  /**
   * What the run has at hand is what was observed since the last repair, and the route taken is its classification's.
   */
  ghost predicate Current(run: Run) {
    && (run.at == Some(RunBase) ==> SinceRepair(run.steps) == OnCandidate(run.candidate))
    && (run.at.Some? && run.at.value in {ClassifyNode, Judge, ReadyNode} ==>
          run.base.Some? && run.base.value.Base? && SinceRepair(run.steps) == OnBoth(run.candidate, run.base.value))
    && (run.at == Some(Judge) ==> LatestClassification(run).route == NeedsJudgment)
    && (run.at == Some(ReadyNode) ==>
          || LatestClassification(run).route == Ready
          || (LatestClassification(run).route == NeedsJudgment && JudgedReadyLast(run.steps)))
  }

  lemma StaysCurrent(run: Run, choice: Choice)
    requires run.at.Some? && Current(run)
    ensures Current(Perform(run, choice))
  {
    hide Attempts, Classify, GuardOf;
    var s := Visit(run, run.at.value, choice);
    assert (run.steps + [s])[..|run.steps|] == run.steps;
    if run.at == Some(ClassifyNode) || run.at == Some(Judge) { EvidenceKept(run, choice); }
    hide EvidenceOf;
  }

  lemma {:induction false} EveryRunIsCurrent(input: Input, choices: seq<Choice>)
    ensures Current(After(input, choices))
    decreases |choices|
  {
    hide Perform, Current;
    if choices == [] {
      StartsCurrent(input);
    } else {
      var before := After(input, choices[..|choices| - 1]);
      EveryRunIsCurrent(input, choices[..|choices| - 1]);
      if before.at.Some? { StaysCurrent(before, choices[|choices| - 1]); }
    }
  }

  lemma StartsCurrent(input: Input)
    ensures Current(Start(input))
  {
  }

  /**
   * A run becomes ready only on results taken after its last repair, that are classified ready, or that exact
   * comparison could not attribute and a judge called ready.
   */
  lemma ReadyIsEarned(input: Input, choices: seq<Choice>) returns (candidate: nat, base: nat)
    requires After(input, choices).at == Some(ReadyNode)
    ensures var run := After(input, choices);
            && candidate < base < |run.steps|
                && (forall k :: candidate <= k < |run.steps| ==> !IsRepair(run.steps[k].node))
            && run.steps[candidate].output == Candidate(run.candidate) && run.base == Some(run.steps[base].output)
            && (LatestClassification(run).route == Ready
                || (LatestClassification(run).route == NeedsJudgment && JudgedReadyLast(run.steps)))
  {
    EveryRunIsCurrent(input, choices);
    hide LatestClassification;
    candidate, base := SinceRepairMeans(After(input, choices).steps);
  }

  // ---- Whole runs ----------------------------------------------------------------------------

  /** The classification of these results, with the attempts that a trace records. */
  function ClassifiedFrom(o: Observed, checks: seq<Check>, untested: seq<string>, steps: seq<Step>): Route {
    if o.OnBoth? && o.base.Base? then
      Classify(Evidence(checks, o.candidate, o.base.items, o.base.cleanupEvidence, o.base.cleanupFailed,
        Attempts(steps), untested)).route
    else BlockedRoute
  }

  lemma ReadyFromTrace(input: Input, choices: seq<Choice>)
    requires After(input, choices).at == Some(ReadyNode)
    ensures var run := After(input, choices);
            && run.base.Some? && run.base.value.Base? && SinceRepair(run.steps) == OnBoth(run.candidate, run.base.value)
            && (LatestClassification(run).route == Ready
                || (LatestClassification(run).route == NeedsJudgment && JudgedReadyLast(run.steps)))
  {
    EveryRunIsCurrent(input, choices);
    hide LatestClassification;
  }

  /**
   * Run the workflow on the answers of agents and commands, one per visit; `becomesReady` tells that it goes on to its
   * ready exit.
   */
  method RunVerification(input: Input, choices: seq<Choice>)
      returns (steps: seq<Step>, ended: bool, becomesReady: bool, checks: seq<Check>, untested: seq<string>)
    ensures var run := After(input, choices);
            && steps == run.steps && (ended <==> run.at.None?) && (becomesReady <==> run.at == Some(ReadyNode))
            && checks == ChecksOf(run) && untested == UntestedOf(run)
    ensures |steps| <= 24 < MAX_STEPS && (|choices| >= 24 ==> ended) && (!ended ==> |steps| == |choices|)
    ensures Repairs(steps) <= MAX_REPAIR_ATTEMPTS && RepairsDiffer(steps)
    ensures becomesReady ==>
              && SinceRepair(steps).OnBoth?
              && (ClassifiedFrom(SinceRepair(steps), checks, untested, steps) == Ready
                  || (ClassifiedFrom(SinceRepair(steps), checks, untested, steps) == NeedsJudgment
                      && JudgedReadyLast(steps)))
  {
    hide Perform, RepairsDiffer, Attempts, Repairs;
    var run := Start(input);
    for i := 0 to |choices|
      invariant run == After(input, choices[..i])
    {
      assert choices[..i + 1][..i] == choices[..i];
      if run.at.Some? { run := Perform(run, choices[i]); }
    }
    assert choices[..|choices|] == choices;
    EveryRunEnds(input, choices);
    NoFailureRepairedTwice(input, choices);
    steps, ended, becomesReady := run.steps, run.at.None?, run.at == Some(ReadyNode);
    checks, untested := ChecksOf(run), UntestedOf(run);
    if becomesReady { ReadyFromTrace(input, choices); }
  }

  // ---- The bound is met ----------------------------------------------------------------------

  const SOME_CHECK := Check("check", true, true, false, false)

  /** Answers that keep a run going: nothing is conclusive and every repair is interrupted. */
  function SlowAnswer(node: Node): Choice {
    match node
    case PlanChecks => Choice(Ok, Planned([SOME_CHECK], []), "")
    case RunCandidate => Choice(Ok, Candidate([]), "")
    case RunBase => Choice(Ok, Base([], [], false), "")
    case Judge => Choice(Ok, Judged(JudgedRepair), "")
    case SemanticRepair => Choice(TimedOut, NoOutput, "")
    case ReconcileRepair => Choice(Ok, Reconciled(Verify), "")
    case _ => Choice(Ok, NoOutput, "")
  }

  /** Where that run goes from a node, when `repairs` were made before it. */
  function SlowNext(node: Node, repairs: nat): Option<Node> {
    match node
    case SelectChecks => Some(PlanChecks)
    case PlanChecks => Some(RunCandidate)
    case RunCandidate => Some(RunBase)
    case RunBase => Some(ClassifyNode)
    case ClassifyNode => Some(Judge)
    case Judge => Some(RepairGuard)
    case RepairGuard => Some(if repairs < MAX_REPAIR_ATTEMPTS then SemanticRepair else BlockedNode)
    case SemanticRepair => Some(ReconcileRepair)
    case ReconcileRepair => Some(RouteReconciliation)
    case RouteReconciliation => Some(RunCandidate)
    case _ => None
  }

  /** Where it is after `k` visits, and how many repairs it has made. */
  function SlowState(k: nat): (Option<Node>, nat) {
    if k == 0 then (Some(SelectChecks), 0)
    else
      var (node, repairs) := SlowState(k - 1);
      if node.None? then (None, repairs)
      else (SlowNext(node.value, repairs), repairs + if IsRepair(node.value) then 1 else 0)
  }

  ghost predicate Slow(run: Run, at: Option<Node>, repairs: nat) {
    && run.at == at && |Attempts(run.steps)| == repairs
    && run.input == Input([], []) && run.candidate == []
    && (at.Some? && at.value !in {SelectChecks, PlanChecks} ==> run.plan == Some(Planned([SOME_CHECK], [])))
    && (run.base.Some? ==> run.base == Some(Base([], [], false)))
    && (forall s :: s in run.steps ==> !s.output.Repaired?)
    && (forall a :: a in Attempts(run.steps) ==> !IsRejected(a))
    && (at == Some(RouteReconciliation) ==> run.steps != [] && run.steps[|run.steps| - 1].output == Reconciled(Verify))
  }

  predicate SlowlyVisited(node: Node) { SlowNext(node, 0).Some? || node.BlockedNode? }

  lemma SlowIsInconclusive(run: Run, node: Node, repairs: nat)
    requires Slow(run, Some(node), repairs) && node !in {SelectChecks, PlanChecks}
    ensures LatestClassification(run).route == NeedsJudgment && LatestClassification(run).related == []
    ensures !Repeated(run.steps, LatestClassification(run).digest)
  {
    hide Attempts;
    var e := EvidenceOf(run);
    assert e.checks == [SOME_CHECK] && e.candidate == [] && e.attempts == Attempts(run.steps);
    assert SOME_CHECK in e.checks && VerdictIn(SOME_CHECK, e) == Unknown;
    CollectNone(e.checks, e, Unknown);
    CollectNone(e.checks, e, Related);
  }

  lemma InterruptedIsNotRejected(s: Step)
    ensures !(REJECTED <= InterruptedResult(s))
  {
    assert REJECTED[0] != InterruptedResult(s)[0];
  }

  lemma SlowGuard(run: Run, repairs: nat)
    requires Slow(run, Some(RepairGuard), repairs)
    ensures if repairs < MAX_REPAIR_ATTEMPTS then GuardOf(run).Semantic? else GuardOf(run).GuardBlocked?
  {
    SlowIsInconclusive(run, RepairGuard, repairs);
    hide LatestClassification, Attempts, Repeated;
  }

  lemma SlowMoves(run: Run, node: Node, repairs: nat)
    requires Slow(run, Some(node), repairs) && SlowlyVisited(node)
    ensures var s := Visit(run, node, SlowAnswer(node));
            && Next(s) == SlowNext(node, repairs) && !s.output.Repaired?
                && (node.ReconcileRepair? ==> s.output == Reconciled(Verify))
            && (IsRepair(node) ==> !s.outcome.Ok?)
  {
    hide LatestClassification, Attempts, Repeated, GuardOf;
    if node.ClassifyNode? { SlowIsInconclusive(run, node, repairs); }
    if node.RepairGuard? { SlowGuard(run, repairs); }
  }

  lemma InterruptedAttempt(steps: seq<Step>, s: Step)
    requires IsRepair(s.node) ==> !s.outcome.Ok?
    ensures |Attempts(steps + [s])| == |Attempts(steps)| + if IsRepair(s.node) then 1 else 0
    ensures forall a :: a in Attempts(steps + [s]) ==> a in Attempts(steps) || !IsRejected(a)
  {
    assert (steps + [s])[..|steps|] == steps;
    InterruptedIsNotRejected(s);
  }

  lemma SlowStep(run: Run, node: Node, repairs: nat)
    requires Slow(run, Some(node), repairs) && SlowlyVisited(node)
    ensures Slow(Perform(run, SlowAnswer(node)), SlowNext(node, repairs), repairs + if IsRepair(node) then 1 else 0)
  {
    hide LatestClassification, LastGuarded, Attempts, Repeated, Next, GuardOf, IsRejected;
    SlowMoves(run, node, repairs);
    InterruptedAttempt(run.steps, Visit(run, node, SlowAnswer(node)));
    OutputsAreOwn(run, node, SlowAnswer(node));
  }

  function SlowChoices(k: nat): seq<Choice> {
    if k == 0 then []
    else
      var node := SlowState(k - 1).0;
      SlowChoices(k - 1) + [SlowAnswer(if node.Some? then node.value else ReadyNode)]
  }

  lemma SlowStart()
    ensures Slow(Start(Input([], [])), Some(SelectChecks), 0) && SlowlyVisited(SelectChecks)
  {
  }

  lemma SlowGoesOn(node: Node, repairs: nat)
    requires SlowlyVisited(node)
    ensures SlowNext(node, repairs).Some? ==> SlowlyVisited(SlowNext(node, repairs).value)
  {
  }

  lemma {:induction false} SlowRun(k: nat)
    requires k > 0 ==> SlowState(k - 1).0.Some?
    ensures |SlowChoices(k)| == k && |After(Input([], []), SlowChoices(k)).steps| == k
    ensures Slow(After(Input([], []), SlowChoices(k)), SlowState(k).0, SlowState(k).1)
    ensures SlowState(k).0.Some? ==> SlowlyVisited(SlowState(k).0.value)
    decreases k
  {
    hide Perform, SlowAnswer, Attempts, IsRejected, Slow, SlowNext;
    if k == 0 {
      SlowStart();
    } else {
      SlowRun(k - 1);
      SlowGoesOn(SlowState(k - 1).0.value, SlowState(k - 1).1);
      var before, node := After(Input([], []), SlowChoices(k - 1)), SlowState(k - 1).0.value;
      SlowAt(before, SlowState(k - 1).0, SlowState(k - 1).1);
      SlowStep(before, node, SlowState(k - 1).1);
      StepCounts(before, SlowAnswer(node));
      assert SlowChoices(k)[..k - 1] == SlowChoices(k - 1);
    }
  }

  lemma SlowAt(run: Run, at: Option<Node>, repairs: nat)
    requires Slow(run, at, repairs)
    ensures run.at == at && |Attempts(run.steps)| == repairs
  {
  }

  lemma SlowJudged(k: nat, repairs: nat)
    requires SlowState(k) == (Some(RunCandidate), repairs)
    ensures SlowState(k + 4) == (Some(RepairGuard), repairs)
  {
    assert SlowState(k + 1) == (Some(RunBase), repairs);
    assert SlowState(k + 2) == (Some(ClassifyNode), repairs);
    assert SlowState(k + 3) == (Some(Judge), repairs);
  }

  lemma SlowRound(k: nat, repairs: nat)
    requires SlowState(k) == (Some(RunCandidate), repairs) && repairs < MAX_REPAIR_ATTEMPTS
    ensures SlowState(k + 8) == (Some(RunCandidate), repairs + 1)
  {
    SlowJudged(k, repairs);
    assert SlowState(k + 5) == (Some(SemanticRepair), repairs);
    assert SlowState(k + 6) == (Some(ReconcileRepair), repairs + 1);
    assert SlowState(k + 7) == (Some(RouteReconciliation), repairs + 1);
  }

  lemma SlowEnds()
    ensures SlowState(23).0.Some? && SlowState(24) == (None, 2)
  {
    assert SlowState(1) == (Some(PlanChecks), 0);
    assert SlowState(2) == (Some(RunCandidate), 0);
    SlowRound(2, 0);
    SlowRound(10, 1);
    SlowJudged(18, 2);
    assert SlowState(23) == (Some(BlockedNode), 2);
  }

  /** Some run does make 24 visits and two repairs. */
  lemma TheBoundIsMet()
    ensures var run := After(Input([], []), SlowChoices(24));
        run.at.None? && |run.steps| == 24 && |Attempts(run.steps)| == 2
  {
    hide *;
    SlowEnds();
    SlowRun(24);
    SlowAt(After(Input([], []), SlowChoices(24)), None, 2);
  }
}
