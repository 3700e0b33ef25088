/** The change verification classifier: what the candidate's and the base's results say about each check. */
module ChangeVerification {
  import opened Decimals

  datatype Option<+T> = None | Some(value: T)

  datatype ItemOutcome = Succeeded | FailedItem | TimedOutItem | Cancelled

  /** A command's result. The texts are normalized: their own checkout's path and line ends are replaced. */
  datatype Item = Item(
    id: string, outcome: ItemOutcome, exitCode: Option<int>, signal: Option<string>, stdout: string, stderr: string,
    stdoutTruncated: bool, stderrTruncated: bool, findings: Option<multiset<string>>)

  datatype Check = Check(id: string, readOnly: bool, baseEligible: bool, json: bool, fixable: bool)

  /** A digest, kept as what it digests. */
  datatype Print =
    | Missing
    | Full(outcome: ItemOutcome, exitCode: Option<int>, signal: Option<string>, stdout: string, stderr: string,
           stdoutTruncated: bool, stderrTruncated: bool)
    | Findings(outcome: ItemOutcome, exitCode: Option<int>, ids: multiset<string>)
    | Both(own: Print, other: Print)
    | Text(text: string)

  datatype Finding = Finding(checkId: string, digest: Print)

  datatype Attempt = Attempt(number: nat, digest: FailurePrint, result: string)

  datatype FailurePrint = FailurePrint(related: multiset<Print>, unknown: multiset<Print>, untested: multiset<Print>)

  datatype Route = Ready | Repairable | NeedsJudgment | BlockedRoute

  datatype Evidence = Evidence(
    checks: seq<Check>, candidate: seq<Item>, base: seq<Item>, cleanupEvidence: seq<string>, cleanupFailed: bool,
    attempts: seq<Attempt>, untested: seq<string>)

  datatype Classification = Classification(
    route: Route, related: seq<Finding>, unrelated: seq<Finding>, fixed: seq<Finding>, unknown: seq<Finding>,
    untested: seq<Finding>, digest: FailurePrint)

  // ---- Results -------------------------------------------------------------------------------

  predicate Complete(r: Item) {
    && !r.outcome.TimedOutItem? && !r.outcome.Cancelled?
    && !r.stdoutTruncated && !r.stderrTruncated
    && !(r.outcome.FailedItem? && r.exitCode.None?)
  }

  predicate Passed(r: Option<Item>) {
    r.Some? && Complete(r.value) && r.value.outcome.Succeeded? && r.value.exitCode == Some(0)
  }

  function PrintOf(r: Option<Item>, check: Check): Print {
    if r.None? then Missing
    else if check.json && r.value.findings.Some? then
      Findings(r.value.outcome, r.value.exitCode, r.value.findings.value)
    else Full(r.value.outcome, r.value.exitCode, r.value.signal, r.value.stdout, r.value.stderr,
              r.value.stdoutTruncated, r.value.stderrTruncated)
  }

  /** The result recorded under an id; of several, the last. */
  function Lookup(items: seq<Item>, id: string): (r: Option<Item>)
    ensures r.Some? ==> r.value in items && r.value.id == id
    ensures r.None? <==> forall i :: i in items ==> i.id != id
  {
    if items == [] then None
    else if items[|items| - 1].id == id then Some(items[|items| - 1])
    else Lookup(items[..|items| - 1], id)
  }

  // ---- One check -----------------------------------------------------------------------------

  datatype Verdict = Passes | Related | Unrelated | Fixed | Unknown

  predicate Comparable(check: Check) { check.baseEligible && check.readOnly }

  /** A result there is, and one that tells how the command ended. */
  predicate Conclusive(r: Option<Item>) { r.Some? && Complete(r.value) }

  /** What a check's two results say, stated case by case. */
  function VerdictOf(check: Check, candidate: Option<Item>, base: Option<Item>): Verdict {
    if !Conclusive(candidate) then Unknown
    else if !Comparable(check) || !Conclusive(base) then if Passed(candidate) then Passes else Unknown
    else
      match (Passed(candidate), Passed(base))
      case (true, true) => Passes
      case (true, false) => Fixed
      case (false, true) => Related
      case (false, false) => if PrintOf(candidate, check) == PrintOf(base, check) then Unrelated else Unknown
  }

  function FindingPrint(check: Check, candidate: Option<Item>, base: Option<Item>): Print {
    var own, other := PrintOf(candidate, check), PrintOf(base, check);
    match VerdictOf(check, candidate, base)
    case Fixed => other
    case Unknown => if Conclusive(candidate) && Comparable(check) then Both(own, other) else own
    case _ => own
  }

  function VerdictIn(check: Check, e: Evidence): Verdict {
    VerdictOf(check, Lookup(e.candidate, check.id), Lookup(e.base, check.id))
  }

  function FindingIn(check: Check, e: Evidence): Finding {
    Finding(check.id, FindingPrint(check, Lookup(e.candidate, check.id), Lookup(e.base, check.id)))
  }

  /** The findings of one verdict, in check order. */
  function Collect(checks: seq<Check>, e: Evidence, verdict: Verdict): seq<Finding> {
    if checks == [] then []
    else
      var check := checks[|checks| - 1];
      Collect(checks[..|checks| - 1], e, verdict) + if VerdictIn(check, e) == verdict then [FindingIn(check, e)] else []
  }

  function Prints(findings: seq<Finding>): multiset<Print> {
    if findings == [] then
      multiset{}
    else Prints(findings[..|findings| - 1]) + multiset{findings[|findings| - 1].digest}
  }

  /** What was not tested is numbered from one. */
  function UntestedId(i: nat): string { "untested-" + Decimal(i + 1) }

  function Untested(untested: seq<string>): (r: seq<Finding>)
    ensures |r| == |untested|
  {
    seq(|untested|, i requires 0 <= i < |untested| => Finding(UntestedId(i), Text(untested[i])))
  }

  const REJECTED := "Rejected mechanical fixer:"

  predicate IsRejected(a: Attempt) { REJECTED <= a.result }

  function FirstRejected(attempts: seq<Attempt>): (r: Option<Attempt>)
    ensures r.Some? ==> r.value in attempts && IsRejected(r.value)
    ensures r.None? <==> forall a :: a in attempts ==> !IsRejected(a)
  {
    if attempts == [] then None
    else if IsRejected(attempts[0]) then Some(attempts[0])
    else FirstRejected(attempts[1..])
  }

  function Joined(texts: seq<string>): string {
    if texts == [] then "" else if |texts| == 1 then texts[0] else texts[0] + "\n" + Joined(texts[1..])
  }

  /** The unknown findings: the checks', then the base cleanup's, then the rejected fixer's. */
  function UnknownFindings(e: Evidence): seq<Finding> {
    Collect(e.checks, e, Unknown)
      + (if e.cleanupFailed then [Finding("base-cleanup", Text(Joined(e.cleanupEvidence)))] else [])
      + (if FirstRejected(e.attempts).Some?
        then [Finding("mechanical-fix-boundary", Text(FirstRejected(e.attempts).value.result))] else [])
  }

  function Classify(e: Evidence): Classification {
    var related, unknown, untested := Collect(e.checks, e, Related), UnknownFindings(e), Untested(e.untested);
    var route := if FirstRejected(e.attempts).Some? then BlockedRoute
                 else if unknown != [] || untested != [] then NeedsJudgment
                 else if related == [] then Ready
                 else Repairable;
    Classification(route, related, Collect(e.checks, e, Unrelated), Collect(e.checks, e, Fixed), unknown, untested,
                   FailurePrint(Prints(related), Prints(unknown), Prints(untested)))
  }

  lemma NothingCollected(e: Evidence)
    ensures forall verdict :: Collect([], e, verdict) == []
  {
  }

  lemma CollectNext(e: Evidence, i: nat)
    requires i < |e.checks|
    ensures forall verdict :: Collect(e.checks[..i + 1], e, verdict)
                              == Collect(e.checks[..i], e, verdict) + if VerdictIn(e.checks[i], e) == verdict
                                then [FindingIn(e.checks[i], e)] else []
  {
    hide VerdictOf, FindingPrint;
    assert e.checks[..i + 1][..i] == e.checks[..i];
  }

  /** The classifier's loop: one look at each check, one push at most. */
  method ClassifyVerification(e: Evidence) returns (c: Classification)
    ensures c == Classify(e)
  {
    hide Collect, Complete, PrintOf, Lookup, FirstRejected, Joined, Prints;
    NothingCollected(e);
    var related, unrelated, fixed, unknown: seq<Finding> := [], [], [], [];
    for i := 0 to |e.checks|
      invariant related == Collect(e.checks[..i], e, Related) && unrelated == Collect(e.checks[..i], e, Unrelated)
      invariant fixed == Collect(e.checks[..i], e, Fixed) && unknown == Collect(e.checks[..i], e, Unknown)
    {
      CollectNext(e, i);
      var check := e.checks[i];
      var candidate, base := Lookup(e.candidate, check.id), Lookup(e.base, check.id);
      var own, other := PrintOf(candidate, check), PrintOf(base, check);
      var candidatePass, basePass := Passed(candidate), Passed(base);
      if candidate.None? || !Complete(candidate.value) {
        unknown := unknown + [Finding(check.id, own)];
      } else if !check.baseEligible || !check.readOnly {
        if !candidatePass { unknown := unknown + [Finding(check.id, own)]; }
      } else if base.None? || !Complete(base.value) {
        if !candidatePass { unknown := unknown + [Finding(check.id, Both(own, other))]; }
      } else if candidatePass && !basePass {
        fixed := fixed + [Finding(check.id, other)];
      } else if !candidatePass && basePass {
        related := related + [Finding(check.id, own)];
      } else if !candidatePass && own == other {
        unrelated := unrelated + [Finding(check.id, own)];
      } else if !candidatePass {
        unknown := unknown + [Finding(check.id, Both(own, other))];
      }
    }
    assert e.checks[..|e.checks|] == e.checks;
    var untested := Untested(e.untested);
    if e.cleanupFailed { unknown := unknown + [Finding("base-cleanup", Text(Joined(e.cleanupEvidence)))]; }
    var rejected := FirstRejected(e.attempts);
    if rejected.Some? { unknown := unknown + [Finding("mechanical-fix-boundary", Text(rejected.value.result))]; }
    assert unknown == UnknownFindings(e);
    var route := if rejected.Some? then BlockedRoute
                 else if |unknown| > 0 || |untested| > 0 then NeedsJudgment
                 else if |related| == 0 then Ready
                 else Repairable;
    c := Classification(route, related, unrelated, fixed, unknown, untested,
                        FailurePrint(Prints(related), Prints(unknown), Prints(untested)));
  }

  // ---- What a classification means -----------------------------------------------------------

  lemma {:induction false} CollectNone(checks: seq<Check>, e: Evidence, verdict: Verdict)
    ensures Collect(checks, e, verdict) == [] <==> forall c :: c in checks ==> VerdictIn(c, e) != verdict
  {
    if checks != [] {
      hide VerdictIn, FindingIn;
      var rest, last := checks[..|checks| - 1], checks[|checks| - 1];
      CollectNone(rest, e, verdict);
      assert checks == rest + [last];
      assert forall c :: c in checks <==> c in rest || c == last;
    }
  }

  /** The candidate passes the check, or fails it exactly as the base does where the two can be compared. */
  predicate Blameless(check: Check, candidate: Option<Item>, base: Option<Item>) {
    && candidate.Some? && Complete(candidate.value)
    && (Passed(candidate)
        || (&& check.readOnly && check.baseEligible
            && base.Some? && Complete(base.value) && !Passed(base)
            && PrintOf(candidate, check) == PrintOf(base, check)))
  }

  /**
   * A classification is ready just when nothing is untested, cleanup and fixers behaved, and every check is blameless.
   */
  lemma ReadyIff(e: Evidence)
    ensures Classify(e).route == Ready
        <==> && e.untested == [] && !e.cleanupFailed
             && (forall a :: a in e.attempts ==> !IsRejected(a))
             && (forall c :: c in e.checks ==> Blameless(c, Lookup(e.candidate, c.id), Lookup(e.base, c.id)))
  {
    CollectNone(e.checks, e, Related);
    CollectNone(e.checks, e, Unknown);
    forall c | c in e.checks
      ensures Blameless(c, Lookup(e.candidate, c.id), Lookup(e.base, c.id)) <==>
          VerdictIn(c, e) != Related && VerdictIn(c, e) != Unknown
    {
    }
  }

  /** A repairable classification blames the change: some check passes on the base and fails on the candidate. */
  lemma RepairableBlamesTheChange(e: Evidence) returns (c: Check)
    requires Classify(e).route == Repairable
    ensures c in e.checks && Comparable(c) && Passed(Lookup(e.base, c.id))
    ensures var candidate := Lookup(e.candidate, c.id);
        candidate.Some? && Complete(candidate.value)
        && !Passed(candidate)
  {
    CollectNone(e.checks, e, Related);
    c :| c in e.checks && VerdictIn(c, e) == Related;
  }

  predicate DistinctIds(checks: seq<Check>) {
    forall i, j :: 0 <= i < j < |checks| ==> checks[i].id != checks[j].id
  }

  /** Every listed finding is that of a check with the list's verdict. */
  lemma {:induction false} CheckBehind(checks: seq<Check>, e: Evidence, verdict: Verdict, f: Finding) returns (c: Check)
    requires f in Collect(checks, e, verdict)
    ensures c in checks && VerdictIn(c, e) == verdict && FindingIn(c, e) == f
  {
    var rest := checks[..|checks| - 1];
    if f in Collect(rest, e, verdict) { c := CheckBehind(rest, e, verdict, f); } else { c := checks[|checks| - 1]; }
  }

  /** Every check's finding is in the list of its verdict. */
  lemma {:induction false} FindingListed(checks: seq<Check>, e: Evidence, c: Check)
    requires c in checks
    ensures FindingIn(c, e) in Collect(checks, e, VerdictIn(c, e))
  {
    var rest := checks[..|checks| - 1];
    assert checks == rest + [checks[|checks| - 1]];
    if c in rest { FindingListed(rest, e, c); }
  }

  lemma IdNamesOneCheck(checks: seq<Check>, c: Check, d: Check)
    requires DistinctIds(checks) && c in checks && d in checks && c.id == d.id
    ensures c == d
  {
    var i, j :| 0 <= i < |checks| && 0 <= j < |checks| && checks[i] == c && checks[j] == d;
    assert i == j;
  }

  // ---- The lists of a classification ---------------------------------------------------------

  datatype ListName = RelatedList | UnrelatedList | FixedList | UnknownList | UntestedList

  function ListNamed(c: Classification, name: ListName): seq<Finding> {
    match name
    case RelatedList => c.related
    case UnrelatedList => c.unrelated
    case FixedList => c.fixed
    case UnknownList => c.unknown
    case UntestedList => c.untested
  }

  function ListFor(verdict: Verdict): Option<ListName> {
    match verdict
    case Passes => None
    case Related => Some(RelatedList)
    case Unrelated => Some(UnrelatedList)
    case Fixed => Some(FixedList)
    case Unknown => Some(UnknownList)
  }

  /** The list holds a check of that id. */
  ghost predicate ListsCheck(e: Evidence, id: string, name: ListName) {
    exists c :: c in e.checks && c.id == id && ListFor(VerdictIn(c, e)) == Some(name)
  }

  /** The list holds a finding of no check: the base cleanup's, the rejected fixer's, or that something is untested. */
  ghost predicate ListsOther(e: Evidence, id: string, name: ListName) {
    match name
    case UnknownList =>
      (e.cleanupFailed && id == "base-cleanup") || (FirstRejected(e.attempts).Some? && id == "mechanical-fix-boundary")
    case UntestedList => exists i: nat :: i < |e.untested| && id == UntestedId(i)
    case _ => false
  }

  ghost predicate Holds(findings: seq<Finding>, id: string) { exists f :: f in findings && f.checkId == id }

  lemma CollectHolds(e: Evidence, verdict: Verdict, id: string)
    ensures Holds(Collect(e.checks, e, verdict), id) <==> exists c ::
        c in e.checks && c.id == id
        && VerdictIn(c, e) == verdict
  {
    hide VerdictOf, FindingPrint, Collect;
    if f :| f in Collect(e.checks, e, verdict) && f.checkId == id {
      var c := CheckBehind(e.checks, e, verdict, f);
    }
    if c :| c in e.checks && c.id == id && VerdictIn(c, e) == verdict {
      FindingListed(e.checks, e, c);
      assert FindingIn(c, e).checkId == id;
    }
  }

  lemma UnknownHolds(e: Evidence, id: string)
    ensures Holds(UnknownFindings(e), id) <==>
        Holds(Collect(e.checks, e, Unknown), id)
        || ListsOther(e, id, UnknownList)
  {
    hide Collect, Joined, FirstRejected;
    var all, own := UnknownFindings(e), Collect(e.checks, e, Unknown);
    assert forall f :: f in own ==> f in all;
    if e.cleanupFailed { assert all[|own|].checkId == "base-cleanup"; }
    if FirstRejected(e.attempts).Some? { assert all[|all| - 1].checkId == "mechanical-fix-boundary"; }
  }

  lemma UntestedHolds(e: Evidence, id: string)
    ensures Holds(Untested(e.untested), id) <==> ListsOther(e, id, UntestedList)
  {
    hide UntestedId;
    if f :| f in Untested(e.untested) && f.checkId == id {
      var i :| 0 <= i < |e.untested| && Untested(e.untested)[i] == f;
      assert id == UntestedId(i);
    }
    if i: nat :| i < |e.untested| && id == UntestedId(i) { assert Untested(e.untested)[i] in Untested(e.untested); }
  }

  /** No two of the untested findings share an id, and none has the name of another finding. */
  lemma UntestedIdsDistinct(i: nat, j: nat)
    ensures UntestedId(i) == UntestedId(j) ==> i == j
    ensures UntestedId(i) != "base-cleanup" && UntestedId(i) != "mechanical-fix-boundary"
  {
    var prefix := "untested-";
    assert UntestedId(i)[|prefix|..] == Decimal(i + 1) && UntestedId(j)[|prefix|..] == Decimal(j + 1);
    assert UntestedId(i)[0] == 'u';
    if UntestedId(i) == UntestedId(j) { DecimalInjective(i + 1, j + 1); }
  }

  /** Which ids a list holds: those of the checks with its verdict, and its own names when there is something to say. */
  lemma ListHoldsIff(e: Evidence, id: string, name: ListName)
    ensures Holds(ListNamed(Classify(e), name), id) <==> ListsCheck(e, id, name) || ListsOther(e, id, name)
  {
    hide VerdictIn, Collect, FirstRejected, UnknownFindings;
    CollectHolds(e, Related, id);
    CollectHolds(e, Unrelated, id);
    CollectHolds(e, Fixed, id);
    CollectHolds(e, Unknown, id);
    UnknownHolds(e, id);
    UntestedHolds(e, id);
  }

  /**
   * An id is in two lists exactly when a check listed in one of them has a name under which another holds something
   * else.
   */
  lemma OneListPerCheck(e: Evidence, id: string, one: ListName, other: ListName)
    requires DistinctIds(e.checks) && one != other
    ensures Holds(ListNamed(Classify(e), one), id) && Holds(ListNamed(Classify(e), other), id)
        <==> || (ListsCheck(e, id, one) && ListsOther(e, id, other))
             || (ListsOther(e, id, one) && ListsCheck(e, id, other))
  {
    hide Classify, VerdictIn, FirstRejected, UntestedId;
    forall i: nat ensures UntestedId(i) != "base-cleanup" && UntestedId(i) != "mechanical-fix-boundary" {
      UntestedIdsDistinct(i, i);
    }
    ListHoldsIff(e, id, one);
    ListHoldsIff(e, id, other);
    if ListsCheck(e, id, one) && ListsCheck(e, id, other) {
      var c :| c in e.checks && c.id == id && ListFor(VerdictIn(c, e)) == Some(one);
      var d :| d in e.checks && d.id == id && ListFor(VerdictIn(d, e)) == Some(other);
      IdNamesOneCheck(e.checks, c, d);
    }
  }
}
