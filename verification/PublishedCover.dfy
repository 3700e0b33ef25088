/** The parsers that match a result against the published repositories: each repository exactly once, and no other. */
module PublishedCover {
  import opened AutoimplementModel

  datatype Published = Published(
    id: string, repository: string, branch: string, baseBranch: string, headRevision: string, pr: string,
    dependencyFingerprint: Option<string>)

  datatype CiTarget = CiTarget(id: string, repository: string, headRevision: string, pr: string)

  datatype Report = Report(repository: string, pr: string, merged: bool, reportComment: string, reason: string)

  /** A delivery result. `repositories` is None when the result names no list. */
  datatype Claim = Claim(completed: bool, merged: bool, pr: string, reportComment: string, reason: string,
      repositories: Option<seq<Report>>)

  // ---- Exact covers --------------------------------------------------------------------------

  /** A repository's key and what is recorded under it. */
  datatype Entry<F> = Entry(key: string, facts: F)

  predicate DistinctKeys<F>(s: seq<Entry<F>>) {
    forall i, j :: 0 <= i < j < |s| ==> s[i].key != s[j].key
  }

  /** `found` names everything expected, nothing else, and nothing twice. */
  ghost predicate ExactCover<F(!new)>(found: seq<Entry<F>>, expected: seq<Entry<F>>) {
    && (forall e :: e in found <==> e in expected)
    && (forall i, j :: 0 <= i < j < |found| ==> found[i] != found[j])
  }

  lemma {:induction false} CountDistinct<T>(s: seq<T>, e: T)
    requires forall i, j :: 0 <= i < j < |s| ==> s[i] != s[j]
    ensures multiset(s)[e] == if e in s then 1 else 0
  {
    if s != [] {
      assert s == [s[0]] + s[1..];
      CountDistinct(s[1..], e);
    }
  }

  lemma {:induction false} CountTwice<T>(s: seq<T>, i: nat, j: nat)
    requires i < j < |s| && s[i] == s[j]
    ensures multiset(s)[s[i]] >= 2
  {
    assert s == s[..j] + [s[j]] + s[j + 1..];
    assert s[..j][i] in multiset(s[..j]);
  }

  /** An exact cover of distinct entries is a rearrangement of them. */
  lemma CoverIsPermutation<F(!new)>(found: seq<Entry<F>>, expected: seq<Entry<F>>)
    requires DistinctKeys(expected)
    ensures ExactCover(found, expected) <==> multiset(found) == multiset(expected)
  {
    forall e ensures multiset(expected)[e] == if e in expected then 1 else 0 { CountDistinct(expected, e); }
    if ExactCover(found, expected) {
      forall e ensures multiset(found)[e] == multiset(expected)[e] { CountDistinct(found, e); }
    }
    if multiset(found) == multiset(expected) {
      forall e ensures e in found <==> e in expected {
        assert e in found <==> e in multiset(found);
        assert e in expected <==> e in multiset(expected);
      }
      forall i, j | 0 <= i < j < |found| ensures found[i] != found[j] {
        if found[i] == found[j] { CountTwice(found, i, j); }
      }
    }
  }

  /** The map that the list fills, key by key. */
  function ByKey<F>(s: seq<Entry<F>>): (m: map<string, F>)
    requires DistinctKeys(s)
    ensures forall e :: e in s ==> e.key in m && m[e.key] == e.facts
    ensures forall k :: k in m ==> Entry(k, m[k]) in s
  {
    if s == [] then map[]
    else
      assert s == s[..|s| - 1] + [s[|s| - 1]];
      ByKey(s[..|s| - 1])[s[|s| - 1].key := s[|s| - 1].facts]
  }

  /** `remaining` holds the expected entries that are not among the taken ones, which were expected and are distinct. */
  ghost predicate Taken<F(!new)>(taken: seq<Entry<F>>, remaining: map<string, F>, expected: seq<Entry<F>>) {
    && (forall e :: e in expected && e !in taken ==> e.key in remaining)
    && (forall k :: k in remaining ==> Entry(k, remaining[k]) in expected && Entry(k, remaining[k]) !in taken)
    && (forall e :: e in taken ==> e in expected)
    && (forall i, j :: 0 <= i < j < |taken| ==> taken[i] != taken[j])
  }

  lemma TakeStep<F(!new)>(taken: seq<Entry<F>>, remaining: map<string, F>, expected: seq<Entry<F>>, entry: Entry<F>)
    requires DistinctKeys(expected) && Taken(taken, remaining, expected)
    requires entry.key in remaining && remaining[entry.key] == entry.facts
    ensures Taken(taken + [entry], remaining - {entry.key}, expected)
  {
    assert Entry(entry.key, remaining[entry.key]) == entry;
    forall e | e in expected && e != entry ensures e.key != entry.key {
      var i, j :| 0 <= i < |expected| && 0 <= j < |expected| && expected[i] == e && expected[j] == entry;
    }
  }

  lemma RemainingFacts<F(!new)>(taken: seq<Entry<F>>, remaining: map<string, F>, expected: seq<Entry<F>>,
      entry: Entry<F>)
    requires DistinctKeys(expected) && Taken(taken, remaining, expected) && entry in expected && entry.key in remaining
    ensures remaining[entry.key] == entry.facts
  {
    var other := Entry(entry.key, remaining[entry.key]);
    var i, j :| 0 <= i < |expected| && 0 <= j < |expected| && expected[i] == entry && expected[j] == other;
    assert i == j;
  }

  /** An entry whose key is not open, or is open with other facts, cannot be taken. */
  lemma Refused<F(!new)>(taken: seq<Entry<F>>, remaining: map<string, F>, expected: seq<Entry<F>>, entry: Entry<F>)
    requires DistinctKeys(expected) && Taken(taken, remaining, expected)
    requires entry.key !in remaining || remaining[entry.key] != entry.facts
    ensures entry in expected ==> entry in taken
  {
    if entry.key in remaining && entry in expected { RemainingFacts(taken, remaining, expected, entry); }
  }

  /** Everything expected was taken just when nothing remains. */
  lemma TakenAll<F(!new)>(taken: seq<Entry<F>>, remaining: map<string, F>, expected: seq<Entry<F>>)
    requires Taken(taken, remaining, expected)
    ensures remaining.Keys == {} <==> ExactCover(taken, expected)
  {
    if remaining.Keys != {} {
      var k :| k in remaining.Keys;
      assert Entry(k, remaining[k]) in expected;
    }
  }

  /** Take each found entry out of the expected ones; it must be there, with the same facts, and none may be left. */
  method CoversExactly<F(==, !new)>(found: seq<Entry<F>>, expected: seq<Entry<F>>) returns (covers: bool)
    requires DistinctKeys(expected)
    ensures covers <==> ExactCover(found, expected)
  {
    hide Taken, ExactCover, DistinctKeys;
    var remaining := ByKey(expected);
    assert Taken([], remaining, expected) by { NothingTaken(expected); }
    var index := 0;
    while index < |found|
      invariant 0 <= index <= |found| && Taken(found[..index], remaining, expected)
    {
      var entry := found[index];
      if entry.key !in remaining || remaining[entry.key] != entry.facts {
        Refused(found[..index], remaining, expected, entry);
        SpoilsCover(found, expected, index);
        return false;
      }
      TakeStep(found[..index], remaining, expected, entry);
      assert found[..index + 1] == found[..index] + [entry];
      remaining := remaining - {entry.key};
      index := index + 1;
    }
    assert found[..index] == found;
    TakenAll(found, remaining, expected);
    covers := remaining.Keys == {};
  }

  lemma NothingTaken<F(!new)>(expected: seq<Entry<F>>)
    requires DistinctKeys(expected)
    ensures Taken([], ByKey(expected), expected)
  {
  }

  /** An entry that is not expected, or that came before, spoils the cover. */
  lemma SpoilsCover<F(!new)>(found: seq<Entry<F>>, expected: seq<Entry<F>>, index: nat)
    requires index < |found|
    requires found[index] in expected ==> found[index] in found[..index]
    ensures !ExactCover(found, expected)
  {
    if found[index] in found[..index] {
      var i :| 0 <= i < index && found[..index][i] == found[index];
      assert found[i] == found[index];
    }
  }

  // ---- P2 verification -----------------------------------------------------------------------

  /** A repository under its id; its head may have moved since. */
  function HeadlessEntry(p: Published): Entry<Published> { Entry(p.id, p.(headRevision := "")) }

  function Headless(s: seq<Published>): (r: seq<Entry<Published>>) {
    seq(|s|, i requires 0 <= i < |s| => HeadlessEntry(s[i]))
  }

  /** P2 verification is accepted just when it re-observes every publication once, at whatever head. */
  method AcceptsRefreshed(refreshed: seq<Published>, previous: seq<Published>) returns (accepted: bool)
    requires forall i, j :: 0 <= i < j < |previous| ==> previous[i].id != previous[j].id
    ensures accepted <==> multiset(Headless(refreshed)) == multiset(Headless(previous))
  {
    accepted := CoversExactly(Headless(refreshed), Headless(previous));
    CoverIsPermutation(Headless(refreshed), Headless(previous));
  }

  // ---- CI inspection -------------------------------------------------------------------------

  function TargetEntries(s: seq<CiTarget>): (r: seq<Entry<CiTarget>>) {
    seq(|s|, i requires 0 <= i < |s| => Entry(s[i].id, s[i]))
  }

  /** The target that a published repository asks for. */
  function Target(p: Published): CiTarget { CiTarget(p.id, p.repository, p.headRevision, p.pr) }

  function Targets(s: seq<Published>): (r: seq<CiTarget>) { seq(|s|, i requires 0 <= i < |s| => Target(s[i])) }

  /** A CI inspection is accepted just when it has one target for each published repository, at its published head. */
  method AcceptsTargets(targets: seq<CiTarget>, published: seq<Published>) returns (accepted: bool)
    requires forall i, j :: 0 <= i < j < |published| ==> published[i].id != published[j].id
    ensures accepted <==> multiset(TargetEntries(targets)) == multiset(TargetEntries(Targets(published)))
  {
    accepted := CoversExactly(TargetEntries(targets), TargetEntries(Targets(published)));
    CoverIsPermutation(TargetEntries(targets), TargetEntries(Targets(published)));
  }

  // ---- Delivery ------------------------------------------------------------------------------

  /** Whether a pull request was merged, under its repository. */
  function DeliveredEntries(s: seq<Report>): (r: seq<Entry<(string, bool)>>) {
    seq(|s|, i requires 0 <= i < |s| => Entry(s[i].repository, (s[i].pr, s[i].merged)))
  }

  function ExpectedEntries(s: seq<Published>, merge: bool): (r: seq<Entry<(string, bool)>>) {
    seq(|s|, i requires 0 <= i < |s| => Entry(s[i].repository, (s[i].pr, merge)))
  }

  /** The reports a completed delivery stands for; a result without a list speaks for a single publication. */
  function Reports(claim: Claim, published: seq<Published>): Option<seq<Report>> {
    if claim.repositories.Some? then claim.repositories
    else if |published| != 1 then None
    else Some([Report(published[0].repository, claim.pr, claim.merged, claim.reportComment, claim.reason)])
  }

  predicate IsFirst(r: Report, claim: Claim, first: Published) {
    r.repository == first.repository && r.pr == claim.pr && r.merged == claim.merged
      && r.reportComment == claim.reportComment
  }

  /** The claim's own fields are those of the first publication's report. */
  ghost predicate SpeaksForFirst(claim: Claim, reports: seq<Report>, published: seq<Published>) {
    published != [] && exists r :: r in reports && IsFirst(r, claim, published[0])
  }

  /** What makes a completed delivery acceptable. */
  ghost predicate Delivers(claim: Claim, published: seq<Published>, merge: bool) {
    && Reports(claim, published).Some?
    && multiset(DeliveredEntries(Reports(claim, published).value)) == multiset(ExpectedEntries(published, merge))
    && SpeaksForFirst(claim, Reports(claim, published).value, published)
  }

  method HasDuplicate(reports: seq<Report>) returns (duplicate: bool)
    ensures duplicate <==> !DistinctKeys(DeliveredEntries(reports))
  {
    var seen := {};
    for index := 0 to |reports|
      invariant seen == set i | 0 <= i < index :: reports[i].repository
      invariant forall i, j :: 0 <= i < j < index ==> reports[i].repository != reports[j].repository
    {
      if reports[index].repository in seen {
        var i :| 0 <= i < index && reports[i].repository == reports[index].repository;
        assert DeliveredEntries(reports)[i].key == DeliveredEntries(reports)[index].key;
        return true;
      }
      seen := seen + {reports[index].repository};
    }
    return false;
  }

  /**
   * A delivery is accepted just when it claims no merge against the policy and, where it claims completion, reports
   * every published pull request once, merged exactly as the policy says.
   */
  method AcceptsDelivery(claim: Claim, published: seq<Published>, merge: bool) returns (accepted: bool)
    requires forall i, j :: 0 <= i < j < |published| ==> published[i].repository != published[j].repository
    ensures accepted <==> (claim.merged ==> merge) && (claim.completed ==> Delivers(claim, published, merge))
  {
    if !merge && claim.merged { return false; }
    if !claim.completed { return true; }
    if claim.repositories.None? && |published| != 1 { return false; }
    var reports := Reports(claim, published).value;
    var expected, actual := ExpectedEntries(published, merge), DeliveredEntries(reports);
    CoverIsPermutation(actual, expected);
    var duplicate := HasDuplicate(reports);
    if duplicate {
      DistinctFromCover(actual, expected);
      return false;
    }
    var covers := CoversExactly(expected, actual);
    CoverIsPermutation(expected, actual);
    if !covers { return false; }
    accepted := published != [] && exists r :: r in reports && IsFirst(r, claim, published[0]);
  }

  lemma DistinctFromCover<F(!new)>(found: seq<Entry<F>>, expected: seq<Entry<F>>)
    requires DistinctKeys(expected)
    ensures ExactCover(found, expected) ==> DistinctKeys(found)
  {
    if ExactCover(found, expected) {
      forall i, j | 0 <= i < j < |found| ensures found[i].key != found[j].key {
        assert found[i] in expected && found[j] in expected;
      }
    }
  }
}
