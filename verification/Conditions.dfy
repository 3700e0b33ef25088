/** Resource conditions: updates merge by type, and a transition time moves only when the status does. */
module Conditions {
  datatype Option<+T> = None | Some(value: T)

  datatype Status = True | False | Unknown

  datatype Update = Update(kind: string, status: Status, reason: string, message: Option<string>)

  datatype Condition = Condition(update: Update, observedGeneration: nat, lastTransitionTime: int)

  datatype Result = Merged(conditions: seq<Condition>) | Rejected

  predicate IsSpace(c: char) { c == ' ' || c == '\t' || c == '\n' || c == '\r' }

  predicate Blank(s: string) { forall c :: c in s ==> IsSpace(c) }

  predicate ValidUpdate(u: Update) { !Blank(u.kind) && !Blank(u.reason) }

  /** No two conditions have one type. */
  predicate Distinct(conditions: seq<Condition>) {
    forall i, j :: 0 <= i < j < |conditions| ==> conditions[i].update.kind != conditions[j].update.kind
  }

  function Find(conditions: seq<Condition>, kind: string): (c: Option<Condition>)
    ensures c.Some? ==> c.value in conditions && c.value.update.kind == kind
    ensures c.None? <==> forall d :: d in conditions ==> d.update.kind != kind
  {
    if conditions == [] then None
    else if conditions[0].update.kind == kind then Some(conditions[0])
    else Find(conditions[1..], kind)
  }

  /** Set a condition in its place, or add it at the end. */
  function Put(conditions: seq<Condition>, c: Condition): (r: seq<Condition>)
    ensures |conditions| <= |r| <= |conditions| + 1
    ensures forall i :: 0 <= i < |conditions| ==> r[i].update.kind == conditions[i].update.kind
  {
    if conditions == [] then [c]
    else if conditions[0].update.kind == c.update.kind then [c] + conditions[1..]
    else [conditions[0]] + Put(conditions[1..], c)
  }

  lemma {:induction false} PutFinds(conditions: seq<Condition>, c: Condition, kind: string)
    ensures Find(Put(conditions, c), kind) == if kind == c.update.kind then Some(c) else Find(conditions, kind)
  {
    if conditions != [] && conditions[0].update.kind != c.update.kind {
      PutFinds(conditions[1..], c, kind);
      assert Put(conditions, c)[1..] == Put(conditions[1..], c);
    } else if conditions != [] {
      assert ([c] + conditions[1..])[1..] == conditions[1..];
    }
  }

  lemma {:induction false} PutHolds(conditions: seq<Condition>, c: Condition, d: Condition)
    requires d in Put(conditions, c)
    ensures d == c || d in conditions
  {
    if conditions != [] && conditions[0].update.kind != c.update.kind && d != conditions[0] {
      PutHolds(conditions[1..], c, d);
    }
  }

  lemma {:induction false} PutStaysDistinct(conditions: seq<Condition>, c: Condition)
    requires Distinct(conditions)
    ensures Distinct(Put(conditions, c))
  {
    if conditions != [] && conditions[0].update.kind != c.update.kind {
      var rest := conditions[1..];
      PutStaysDistinct(rest, c);
      forall d | d in Put(rest, c) ensures d.update.kind != conditions[0].update.kind { PutHolds(rest, c, d); }
    }
  }

  /** The map by type that a list builds: each type at its first place with its last condition. */
  function ByType(conditions: seq<Condition>): seq<Condition> {
    if conditions == [] then []
    else Put(ByType(conditions[..|conditions| - 1]), conditions[|conditions| - 1])
  }

  /** The last condition of a type. */
  function FindLast(conditions: seq<Condition>, kind: string): (c: Option<Condition>)
    ensures c.Some? ==> c.value in conditions && c.value.update.kind == kind
    ensures c.None? <==> forall d :: d in conditions ==> d.update.kind != kind
  {
    if conditions == [] then None
    else if conditions[|conditions| - 1].update.kind == kind then Some(conditions[|conditions| - 1])
    else FindLast(conditions[..|conditions| - 1], kind)
  }

  /** The map holds one condition of each type, the last of them. */
  lemma {:induction false} ByTypeFindsTheLast(conditions: seq<Condition>, kind: string)
    ensures Distinct(ByType(conditions)) && Find(ByType(conditions), kind) == FindLast(conditions, kind)
    decreases |conditions|
  {
    if conditions != [] {
      var before, c := conditions[..|conditions| - 1], conditions[|conditions| - 1];
      ByTypeFindsTheLast(before, kind);
      PutFinds(ByType(before), c, kind);
      PutStaysDistinct(ByType(before), c);
      hide Put, Distinct, Find;
    }
  }

  lemma {:induction false} PutAppends(conditions: seq<Condition>, c: Condition)
    requires forall d :: d in conditions ==> d.update.kind != c.update.kind
    ensures Put(conditions, c) == conditions + [c]
  {
    if conditions != [] { PutAppends(conditions[1..], c); }
  }

  /** A list with one condition of each type is its own map. */
  lemma {:induction false} ByTypeOfDistinct(conditions: seq<Condition>)
    requires Distinct(conditions)
    ensures ByType(conditions) == conditions
    decreases |conditions|
  {
    if conditions != [] {
      var before, c := conditions[..|conditions| - 1], conditions[|conditions| - 1];
      assert conditions == before + [c];
      ByTypeOfDistinct(before);
      PutAppends(before, c);
    }
  }

  // ---- One merge -----------------------------------------------------------------------------

  function Next(previous: Option<Condition>, u: Update, generation: nat, now: int): Condition {
    Condition(u, generation, if previous.Some? && previous.value.update.status == u.status
      then previous.value.lastTransitionTime else now)
  }

  function Apply(conditions: seq<Condition>, updates: seq<Update>, generation: nat, now: int): seq<Condition> {
    if updates == [] then conditions
    else
      var before, u := Apply(conditions, updates[..|updates| - 1], generation, now), updates[|updates| - 1];
      Put(before, Next(Find(before, u.kind), u, generation, now))
  }

  predicate DistinctUpdates(updates: seq<Update>) {
    forall i, j :: 0 <= i < j < |updates| ==> updates[i].kind != updates[j].kind
  }

  predicate Mergeable(updates: seq<Update>) { DistinctUpdates(updates) && forall u :: u in updates ==> ValidUpdate(u) }

  lemma MergeableStep(updates: seq<Update>, i: nat)
    requires i < |updates|
    ensures Mergeable(updates[..i + 1])
        <==> Mergeable(updates[..i]) && ValidUpdate(updates[i]) && forall k :: 0 <= k < i ==>
          updates[k].kind != updates[i].kind
    ensures Mergeable(updates) ==> Mergeable(updates[..i + 1])
  {
    var before, after := updates[..i], updates[..i + 1];
    assert after == before + [updates[i]];
    assert after[i] == updates[i] && forall k :: 0 <= k < i ==> after[k] == updates[k] == before[k];
  }

  lemma ApplyStep(conditions: seq<Condition>, updates: seq<Update>, i: nat, generation: nat, now: int)
    requires i < |updates|
    ensures var before := Apply(conditions, updates[..i], generation, now);
            Apply(conditions, updates[..i + 1], generation, now)
              == Put(before, Next(Find(before, updates[i].kind), updates[i], generation, now))
  {
    assert updates[..i + 1][..i] == updates[..i];
  }

  /** Merge updates into the current conditions; a blank type or reason, or a type updated twice, rejects them all. */
  method MergeConditions(current: seq<Condition>, updates: seq<Update>, generation: nat, now: int) returns (r: Result)
    ensures r == if Mergeable(updates) then Merged(Apply(ByType(current), updates, generation, now)) else Rejected
  {
    hide Mergeable, Blank, Put, Find;
    var conditions: seq<Condition>, seen := [], {};
    for i := 0 to |current|
      invariant conditions == ByType(current[..i])
    {
      assert current[..i + 1][..i] == current[..i];
      conditions := Put(conditions, current[i]);
    }
    assert current[..|current|] == current;
    hide ByType;
    assert Mergeable(updates[..0]) by { NothingIsMergeable(updates[..0]); }
    for i := 0 to |updates|
      invariant conditions == Apply(ByType(current), updates[..i], generation, now)
      invariant Mergeable(updates[..i]) && forall kind :: kind in seen <==>
          exists k :: 0 <= k < i && updates[k].kind == kind
    {
      MergeableStep(updates, i);
      ApplyStep(ByType(current), updates, i, generation, now);
      hide Apply;
      var update := updates[i];
      if Blank(update.kind) || Blank(update.reason) { return Rejected; }
      if update.kind in seen { return Rejected; }
      seen := seen + {update.kind};
      conditions := Put(conditions, Next(Find(conditions, update.kind), update, generation, now));
    }
    assert updates[..|updates|] == updates;
    r := Merged(conditions);
  }

  /**
   * What a merge leaves: one condition of each type. A type that is updated has the new one, whose transition time is
   * kept only if the last condition of its type had that status; every other type keeps its last condition.
   */
  lemma MergeMeans(current: seq<Condition>, updates: seq<Update>, generation: nat, now: int, kind: string)
    requires Mergeable(updates)
    ensures var merged := Apply(ByType(current), updates, generation, now);
            Distinct(merged) && Changed(FindLast(current, kind), Find(merged, kind), StatusIn(updates, kind), now)
  {
    ByTypeFindsTheLast(current, kind);
    ApplyIs(ByType(current), updates, generation, now, kind);
  }

  lemma NothingIsMergeable(updates: seq<Update>)
    requires updates == []
    ensures Mergeable(updates)
  {
  }

  // ---- Every history -------------------------------------------------------------------------

  /** One accepted merge and its time. */
  datatype Merge = Merge(updates: seq<Update>, generation: nat, now: int)

  function Conditions(history: seq<Merge>): seq<Condition> {
    if history == [] then []
    else
      var m := history[|history| - 1];
      Apply(ByType(Conditions(history[..|history| - 1])), m.updates, m.generation, m.now)
  }

  /** The status a merge gives to a type, if it updates it. */
  function StatusIn(updates: seq<Update>, kind: string): (s: Option<Status>)
    ensures s.None? <==> forall u :: u in updates ==> u.kind != kind
  {
    if updates == [] then None
    else if updates[|updates| - 1].kind == kind then Some(updates[|updates| - 1].status)
    else StatusIn(updates[..|updates| - 1], kind)
  }

  /** A type's status after a history, and the time of the merge that last changed it. */
  function LastChange(history: seq<Merge>, kind: string): Option<(Status, int)> {
    if history == [] then None
    else
      var before, m := LastChange(history[..|history| - 1], kind), history[|history| - 1];
      var status := StatusIn(m.updates, kind);
      if status.None? || (before.Some? && before.value.0 == status.value) then before else Some((status.value, m.now))
  }

  /** What a merge does to one type: nothing without an update, and else a new time exactly with a new status. */
  predicate Changed(before: Option<Condition>, after: Option<Condition>, status: Option<Status>, now: int) {
    if status.None? then after == before
    else
      && after.Some? && after.value.update.status == status.value
      && after.value.lastTransitionTime
         == if before.Some? && before.value.update.status == status.value then before.value.lastTransitionTime else now
  }

  lemma {:induction false} ApplyIs(conditions: seq<Condition>, updates: seq<Update>, generation: nat, now: int,
      kind: string)
    requires Distinct(conditions) && DistinctUpdates(updates)
    ensures Distinct(Apply(conditions, updates, generation, now))
    ensures var before, after, status := Find(conditions, kind),
        Find(Apply(conditions, updates, generation, now), kind), StatusIn(updates, kind);
            Changed(before, after, status, now)
    decreases |updates|
  {
    if updates != [] {
      hide Put, Find, Distinct;
      var front, u := updates[..|updates| - 1], updates[|updates| - 1];
      FrontIsDistinct(updates);
      ApplyIs(conditions, front, generation, now, kind);
      var before := Apply(conditions, front, generation, now);
      PutFinds(before, Next(Find(before, u.kind), u, generation, now), kind);
      PutStaysDistinct(before, Next(Find(before, u.kind), u, generation, now));
      hide Apply;
    }
  }

  lemma FrontIsDistinct(updates: seq<Update>)
    requires updates != [] && DistinctUpdates(updates)
    ensures var front := updates[..|updates| - 1];
            DistinctUpdates(front) && StatusIn(front, updates[|updates| - 1].kind).None?
  {
    var front := updates[..|updates| - 1];
    forall v | v in front ensures v.kind != updates[|updates| - 1].kind {
      var i :| 0 <= i < |front| && front[i] == v;
      assert updates[i] == v;
    }
  }

  /** Over any history of accepted merges, a condition's transition time is that of its last change of status. */
  lemma {:induction false} TransitionTimeIsLastChange(history: seq<Merge>, kind: string)
    requires forall m :: m in history ==> Mergeable(m.updates)
    ensures Distinct(Conditions(history))
    ensures var c := Find(Conditions(history), kind);
            LastChange(history, kind) == if c.Some? then Some((c.value.update.status, c.value.lastTransitionTime))
              else None
    decreases |history|
  {
    if history != [] {
      var front, m := history[..|history| - 1], history[|history| - 1];
      assert history == front + [m];
      TransitionTimeIsLastChange(front, kind);
      ByTypeOfDistinct(Conditions(front));
      ApplyIs(Conditions(front), m.updates, m.generation, m.now, kind);
    }
  }

  /**
   * What a last change means: a merge at that time gave the status, which differed before, and none has changed it
   * since.
   */
  lemma {:induction false} LastChangeMeans(history: seq<Merge>, kind: string) returns (at: nat)
    requires LastChange(history, kind).Some?
    ensures var (status, time) := LastChange(history, kind).value;
            && at < |history| && history[at].now == time && StatusIn(history[at].updates, kind) == Some(status)
            && (var before := LastChange(history[..at], kind); before.None? || before.value.0 != status)
            && (forall k :: at < k < |history| ==> StatusIn(history[k].updates, kind) in {None, Some(status)})
    decreases |history|
  {
    var front, last := history[..|history| - 1], |history| - 1;
    var before, status := LastChange(front, kind), StatusIn(history[last].updates, kind);
    if status.None? || (before.Some? && before.value.0 == status.value) {
      at := LastChangeMeans(front, kind);
      assert front[..at] == history[..at];
    } else {
      at := last;
    }
  }
}
