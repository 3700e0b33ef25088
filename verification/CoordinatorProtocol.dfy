/**
 * What the message coordinator may be seen to do: the calls it makes to Pi and to the workflow
 * server, in order, together with the outside events they depend on.
 */
module CoordinatorProtocol {
  datatype Option<+T> = None | Some(value: T)

  type MessageId = string
  type TurnId = nat

  datatype Kind = Step | Decision | Notification | Terminal | FollowUp
  datatype Status = Pending | Sent | Cancelled

  /** The digest of a content names that content alone. */
  datatype Digest = Digest(of: string)

  datatype Message = Message(
    id: MessageId, runId: string, kind: Kind, status: Status, triggerTurn: bool, digest: Digest,
      deliveryCancelled: bool)

  datatype OpenTurn = OpenTurn(turnId: TurnId, messageId: MessageId, runId: string, sessionId: string, started: bool)

  /** One server snapshot of the session. */
  datatype View = View(
    sessionId: string, message: Option<Message>, openTurn: Option<OpenTurn>, epoch: Option<string>,
    active: bool, branchReportRequired: bool)

  datatype StopReason = Completed | Aborted | Error | Lost
  datatype TurnEnd = TurnEnd(stopReason: StopReason, responseEntryId: Option<string>)
  datatype Phase = Delivering | Running | Settled(end: TurnEnd)
  datatype Ownership = Active | SettledOwner | Absent

  datatype Event =
    // Outside events
    | Snapshot(view: View)
    | EntryAdded(id: MessageId)
    | BranchRewound
    // Sending a message to Pi: it is queued, the call is made, and the call returns or throws
    | Enqueued(id: MessageId)
    | SendCalled(message: Message, content: string, idle: bool, hasPending: bool, inBranch: bool)
    | SendDone(id: MessageId)
    | SendFailed(id: MessageId)
    // The life of an owned turn
    | Deliver(turnId: TurnId, id: MessageId)
    | Adopt(turnId: TurnId, id: MessageId, cancelled: bool)
    | Dropped(turnId: TurnId)
    | TurnStarted(turnId: TurnId)
    | TurnSettled(turnId: TurnId, end: TurnEnd)
    | AbortCalled(turnId: TurnId)
    // Requests to the server, and the replies that were not errors. An accepted end may close its message for good,
    // and a branch report is of an owned delivery or of the current message.
    | ReportStarted(turnId: TurnId)
    | StartedReply(turnId: TurnId, ownership: Ownership)
    | ReportEnded(turnId: TurnId, end: TurnEnd)
    | EndedReply(turnId: TurnId, closes: Option<MessageId>)
    | ReportBranch(reported: Option<MessageId>, entry: Option<string>)
    | BranchReply(reported: Option<MessageId>, entry: Option<string>, owned: bool)
    | TerminalDelivered(id: MessageId)

  type Log = seq<Event>

  // ---- Sends ---------------------------------------------------------------------------------

  /**
   * The messages sent with nothing since to excuse sending them again: every snapshot since
   * still names them, none went back to pending, and the branch lost nothing. The flag says
   * whether a snapshot since has shown the message as no longer pending.
   */
  function Outstanding(log: Log): map<MessageId, bool> {
    if log == [] then map[] else OutstandingNext(Outstanding(log[..|log| - 1]), log[|log| - 1])
  }

  function OutstandingNext(before: map<MessageId, bool>, e: Event): map<MessageId, bool> {
    match e
    case SendDone(id) => before[id := false]
    case BranchRewound => map[]
    case Snapshot(view) =>
      map id | id in before && StillNamed(view, id, before[id]) :: before[id] || view.message.value.status != Pending
    case _ => before
  }

  predicate StillNamed(view: View, id: MessageId, settled: bool) {
    view.message.Some? && view.message.value.id == id && (settled ==> view.message.value.status != Pending)
  }

  /** A send is safe: verified pending content, to an idle Pi that does not hold the message and was not sent it. */
  ghost predicate SafeSend(before: Log, e: Event) {
    e.SendCalled? ==>
      && e.message.id !in Outstanding(before)
      && e.message.status == Pending
      && e.message.digest == Digest(e.content)
      && e.idle && !e.hasPending && !e.inBranch
  }

  // ---- Owned turns ---------------------------------------------------------------------------

  /** The turn the coordinator owns, as the log tells it. */
  datatype Owner = Owner(turnId: TurnId, id: MessageId, phase: Phase, acknowledged: bool, stopped: bool, aborted: bool)

  function Owned(log: Log): Option<Owner> {
    if log == [] then None else OwnedNext(Owned(log[..|log| - 1]), log[|log| - 1])
  }

  function OwnedNext(owner: Option<Owner>, e: Event): Option<Owner> {
    match e
    case Deliver(t, id) => Some(Owner(t, id, Delivering, false, false, false))
    case Adopt(t, id, cancelled) => Some(Owner(t, id, Running, true, cancelled, false))
    case _ =>
      if owner.None? then None
      else
        var o := owner.value;
        match e
        case Dropped(_) => None
        case TurnStarted(_) => Some(o.(phase := Running))
        case TurnSettled(_, end) => Some(o.(phase := Settled(end)))
        case AbortCalled(_) => Some(o.(aborted := true))
        case StartedReply(_, ownership) =>
          Some(if Accepts(ownership, o.phase) then o.(acknowledged := true) else o.(stopped := true))
        case EndedReply(_, _) => None
        case Snapshot(view) => Some(o.(stopped := o.stopped || Cancels(view, o.id)))
        case _ => owner
  }

  /** The server takes the turn as workflow work. */
  predicate Accepts(ownership: Ownership, phase: Phase) {
    ownership.Active? || (ownership.SettledOwner? && phase.Settled?)
  }

  predicate Cancels(view: View, id: MessageId) {
    view.message.Some? && view.message.value.id == id && view.message.value.deliveryCancelled
  }

  /** The turn ids owned so far. */
  function UsedTurns(log: Log): set<TurnId> {
    if log == [] then {} else UsedNext(UsedTurns(log[..|log| - 1]), log[|log| - 1])
  }

  function UsedNext(used: set<TurnId>, e: Event): set<TurnId> {
    match e
    case Deliver(t, _) => used + {t}
    case Adopt(t, _, _) => used + {t}
    case _ => used
  }

  // ---- What the server has shown and been told -----------------------------------------------

  /**
   * The open turns that snapshots have shown for their own session, up to their accepted ends; the newest snapshot,
   * with its turn open up to that end; the messages closed for good and the messages queued, while snapshots keep
   * naming them; and whether Pi is being handed a message.
   */
  datatype Told = Told(
    shown: set<OpenTurn>, newest: Option<View>, closed: set<MessageId>, queued: set<MessageId>, sending: bool)

  function ToldBy(log: Log): Told {
    if log == [] then Told({}, None, {}, {}, false) else ToldNext(ToldBy(log[..|log| - 1]), log[|log| - 1])
  }

  function ToldNext(told: Told, e: Event): Told {
    match e
    case Snapshot(view) =>
      told.(shown := told.shown + Opened(view), newest := Some(view), closed := told.closed * Named(view),
        queued := StillQueued(told.queued, view))
    case EndedReply(t, closes) =>
      told.(shown := Without(told.shown, t), newest := NewestWithout(told.newest, t),
        closed := told.closed + if closes.Some? then {closes.value} else {})
    case Enqueued(id) => told.(queued := told.queued + {id})
    case SendCalled(_, _, _, _, _) => told.(sending := true)
    case SendDone(_) => told.(sending := false)
    case SendFailed(id) => told.(queued := told.queued - {id}, sending := false)
    case BranchReply(reported, entry, owned) =>
      told.(queued := told.queued - if !owned && reported.Some? && entry.Some? then {reported.value} else {})
    case _ => told
  }

  /** The turn a snapshot shows open in its own session. */
  function Opened(v: View): set<OpenTurn> {
    if v.openTurn.Some? && v.openTurn.value.sessionId == v.sessionId then {v.openTurn.value} else {}
  }

  function Without(shown: set<OpenTurn>, t: TurnId): set<OpenTurn> { set o | o in shown && o.turnId != t }

  /** A snapshot that no longer shows the turn open. */
  function Closing(v: View, t: TurnId): View {
    if v.openTurn.Some? && v.openTurn.value.turnId == t then v.(openTurn := None) else v
  }

  function NewestWithout(newest: Option<View>, t: TurnId): Option<View> {
    if newest.Some? then Some(Closing(newest.value, t)) else None
  }

  function Named(v: View): set<MessageId> {
    if v.message.Some? then {v.message.value.id} else {}
  }

  /** The queued messages a snapshot leaves queued. */
  function StillQueued(queued: set<MessageId>, v: View): set<MessageId> {
    if v.message.Some? && v.message.value.status == Pending then queued * Named(v) else {}
  }

  /**
   * The server has shown the turn open and started for this message of this run, and its end was not accepted since.
   */
  predicate ShownOpen(told: Told, t: TurnId, id: MessageId, runId: string) {
    exists o :: o in told.shown && o.turnId == t && o.messageId == id && o.runId == runId && o.started
  }

  /** The snapshot names the message, and the message starts turns. */
  predicate NamesForTurn(v: View, id: MessageId) {
    v.message.Some? && v.message.value.id == id && v.message.value.triggerTurn
  }

  /** The snapshot shows a turn open for the message. */
  predicate OpenFor(v: View, id: MessageId) { v.openTurn.Some? && v.openTurn.value.messageId == id }

  /**
   * A shown turn may be taken up while the newest snapshot names its message, as one of the same run that starts turns,
   * and either shows a turn open for it, unless the message was closed for good, or the message is queued.
   */
  predicate MayTakeUp(told: Told, t: TurnId, id: MessageId) {
    && told.newest.Some? && NamesForTurn(told.newest.value, id)
    && ShownOpen(told, t, id, told.newest.value.message.value.runId)
    && ((OpenFor(told.newest.value, id) && id !in told.closed) || id in told.queued)
  }

  /** The steps an owned turn may take. */
  ghost predicate LegalTurn(before: Log, e: Event) {
    var owner := Owned(before);
    match e
    case Deliver(t, _) => owner.None? && t !in UsedTurns(before)
    case Adopt(t, id, _) => owner.None? && MayTakeUp(ToldBy(before), t, id)
    case Dropped(t) => owner.Some? && owner.value.turnId == t && owner.value.phase.Delivering?
    case TurnStarted(t) => owner.Some? && owner.value.turnId == t && owner.value.phase.Delivering?
    case TurnSettled(t, _) => owner.Some? && owner.value.turnId == t && owner.value.phase.Running?
    case AbortCalled(t) =>
      owner.Some? && owner.value.turnId == t && owner.value.phase.Running? && owner.value.stopped
        && !owner.value.aborted
    case ReportStarted(t) =>
      owner.Some? && owner.value.turnId == t && !owner.value.phase.Delivering? && !owner.value.acknowledged
        && !owner.value.stopped
    case StartedReply(t, _) => owner.Some? && owner.value.turnId == t && !owner.value.phase.Delivering?
    case ReportEnded(t, end) =>
      owner.Some? && owner.value.turnId == t && owner.value.phase == Settled(end)
        && (owner.value.acknowledged || owner.value.stopped)
    case EndedReply(t, _) => owner.Some? && owner.value.turnId == t && owner.value.phase.Settled?
    case _ => true
  }

  /** Every step of the log was allowed when it was taken. */
  ghost predicate Legal(log: Log) {
    forall i :: 0 <= i < |log| ==> SafeSend(log[..i], log[i]) && LegalTurn(log[..i], log[i])
  }

  lemma LegalSnoc(log: Log, e: Event)
    requires Legal(log) && SafeSend(log, e) && LegalTurn(log, e)
    ensures Legal(log + [e])
    ensures Owned(log + [e]) == OwnedNext(Owned(log), e)
    ensures Outstanding(log + [e]) == OutstandingNext(Outstanding(log), e)
    ensures UsedTurns(log + [e]) == UsedNext(UsedTurns(log), e)
    ensures ToldBy(log + [e]) == ToldNext(ToldBy(log), e)
  {
    var next := log + [e];
    assert next[..|log|] == log;
    forall i | 0 <= i < |next| ensures SafeSend(next[..i], next[i]) && LegalTurn(next[..i], next[i]) {
      if i < |log| { assert next[..i] == log[..i]; }
    }
  }

  // ---- What legal logs promise ---------------------------------------------------------------

  /** The event ends the excuse-free stretch after a send of `id`. */
  ghost predicate Excuses(log: Log, from: nat, k: nat, id: MessageId)
    requires from < k < |log|
  {
    match log[k]
    case BranchRewound => true
    case Snapshot(view) =>
      || view.message.None?
      || view.message.value.id != id
      || (view.message.value.status == Pending && exists j :: from < j < k && ShowsSettled(log[j], id))
    case _ => false
  }

  ghost predicate ShowsSettled(e: Event, id: MessageId) {
    e.Snapshot? && e.view.message.Some? && e.view.message.value.id == id && e.view.message.value.status != Pending
  }

  /** Without an excuse a sent message stays outstanding. */
  lemma {:induction false} StaysOutstanding(log: Log, from: nat, n: nat, id: MessageId)
    requires from < n <= |log| && log[from] == SendDone(id)
    requires forall k :: from < k < n ==> !Excuses(log, from, k, id)
    ensures id in Outstanding(log[..n])
    ensures Outstanding(log[..n])[id] ==> exists j :: from < j < n && ShowsSettled(log[j], id)
    decreases n
  {
    assert log[..n][..n - 1] == log[..n - 1];
    if n == from + 1 {
    } else {
      StaysOutstanding(log, from, n - 1, id);
      var k := n - 1;
      assert !Excuses(log, from, k, id);
      if log[k].Snapshot? && log[k].view.message.value.status != Pending {
        assert ShowsSettled(log[k], id);
      }
    }
  }

  /** Between two sends of one message something excused the second: the message is sent at most once otherwise. */
  lemma SentAtMostOnce(log: Log, i: nat, j: nat, m: Message, content: string, idle: bool, hasPending: bool,
      inBranch: bool)
    requires Legal(log) && i < j < |log|
    requires log[i] == SendDone(m.id) && log[j] == SendCalled(m, content, idle, hasPending, inBranch)
    ensures exists k :: i < k < j && Excuses(log, i, k, m.id)
  {
    assert SafeSend(log[..j], log[j]);
    if forall k :: i < k < j ==> !Excuses(log, i, k, m.id) {
      StaysOutstanding(log, i, j, m.id);
    }
  }

  ghost predicate Takes(e: Event, t: TurnId) {
    (e.Deliver? && e.turnId == t) || (e.Adopt? && e.turnId == t)
  }

  lemma OnlyTakingGains(owner: Option<Owner>, e: Event, t: TurnId)
    requires (owner.None? || owner.value.turnId != t) && !Takes(e, t)
    ensures OwnedNext(owner, e).None? || OwnedNext(owner, e).value.turnId != t
  {
  }

  /** While no new ownership of `t` begins, a turn once out of hand stays out of hand. */
  lemma {:induction false} GoneStaysGone(log: Log, i: nat, j: nat, t: TurnId)
    requires Legal(log) && i <= j <= |log|
    requires Owned(log[..i]).None? || Owned(log[..i]).value.turnId != t
    requires forall k :: i <= k < j ==> !Takes(log[k], t)
    ensures Owned(log[..j]).None? || Owned(log[..j]).value.turnId != t
    decreases j
  {
    if j == i {
    } else {
      hide Legal;
      GoneStaysGone(log, i, j - 1, t);
      assert log[..j][..j - 1] == log[..j - 1];
      OnlyTakingGains(Owned(log[..j - 1]), log[j - 1], t);
      hide OwnedNext, Takes;
    }
  }

  /** One legal step keeps an abort, a result and having started. */
  lemma OwnerStep(before: Log, e: Event)
    requires LegalTurn(before, e) && Owned(before).Some? && OwnedNext(Owned(before), e).Some?
    requires !Takes(e, OwnedNext(Owned(before), e).value.turnId)
    ensures var o, next := Owned(before).value, OwnedNext(Owned(before), e).value;
            && next.turnId == o.turnId && (o.aborted ==> next.aborted)
            && (o.phase.Settled? ==> next.phase == o.phase) && (!o.phase.Delivering? ==> !next.phase.Delivering?)
  {
    hide Owned, MayTakeUp, UsedTurns;
  }

  lemma LegalAt(log: Log, i: nat)
    requires Legal(log) && i < |log|
    ensures LegalTurn(log[..i], log[i]) && Owned(log[..i + 1]) == OwnedNext(Owned(log[..i]), log[i])
  {
    OwnedAfter(log, i);
  }

  /** The facts of an ownership that only ever become true. */
  lemma {:induction false} OwnerFactsPersist(log: Log, i: nat, j: nat, t: TurnId)
    requires Legal(log) && i <= j <= |log|
    requires Owned(log[..i]).Some? && Owned(log[..i]).value.turnId == t
    requires forall k :: i <= k < j ==> !Takes(log[k], t)
    requires Owned(log[..j]).Some? && Owned(log[..j]).value.turnId == t
    ensures Owned(log[..i]).value.aborted ==> Owned(log[..j]).value.aborted
    ensures Owned(log[..i]).value.phase.Settled? ==> Owned(log[..j]).value.phase == Owned(log[..i]).value.phase
    ensures !Owned(log[..i]).value.phase.Delivering? ==> !Owned(log[..j]).value.phase.Delivering?
    decreases j
  {
    if i < j {
      LegalAt(log, j - 1);
      hide Legal, LegalTurn, Owned;
      if Owned(log[..j - 1]).None? || Owned(log[..j - 1]).value.turnId != t {
        OnlyTakingGains(Owned(log[..j - 1]), log[j - 1], t);
        assert false;
      } else {
        hide OwnedNext;
        OwnerStep(log[..j - 1], log[j - 1]);
        OwnerFactsPersist(log, i, j - 1, t);
      }
    }
  }

  lemma OwnedAfter(log: Log, i: nat)
    requires i < |log|
    ensures Owned(log[..i + 1]) == OwnedNext(Owned(log[..i]), log[i])
  {
    assert log[..i + 1][..i] == log[..i];
  }

  // ---- After an accepted end -----------------------------------------------------------------

  /** The snapshot shows the turn open in its session and started, for this message of this run. */
  predicate ShowsOpen(e: Event, t: TurnId, id: MessageId, runId: string) {
    e.Snapshot? && e.view.openTurn.Some? && e.view.openTurn.value.sessionId == e.view.sessionId
    && var o := e.view.openTurn.value; o.turnId == t && o.messageId == id && o.runId == runId && o.started
  }

  predicate EndsTurn(e: Event, t: TurnId) { e.EndedReply? && e.turnId == t }

  lemma ToldAfter(log: Log, i: nat)
    requires i < |log|
    ensures ToldBy(log[..i + 1]) == ToldNext(ToldBy(log[..i]), log[i])
  {
    assert log[..i + 1][..i] == log[..i];
  }

  /** A turn counts as shown because of a snapshot that shows it, after the last accepted end of it. */
  lemma {:induction false} ShownBySnapshot(log: Log, n: nat, t: TurnId, id: MessageId, runId: string) returns (k: nat)
    requires n <= |log| && ShownOpen(ToldBy(log[..n]), t, id, runId)
    ensures k < n && ShowsOpen(log[k], t, id, runId) && forall l :: k < l < n ==> !EndsTurn(log[l], t)
    decreases n
  {
    if n == 0 {
      assert false;
    } else {
      ToldAfter(log, n - 1);
      hide ToldBy, NewestWithout, StillQueued, Named;
      if ShowsOpen(log[n - 1], t, id, runId) {
        k := n - 1;
      } else {
        var o :| o in ToldBy(log[..n]).shown && o.turnId == t && o.messageId == id && o.runId == runId && o.started;
        assert o in ToldBy(log[..n - 1]).shown;
        k := ShownBySnapshot(log, n - 1, t, id, runId);
      }
    }
  }

  /** Snapshot `m` is the newest of the first `n` events. */
  predicate IsNewest(log: Log, m: nat, n: nat) {
    m < n <= |log| && log[m].Snapshot? && forall l :: m < l < n ==> !log[l].Snapshot?
  }

  /** Snapshot `m` shows a turn open for the message, and the end of that turn is not accepted before `n`. */
  ghost predicate OpenSince(log: Log, m: nat, n: nat, id: MessageId)
    requires m < n <= |log|
  {
    log[m].Snapshot? && OpenFor(log[m].view, id)
      && forall l :: m < l < n ==> !EndsTurn(log[l], log[m].view.openTurn.value.turnId)
  }

  /** The newest snapshot the log has told is the newest snapshot in it. */
  lemma {:induction false} NewestSnapshot(log: Log, n: nat) returns (m: nat)
    requires n <= |log| && ToldBy(log[..n]).newest.Some?
    ensures IsNewest(log, m, n)
    ensures var v := ToldBy(log[..n]).newest.value;
            && v.message == log[m].view.message
            && (v.openTurn.Some? ==> v.openTurn == log[m].view.openTurn)
            && forall id :: OpenFor(v, id) ==> OpenSince(log, m, n, id)
    decreases n
  {
    if n == 0 {
      assert false;
    } else {
      ToldAfter(log, n - 1);
      hide ToldBy;
      if log[n - 1].Snapshot? { m := n - 1; } else { m := NewestSnapshot(log, n - 1); }
    }
  }

  /** The snapshot does not name the message. */
  predicate Unnames(e: Event, id: MessageId) { e.Snapshot? && id !in Named(e.view) }

  /** A message closed for good stays closed while snapshots name it. */
  lemma {:induction false} ClosedStays(log: Log, i: nat, j: nat, id: MessageId)
    requires i < j <= |log| && log[i].EndedReply? && log[i].closes == Some(id)
    requires forall l :: i < l < j ==> !Unnames(log[l], id)
    ensures id in ToldBy(log[..j]).closed
    decreases j
  {
    ToldAfter(log, j - 1);
    if i < j - 1 {
      ClosedStays(log, i, j - 1, id);
      assert !Unnames(log[j - 1], id);
    }
    hide ToldBy, StillQueued, Without, NewestWithout;
  }

  /**
   * The event takes the message out of the queue: a failed send, its entry reported, or a snapshot not of it as
   * pending.
   */
  predicate Unqueues(e: Event, id: MessageId) {
    || e == SendFailed(id)
    || (e.BranchReply? && !e.owned && e.reported == Some(id) && e.entry.Some?)
    || (e.Snapshot?
        && !(e.view.message.Some? && e.view.message.value.id == id && e.view.message.value.status == Pending))
  }

  /** The message was put into the queue, and nothing has taken it out since. */
  ghost predicate QueuedSince(log: Log, n: nat, id: MessageId)
    requires n <= |log|
  {
    exists k :: 0 <= k < n && log[k] == Enqueued(id) && forall l :: k < l < n ==> !Unqueues(log[l], id)
  }

  lemma QueuedSinceStep(log: Log, n: nat, id: MessageId)
    requires n < |log|
    ensures QueuedSince(log, n + 1, id) <==>
        log[n] == Enqueued(id)
        || (QueuedSince(log, n, id) && !Unqueues(log[n], id))
  {
    if QueuedSince(log, n + 1, id) && log[n] != Enqueued(id) {
      var k :| 0 <= k < n + 1 && log[k] == Enqueued(id) && forall l :: k < l < n + 1 ==> !Unqueues(log[l], id);
      assert k < n && !Unqueues(log[n], id);
    }
    if QueuedSince(log, n, id) && !Unqueues(log[n], id) {
      var k :| 0 <= k < n && log[k] == Enqueued(id) && forall l :: k < l < n ==> !Unqueues(log[l], id);
      assert forall l :: k < l < n + 1 ==> !Unqueues(log[l], id);
    }
  }

  lemma QueueStep(told: Told, e: Event, id: MessageId)
    ensures id in ToldNext(told, e).queued <==> e == Enqueued(id) || (id in told.queued && !Unqueues(e, id))
  {
    hide Opened, Without;
  }

  /** A message is queued exactly when it was put there and nothing has taken it out since. */
  lemma {:induction false} QueuedIff(log: Log, n: nat, id: MessageId)
    requires n <= |log|
    ensures id in ToldBy(log[..n]).queued <==> QueuedSince(log, n, id)
    decreases n
  {
    if n > 0 {
      ToldAfter(log, n - 1);
      QueuedIff(log, n - 1, id);
      hide ToldBy, ToldNext, QueuedSince, Unqueues;
      QueuedSinceStep(log, n - 1, id);
      QueueStep(ToldBy(log[..n - 1]), log[n - 1], id);
    }
  }

  /**
   * The taking-up at `a` rests on a snapshot at `k` that shows the turn open, with no accepted end of it in between,
   * and on the newest snapshot `m`, which names the message of the turn, in its run and as one that starts turns. That
   * one shows a turn open for the message, too, or the message is queued.
   */
  ghost predicate TakenUpAt(log: Log, k: nat, m: nat, a: nat, t: TurnId, id: MessageId)
    requires k <= m < a < |log|
  {
    && log[a].Adopt? && log[a].turnId == t && log[a].id == id
    && IsNewest(log, m, a) && NamesForTurn(log[m].view, id)
    && ShowsOpen(log[k], t, id, log[m].view.message.value.runId) && (forall l :: k < l < a ==> !EndsTurn(log[l], t))
    && (OpenSince(log, m, a, id) || QueuedSince(log, a, id))
  }

  lemma AdoptionShown(log: Log, a: nat) returns (k: nat, m: nat)
    requires Legal(log) && a < |log| && log[a].Adopt?
    ensures k <= m < a && TakenUpAt(log, k, m, a, log[a].turnId, log[a].id)
    ensures log[a].id !in ToldBy(log[..a]).closed || QueuedSince(log, a, log[a].id)
  {
    var t, id, told := log[a].turnId, log[a].id, ToldBy(log[..a]);
    assert MayTakeUp(told, t, id) by { assert LegalTurn(log[..a], log[a]); }
    hide Legal, ToldBy, QueuedSince, OpenSince, ShownOpen;
    QueuedIff(log, a, id);
    m := NewestSnapshot(log, a);
    k := ShownBySnapshot(log, a, t, id, told.newest.value.message.value.runId);
  }

  /**
   * A report of a turn follows the accepted report of its end only if a snapshot arrives in between that shows the turn
   * open and started, and it is taken up as `TakenUpAt` says. When that end closed its message for good and it is for
   * this message that the turn is taken up, then also a snapshot in between did not name it, or it is queued at that
   * moment.
   */
  lemma NoReportAfterEnd(log: Log, i: nat, j: nat, t: TurnId) returns (k: nat, m: nat, a: nat)
    requires Legal(log) && i < j < |log|
    requires EndsTurn(log[i], t)
    requires log[j] == ReportStarted(t) || (log[j].ReportEnded? && log[j].turnId == t)
    ensures i < k <= m < a < j && log[a].Adopt? && TakenUpAt(log, k, m, a, t, log[a].id)
    ensures log[i].closes == Some(log[a].id) ==>
              || (exists l :: i < l < a && Unnames(log[l], log[a].id))
              || QueuedSince(log, a, log[a].id)
  {
    a := TakenUpAfterEnd(log, i, j, t);
    k, m := AdoptionShown(log, a);
    var id := log[a].id;
    assert EndsTurn(log[i], t) && log[k].Snapshot?;
    hide QueuedSince, Legal, ToldBy, OpenSince;
    if log[i].closes == Some(id) && forall l :: i < l < a ==> !Unnames(log[l], id) { ClosedStays(log, i, a, id); }
  }

  lemma TakenUpAfterEnd(log: Log, i: nat, j: nat, t: TurnId) returns (a: nat)
    requires Legal(log) && i < j < |log|
    requires EndsTurn(log[i], t)
    requires log[j] == ReportStarted(t) || (log[j].ReportEnded? && log[j].turnId == t)
    ensures i < a < j && log[a].Adopt? && log[a].turnId == t
  {
    assert LegalTurn(log[..i], log[i]) && LegalTurn(log[..j], log[j]);
    OwnedAfter(log, i);
    if forall k :: i < k < j ==> !Takes(log[k], t) {
      GoneStaysGone(log, i + 1, j, t);
      assert false;
    } else {
      a :| i < a < j && Takes(log[a], t);
      OwnedBeforeIsAdopted(log, i, a, t);
    }
  }

  /** A turn id that was owned before can only be taken up by adoption. */
  lemma OwnedBeforeIsAdopted(log: Log, i: nat, k: nat, t: TurnId)
    requires Legal(log) && i <= k < |log| && Takes(log[k], t)
    requires Owned(log[..i]).Some? && Owned(log[..i]).value.turnId == t
    ensures log[k].Adopt?
  {
    OwnedIsUsed(log, i);
    UsedGrows(log, i, k);
    assert LegalTurn(log[..k], log[k]);
  }

  lemma {:induction false} OwnedIsUsed(log: Log, n: nat)
    requires n <= |log|
    ensures Owned(log[..n]).Some? ==> Owned(log[..n]).value.turnId in UsedTurns(log[..n])
    decreases n
  {
    if n > 0 {
      assert log[..n][..n - 1] == log[..n - 1];
      OwnedIsUsed(log, n - 1);
    }
  }

  lemma {:induction false} UsedGrows(log: Log, i: nat, j: nat)
    requires i <= j <= |log|
    ensures UsedTurns(log[..i]) <= UsedTurns(log[..j])
    decreases j
  {
    if i < j {
      assert log[..j][..j - 1] == log[..j - 1];
      UsedGrows(log, i, j - 1);
    }
  }

  /** Pi is told to abort a turn at most once per ownership. */
  lemma AbortedAtMostOnce(log: Log, i: nat, j: nat, t: TurnId)
    requires Legal(log) && i < j < |log|
    requires log[i] == AbortCalled(t) && log[j] == AbortCalled(t)
    ensures exists k :: i < k < j && Takes(log[k], t)
  {
    assert LegalTurn(log[..i], log[i]) && LegalTurn(log[..j], log[j]);
    OwnedAfter(log, i);
    if forall k :: i < k < j ==> !Takes(log[k], t) {
      OwnerFactsPersist(log, i + 1, j, t);
    }
  }

  /** The first result a turn settles with is the only one reported for that ownership. */
  lemma FirstResultReported(log: Log, i: nat, j: nat, t: TurnId, first: TurnEnd, end: TurnEnd)
    requires Legal(log) && i < j < |log|
    requires log[i] == TurnSettled(t, first)
    requires log[j] == TurnSettled(t, end) || (log[j] == ReportEnded(t, end) && end != first)
    ensures exists k :: i < k < j && Takes(log[k], t)
  {
    assert LegalTurn(log[..i], log[i]) && LegalTurn(log[..j], log[j]);
    OwnedAfter(log, i);
    if forall k :: i < k < j ==> !Takes(log[k], t) {
      OwnerFactsPersist(log, i + 1, j, t);
    }
  }

  /**
   * What lets an end be reported: the server answered the start, or cancelled the message, or the turn was taken up.
   */
  ghost predicate Justifies(e: Event, t: TurnId, id: MessageId) {
    || (e.StartedReply? && e.turnId == t)
    || (e.Adopt? && e.turnId == t && e.id == id)
    || (e.Snapshot? && Cancels(e.view, id))
  }

  /** A flag is raised by what justifies it, or was before. */
  lemma FlagStep(owner: Option<Owner>, e: Event)
    requires var next := OwnedNext(owner, e); next.Some? && (next.value.acknowledged || next.value.stopped)
    requires owner.Some? && (e.StartedReply? || e.EndedReply?) ==> e.turnId == owner.value.turnId
    ensures var next := OwnedNext(owner, e).value;
            || Justifies(e, next.turnId, next.id)
            || (owner.Some? && owner.value.turnId == next.turnId && owner.value.id == next.id && !Takes(e, next.turnId)
                && (owner.value.acknowledged || owner.value.stopped))
  {
  }

  lemma {:induction false} FlagsJustified(log: Log, n: nat) returns (k: nat)
    requires Legal(log) && n <= |log|
    requires Owned(log[..n]).Some? && (Owned(log[..n]).value.acknowledged || Owned(log[..n]).value.stopped)
    ensures k < n && Justifies(log[k], Owned(log[..n]).value.turnId, Owned(log[..n]).value.id)
    ensures forall l :: k < l < n ==> !Takes(log[l], Owned(log[..n]).value.turnId)
    decreases n
  {
    LegalAt(log, n - 1);
    k := n - 1;
    hide Owned, Legal, OwnedNext, MayTakeUp, Justifies;
    FlagStep(Owned(log[..n - 1]), log[n - 1]);
    if !Justifies(log[n - 1], Owned(log[..n]).value.turnId, Owned(log[..n]).value.id) {
      k := FlagsJustified(log, n - 1);
    }
  }

  /**
   * An end is reported only after, in this ownership of the turn, the server answered its start or cancelled its
   * message, or after the ownership began from a snapshot that showed the turn open.
   */
  lemma EndReportJustified(log: Log, j: nat, t: TurnId, end: TurnEnd) returns (k: nat)
    requires Legal(log) && j < |log| && log[j] == ReportEnded(t, end)
    ensures Owned(log[..j]).Some? && Owned(log[..j]).value.turnId == t
    ensures k < j && var id := Owned(log[..j]).value.id;
            || (((log[k].StartedReply? && log[k].turnId == t) || (log[k].Snapshot? && Cancels(log[k].view, id)))
                && forall l :: k < l < j ==> !Takes(log[l], t))
            || (exists m, a :: k <= m < a < j && TakenUpAt(log, k, m, a, t, id)
                               && forall l :: a < l < j ==> !Takes(log[l], t))
  {
    assert LegalTurn(log[..j], log[j]);
    var a := FlagsJustified(log, j);
    k := a;
    if log[a].Adopt? {
      var m;
      k, m := AdoptionShown(log, a);
    }
  }
}
