/**
 * The workflow message coordinator. `synchronize` is cut at every await: `at` says where the one
 * call in flight is suspended (`Going` while it runs), and each resume method runs it to its next await.
 */
module MessageCoordinator {
  import opened CoordinatorProtocol

  datatype OwnedTurn = OwnedTurn(
    turnId: TurnId, message: Message, startedReported: bool, entryReported: bool,
    stopRequested: bool, abortSent: bool, phase: Phase)

  datatype Prepared = Prepared(id: MessageId, digest: Digest, content: string)

  /** Which of the calls to `reportBranch` or `flushTurn` is in flight. */
  datatype ReportSite = OwnedDelivery | Current | AlreadyPresent | AfterSend
  datatype FlushSite = SettledFirst | AfterReport | AfterSendFlush

  /** Where the call in flight is suspended. `v` is the snapshot it captured, `seen` the branch it captured. */
  datatype At =
    | Resting
    | Going(v: nat, seen: set<MessageId>)
    | Hydrating(v: nat, message: Message)
    | Preparing(v: nat)
    | Adopting(v: nat, seen: set<MessageId>)
    | Reporting(v: nat, seen: set<MessageId>, report: ReportSite, reported: Option<Message>, entry: Option<string>)
    | Starting(v: nat, seen: set<MessageId>, flush: FlushSite, turnId: TurnId, message: Message)
    | BeforeEnd(v: nat, seen: set<MessageId>, flush: FlushSite, turnId: TurnId, message: Message, end: TurnEnd)
    | Ending(v: nat, seen: set<MessageId>, flush: FlushSite, turnId: TurnId, message: Message, end: TurnEnd)
    | Flushed(v: nat, seen: set<MessageId>, flush: FlushSite)
    | Finishing(v: nat, seen: set<MessageId>)
    | Announcing(v: nat, seen: set<MessageId>, id: MessageId)
    | Sending(v: nat, seen: set<MessageId>, message: Message)
    | SendReturned(v: nat, seen: set<MessageId>)

  // ---- The invariant, on plain values -----------------------------------------------------------

  /** The owned turn, as the log should tell it. */
  function OwnerOf(turn: Option<OwnedTurn>): Option<Owner> {
    if turn.None? then None
    else
      var t := turn.value;
      Some(Owner(t.turnId, t.message.id, t.phase, t.startedReported, t.stopRequested, t.abortSent))
  }

  /**
   * A message sent and not excused is named now, and is still queued, or in the branch, or shown since as not pending.
   */
  ghost predicate GuardsHold(outstanding: map<MessageId, bool>, current: Option<Message>, queued: set<MessageId>,
      branch: set<MessageId>) {
    forall id :: id in outstanding ==>
      && current.Some? && current.value.id == id
      && (id in queued || id in branch || outstanding[id])
      && (outstanding[id] ==> current.value.status != Pending)
  }

  /** What the suspended call relies on. */
  ghost predicate AtHolds(
    at: At, turn: Option<OwnedTurn>, outstanding: map<MessageId, bool>, view: Option<nat>, current: Option<Message>,
    queued: set<MessageId>, branch: set<MessageId>)
  {
    match at
    case Starting(_, _, _, t, message) =>
      turn.Some? && turn.value.turnId == t && turn.value.message.id == message.id && !turn.value.phase.Delivering?
    case BeforeEnd(_, _, _, t, message, end) => EndHolds(turn, t, message, end)
    case Ending(_, _, _, t, message, end) => EndHolds(turn, t, message, end)
    case Reporting(_, _, _, reported, entry) =>
      reported.Some? && entry.Some? ==> reported.value.id in branch || reported.value.id !in outstanding
    case Sending(v, _, message) =>
      && view == Some(v) && current.Some? && current.value.id == message.id
      && message.id in queued && message.id !in outstanding
    case Announcing(_, _, _) => turn.None?
    case _ => true
  }

  ghost predicate EndHolds(turn: Option<OwnedTurn>, t: TurnId, message: Message, end: TurnEnd) {
    && turn.Some? && turn.value.turnId == t && turn.value.message.id == message.id
    && turn.value.phase == Settled(end) && (turn.value.startedReported || turn.value.stopRequested)
  }

  lemma EndKeepsTold(
    told: Told, queued: set<MessageId>, closed: set<MessageId>, at: At, view: Option<nat>, views: seq<View>, t: TurnId,
    closes: Option<MessageId>)
    requires ToldHolds(told, queued, closed, at, view, views)
    requires !at.Resting? && at.v < |views| && views[at.v].openTurn.Some? ==> views[at.v].openTurn.value.turnId != t
    requires view.Some? && view.value < |views| && views[view.value].openTurn.Some? ==>
        views[view.value].openTurn.value.turnId != t
    ensures ToldHolds(ToldNext(told, EndedReply(t, closes)), queued,
                      closed + (if closes.Some? then {closes.value} else {}), at, view, views)
  {
  }

  /** The captured snapshot is one that was received, and it was active and had an epoch. */
  ghost predicate CapturedHolds(at: At, views: seq<View>) {
    at.Resting? || (at.v < |views| && views[at.v].active && views[at.v].epoch.Some?)
  }

  /** Fresh turn ids are above every id owned or shown so far. */
  ghost predicate TurnIdsOld(used: set<TurnId>, views: seq<View>, nextTurn: nat) {
    && (forall t :: t in used ==> t < nextTurn)
    && (forall i :: 0 <= i < |views| && views[i].openTurn.Some? ==> views[i].openTurn.value.turnId < nextTurn)
  }

  ghost predicate ContentVerified(content: Option<Prepared>) {
    content.Some? ==> content.value.digest == Digest(content.value.content)
  }

  /** A snapshot object shows no turn of its session open but one that was shown, with no accepted end of it since. */
  ghost predicate OpenHolds(v: View, shown: set<OpenTurn>) {
    v.openTurn.Some? && v.openTurn.value.sessionId == v.sessionId ==> v.openTurn.value in shown
  }

  /** The object is the snapshot, but that its message may count as sent by now, and its turn as ended. */
  predicate ShowsLess(v: View, snapshot: View) {
    && v.message.Some? == snapshot.message.Some?
    && (v.message.Some? ==> v.message.value == snapshot.message.value.(status := v.message.value.status))
    && (v.openTurn.Some? ==> snapshot.openTurn == v.openTurn)
  }

  /** The fields are what the log tells, and so are the turns that the current and the captured snapshot show open. */
  ghost predicate ToldHolds(
    told: Told, queued: set<MessageId>, closed: set<MessageId>, at: At, view: Option<nat>, views: seq<View>)
  {
    && told.queued == queued && told.closed == closed && (told.sending <==> at.Sending?)
    && (view.Some? <==> told.newest.Some?)
    && (view.Some? && view.value < |views| ==>
          OpenHolds(views[view.value], told.shown) && ShowsLess(views[view.value], told.newest.value))
    && (!at.Resting? && at.v < |views| ==> OpenHolds(views[at.v], told.shown))
  }

  lemma SnapshotKeepsTold(
    told: Told, queued: set<MessageId>, closed: set<MessageId>, at: At, view: Option<nat>, views: seq<View>, v: View)
    requires ToldHolds(told, queued, closed, at, view, views) && !at.Sending? && CapturedHolds(at, views)
    ensures ToldHolds(ToldNext(told, Snapshot(v)), StillQueued(queued, v), closed * Named(v), at, Some(|views|),
                      views + [v])
  {
    hide StillQueued, Named;
  }

  lemma SnapshotKeepsGuards(
    outstanding: map<MessageId, bool>, current: Option<Message>, queued: set<MessageId>, branch: set<MessageId>,
      v: View)
    requires GuardsHold(outstanding, current, queued, branch)
    ensures GuardsHold(OutstandingNext(outstanding, Snapshot(v)), v.message, StillQueued(queued, v), branch)
  {
  }

  lemma SnapshotKeepsViews(at: At, used: set<TurnId>, views: seq<View>, nextTurn: nat, v: View, nextTurn': nat)
    requires CapturedHolds(at, views) && TurnIdsOld(used, views, nextTurn)
    requires nextTurn <= nextTurn' && (v.openTurn.Some? ==> v.openTurn.value.turnId < nextTurn')
    ensures CapturedHolds(at, views + [v]) && TurnIdsOld(used, views + [v], nextTurn')
  {
  }

  /** An owned turn whose message the snapshot shows cancelled is asked to stop. */
  function StopIfCancelled(turn: Option<OwnedTurn>, v: View): Option<OwnedTurn> {
    if turn.Some? && Cancels(v, turn.value.message.id) then Some(turn.value.(stopRequested := true)) else turn
  }

  lemma SnapshotKeepsOwner(turn: Option<OwnedTurn>, v: View)
    ensures OwnedNext(OwnerOf(turn), Snapshot(v)) == OwnerOf(StopIfCancelled(turn, v))
  {
  }

  lemma SnapshotKeepsAt(
    at: At, turn: Option<OwnedTurn>, outstanding: map<MessageId, bool>, view: Option<nat>, current: Option<Message>,
    queued: set<MessageId>, branch: set<MessageId>, v: View, view': Option<nat>)
    requires AtHolds(at, turn, outstanding, view, current, queued, branch) && !at.Sending?
    ensures AtHolds(at, StopIfCancelled(turn, v), OutstandingNext(outstanding, Snapshot(v)), view', v.message,
                    StillQueued(queued, v), branch)
  {
  }

  /** The life of an owned turn goes on under a suspended call: forward in phase, or flagged. */
  predicate TurnMoves(turn: OwnedTurn, turn': OwnedTurn) {
    || (turn' == turn.(phase := turn'.phase) && turn.phase.Delivering? && turn'.phase.Running?)
    || (turn' == turn.(phase := turn'.phase) && turn.phase.Running? && turn'.phase.Settled?)
    || turn' == turn.(abortSent := true)
  }

  lemma TurnMoveKeepsAt(
    at: At, turn: OwnedTurn, outstanding: map<MessageId, bool>, view: Option<nat>, current: Option<Message>,
    queued: set<MessageId>, branch: set<MessageId>, turn': OwnedTurn)
    requires AtHolds(at, Some(turn), outstanding, view, current, queued, branch) && TurnMoves(turn, turn')
    ensures AtHolds(at, Some(turn'), outstanding, view, current, queued, branch)
  {
  }

  class Coordinator {
    // The coordinator's own fields.
    var queued: set<MessageId>
    var closedTurnMessages: set<MessageId>
    var finalizedTerminals: set<MessageId>
    var synchronizing: bool
    var lastBranchEpoch: Option<string>
    var view: Option<nat>
    var turn: Option<OwnedTurn>
    var content: Option<Prepared>
    var fenced: bool
    // The suspended call, and every snapshot object received so far (a view is an index into it).
    var at: At
    var views: seq<View>
    // Pi, as the context object shows it, and the source of fresh turn ids.
    var branch: map<MessageId, string>
    var idle: bool
    var hasPending: bool
    var latestInput: Option<MessageId>
    var nextTurn: nat
    // The calls made so far.
    var log: Log

    constructor ()
      ensures log == [] && Valid()
      ensures at.Resting? && queued == {} && closedTurnMessages == {} && finalizedTerminals == {}
      ensures lastBranchEpoch == None && view == None && turn == None && content == None && !fenced
      ensures views == [] && branch == map[] && idle && !hasPending && nextTurn == 0
    {
      queued, closedTurnMessages, finalizedTerminals := {}, {}, {};
      synchronizing, fenced := false, false;
      lastBranchEpoch, view, turn, content := None, None, None, None;
      at, views := Resting, [];
      branch, idle, hasPending, latestInput, nextTurn := map[], true, false, None, 0;
      log := [];
    }

    /** The message the current snapshot names. */
    function CurrentMessage(): Option<Message>
      reads this
    {
      if view.Some? && view.value < |views| then views[view.value].message else None
    }

    ghost predicate Valid()
      reads this
    {
      && Legal(log) && Owned(log) == OwnerOf(turn)
      && (synchronizing <==> !at.Resting?)
      && (view.Some? ==> view.value < |views|)
      && CapturedHolds(at, views) && TurnIdsOld(UsedTurns(log), views, nextTurn) && ContentVerified(content)
      && GuardsHold(Outstanding(log), CurrentMessage(), queued, branch.Keys)
      && AtHolds(at, turn, Outstanding(log), view, CurrentMessage(), queued, branch.Keys)
      && ToldHolds(ToldBy(log), queued, closedTurnMessages, at, view, views)
    }

    /** Make one call: it must be allowed by everything made before. */
    method Emit(e: Event)
      requires Legal(log) && SafeSend(log, e) && LegalTurn(log, e)
      modifies this`log
      ensures log == old(log) + [e] && Legal(log)
      ensures Owned(log) == OwnedNext(old(Owned(log)), e)
      ensures Outstanding(log) == OutstandingNext(old(Outstanding(log)), e)
      ensures UsedTurns(log) == UsedNext(old(UsedTurns(log)), e)
      ensures ToldBy(log) == ToldNext(old(ToldBy(log)), e)
    {
      LegalSnoc(log, e);
      log := log + [e];
    }

    // ---- Snapshots and lifecycle events ------------------------------------------------------

    method UpdateView(v: View)
      requires Valid() && !at.Sending?
      modifies this`views, this`view, this`fenced, this`turn, this`log, this`nextTurn
      modifies this`queued, this`closedTurnMessages, this`finalizedTerminals
      ensures Valid()
      ensures views == old(views) + [v] && view == Some(|old(views)|) && !fenced
      ensures log == old(log) + [Snapshot(v)]
      ensures turn == StopIfCancelled(old(turn), v)
      ensures queued == StillQueued(old(queued), v)
      ensures nextTurn == if v.openTurn.Some? && v.openTurn.value.turnId >= old(nextTurn)
          then v.openTurn.value.turnId + 1 else old(nextTurn)
      ensures closedTurnMessages == old(closedTurnMessages) * Named(v)
      ensures finalizedTerminals == old(finalizedTerminals) * Named(v)
    {
      hide Legal, Outstanding, Owned, UsedTurns, ToldBy, GuardsHold, AtHolds, TurnIdsOld, ContentVerified, ToldHolds,
          OwnerOf;
      fenced := false;
      finalizedTerminals := finalizedTerminals * Named(v);
      SeeTurnId(v);
      TakeSnapshot(v);
    }

    /** Fresh turn ids stay above every id that a snapshot shows. */
    method SeeTurnId(v: View)
      requires Valid()
      modifies this`nextTurn
      ensures Valid() && (v.openTurn.Some? ==> v.openTurn.value.turnId < nextTurn)
      ensures nextTurn == if v.openTurn.Some? && v.openTurn.value.turnId >= old(nextTurn)
          then v.openTurn.value.turnId + 1 else old(nextTurn)
    {
      hide Legal, Outstanding, Owned, UsedTurns, ToldBy, GuardsHold, AtHolds, ContentVerified, ToldHolds, OwnerOf;
      if v.openTurn.Some? && v.openTurn.value.turnId >= nextTurn {
        nextTurn := v.openTurn.value.turnId + 1;
      }
    }

    method TakeSnapshot(v: View)
      requires Valid() && !at.Sending? && (v.openTurn.Some? ==> v.openTurn.value.turnId < nextTurn)
      modifies this`views, this`view, this`turn, this`log, this`queued, this`closedTurnMessages
      ensures Valid() && closedTurnMessages == old(closedTurnMessages) * Named(v)
      ensures views == old(views) + [v] && view == Some(|old(views)|)
      ensures log == old(log) + [Snapshot(v)]
      ensures turn == StopIfCancelled(old(turn), v)
      ensures queued == StillQueued(old(queued), v)
    {
      hide Legal, Outstanding, Owned, UsedTurns, ToldBy, GuardsHold, AtHolds, OutstandingNext, CapturedHolds,
        TurnIdsOld, OwnedNext, OwnerOf, StopIfCancelled, ToldHolds, ToldNext;
      SnapshotKeepsTold(ToldBy(log), queued, closedTurnMessages, at, view, views, v);
      SnapshotKeepsOwner(turn, v);
      SnapshotKeepsGuards(Outstanding(log), CurrentMessage(), queued, branch.Keys, v);
      SnapshotKeepsAt(at, turn, Outstanding(log), view, CurrentMessage(), queued, branch.Keys, v, Some(|views|));
      SnapshotKeepsViews(at, UsedTurns(log), views, nextTurn, v, nextTurn);
      view := Some(|views|);
      views := views + [v];
      turn := StopIfCancelled(turn, v);
      queued := queued * Named(v) - (if v.message.Some? && v.message.value.status != Pending then Named(v) else {});
      assert queued == StillQueued(old(queued), v);
      closedTurnMessages := closedTurnMessages * Named(v);
      Emit(Snapshot(v));
    }

    method BranchChanged()
      requires Valid()
      modifies this`lastBranchEpoch
      ensures Valid() && lastBranchEpoch == None
    {
      hide Legal, Outstanding, Owned, UsedTurns, ToldBy, GuardsHold, AtHolds, TurnIdsOld, ContentVerified, ToldHolds,
          OwnerOf;
      lastBranchEpoch := None;
    }

    method Fence()
      requires Valid()
      modifies this`fenced
      ensures Valid() && fenced
    {
      hide Legal, Outstanding, Owned, UsedTurns, ToldBy, GuardsHold, AtHolds, TurnIdsOld, ContentVerified, ToldHolds,
          OwnerOf;
      fenced := true;
    }

    method StartTurn()
      requires Valid()
      modifies this`turn, this`log
      ensures Valid()
      ensures if old(turn).Some? && old(turn).value.phase.Delivering?
        then turn == Some(old(turn).value.(phase := Running)) && log == old(log) + [TurnStarted(old(turn).value.turnId)]
        else turn == old(turn) && log == old(log)
    {
      hide Legal, Outstanding, Owned, UsedTurns, ToldBy, GuardsHold, AtHolds;
      if turn.Some? && turn.value.phase.Delivering? {
        turn := Some(turn.value.(phase := Running));
        TurnMoveKeepsAt(at, old(turn).value, Outstanding(log), view, CurrentMessage(), queued, branch.Keys, turn.value);
        Emit(TurnStarted(turn.value.turnId));
      }
    }

    method EndTurn(end: TurnEnd)
      requires Valid()
      modifies this`turn, this`log
      ensures Valid()
      ensures if old(turn).Some? && old(turn).value.phase.Running?
        then turn == Some(old(turn).value.(phase := Settled(end)))
          && log == old(log) + [TurnSettled(old(turn).value.turnId, end)]
        else turn == old(turn) && log == old(log)
    {
      hide Legal, Outstanding, Owned, UsedTurns, ToldBy, GuardsHold, AtHolds;
      if turn.Some? && turn.value.phase.Running? {
        turn := Some(turn.value.(phase := Settled(end)));
        TurnMoveKeepsAt(at, old(turn).value, Outstanding(log), view, CurrentMessage(), queued, branch.Keys, turn.value);
        Emit(TurnSettled(turn.value.turnId, end));
      }
    }

    predicate MustAbort()
      reads this
      requires view.Some? ==> view.value < |views|
    {
      && view.Some? && views[view.value].active
      && turn.Some? && turn.value.phase.Running? && turn.value.stopRequested && !turn.value.abortSent && !idle
    }

    method AbortCancelledTurn()
      requires Valid()
      modifies this`turn, this`log
      ensures Valid()
      ensures if old(MustAbort())
        then turn == Some(old(turn).value.(abortSent := true))
          && log == old(log) + [AbortCalled(old(turn).value.turnId)]
        else turn == old(turn) && log == old(log)
    {
      hide Legal, Outstanding, Owned, UsedTurns, ToldBy, GuardsHold, AtHolds;
      if MustAbort() {
        turn := Some(turn.value.(abortSent := true));
        TurnMoveKeepsAt(at, old(turn).value, Outstanding(log), view, CurrentMessage(), queued, branch.Keys, turn.value);
        Emit(AbortCalled(turn.value.turnId));
      }
    }

    // ---- Pi ----------------------------------------------------------------------------------

    method AddEntry(id: MessageId, entry: string)
      requires Valid()
      modifies this`branch, this`log
      ensures Valid() && branch == old(branch)[id := entry] && log == old(log) + [EntryAdded(id)]
    {
      branch := branch[id := entry];
      Emit(EntryAdded(id));
    }

    method Rewind(ids: set<MessageId>)
      requires Valid()
      modifies this`branch, this`log
      ensures Valid() && branch == old(branch) - ids && log == old(log) + [BranchRewound]
    {
      branch := branch - ids;
      Emit(BranchRewound);
    }

    method SetPi(idle: bool, hasPending: bool, latestInput: Option<MessageId>)
      requires Valid()
      modifies this`idle, this`hasPending, this`latestInput
      ensures Valid() && this.idle == idle && this.hasPending == hasPending && this.latestInput == latestInput
    {
      hide Legal, Outstanding, Owned, UsedTurns, ToldBy, GuardsHold, AtHolds, TurnIdsOld, ContentVerified, ToldHolds,
          OwnerOf;
      this.idle, this.hasPending, this.latestInput := idle, hasPending, latestInput;
    }

    // ---- Where each stretch of `synchronize` suspends next -----------------------------------

    function EntryOf(reported: Option<Message>): Option<string>
      reads this`branch
    {
      if reported.Some? && reported.value.id in branch then Some(branch[reported.value.id]) else None
    }

    function ReportAt(v: nat, seen: set<MessageId>, report: ReportSite, reported: Option<Message>): At
      reads this`branch
    {
      Reporting(v, seen, report, reported, EntryOf(reported))
    }

    /** After the start needs no report: wait, or run the extension's end work, or report the end. */
    function EndAt(v: nat, seen: set<MessageId>, flush: FlushSite, message: Message): At
      reads this
      requires turn.Some?
    {
      var t := turn.value;
      if !t.phase.Settled? then Flushed(v, seen, flush)
      else if !t.stopRequested then BeforeEnd(v, seen, flush, t.turnId, message, t.phase.end)
      else Ending(v, seen, flush, t.turnId, message, t.phase.end)
    }

    /** The start of an owned turn is reported once the server confirms or holds the message's entry. */
    function StartAt(v: nat, seen: set<MessageId>, flush: FlushSite, current: Option<Message>): At
      reads this
      requires turn.Some?
    {
      var t := turn.value;
      if current.Some? && current.value.id == t.message.id then
        if current.value.status == Sent then
          Starting(v, seen, flush, t.turnId, current.value)
        else Flushed(v, seen, flush)
      else if t.entryReported then Starting(v, seen, flush, t.turnId, t.message)
      else Flushed(v, seen, flush)
    }

    function FlushAt(v: nat, seen: set<MessageId>, flush: FlushSite): At
      reads this
      requires v < |views|
    {
      if turn.None? || turn.value.phase.Delivering? || lastBranchEpoch != views[v].epoch then Flushed(v, seen, flush)
      else if !turn.value.startedReported && !turn.value.stopRequested then StartAt(v, seen, flush, views[v].message)
      else EndAt(v, seen, flush, turn.value.message)
    }

    predicate ReportDue(v: nat)
      reads this
      requires v < |views|
    {
      || views[v].branchReportRequired || lastBranchEpoch != views[v].epoch
      || (views[v].message.Some? && views[v].message.value.status != Sent && views[v].message.value.id in branch)
    }

    function CurrentAt(v: nat, seen: set<MessageId>): At
      reads this
      requires v < |views|
    {
      if ReportDue(v) then ReportAt(v, seen, Current, views[v].message) else FlushAt(v, seen, AfterReport)
    }

    /** A turn that settled locally is flushed before anything is reported about the branch. */
    function OwnedAt(v: nat, seen: set<MessageId>): At
      reads this
      requires v < |views|
    {
      if turn.Some? && turn.value.phase.Settled? then FlushAt(v, seen, SettledFirst) else CurrentAt(v, seen)
    }

    /** The delivered message of an unconfirmed turn that Pi holds while the snapshot names another message. */
    function UnreportedOwnedDelivery(v: nat): Option<Message>
      reads this
      requires v < |views|
    {
      if turn.None? || turn.value.startedReported || turn.value.entryReported then None
      else if views[v].message.Some? && views[v].message.value.id == turn.value.message.id then None
      else if turn.value.message.id in branch then Some(turn.value.message)
      else None
    }

    function AdoptedAt(v: nat, seen: set<MessageId>): At
      reads this
      requires v < |views|
    {
      var owned := UnreportedOwnedDelivery(v);
      if owned.Some? then ReportAt(v, seen, OwnedDelivery, owned) else OwnedAt(v, seen)
    }

    /** The final decision: send, report an entry that is already there, or stop. */
    function DeliverAt(v: nat, seen: set<MessageId>): At
      reads this`views, this`queued, this`idle, this`hasPending, this`content, this`branch, this`view
      requires v < |views|
    {
      var current := views[v].message;
      if current.None? || current.value.id in queued || current.value.status != Pending || !idle || hasPending
        || ContentFor(current.value).None? then Resting
      else if current.value.id in branch then ReportAt(v, seen, AlreadyPresent, current)
      else if view != Some(v) then Resting
      else Sending(v, seen, current.value)
    }

    /** The calls made on reaching a suspension point. */
    static function Asked(next: At): Log {
      match next
      case Reporting(_, _, _, reported, entry) =>
        [ReportBranch(if reported.Some? then Some(reported.value.id) else None, entry)]
      case Starting(_, _, _, t, _) => [ReportStarted(t)]
      case Ending(_, _, _, t, _, end) => [ReportEnded(t, end)]
      case _ => []
    }

    // ---- synchronize -------------------------------------------------------------------------

    /** The call ends, returning or throwing. */
    method Finish()
      requires Valid() && !at.Sending?
      modifies this`synchronizing, this`at
      ensures Valid() && at.Resting? && !synchronizing
    {
      synchronizing := false;
      at := Resting;
    }

    /** The call runs on from an await that Pi's own call did not make. */
    method Go()
      requires Valid() && !at.Resting? && !at.Hydrating? && !at.Preparing? && !at.Sending?
      modifies this`at
      ensures Valid() && at == Going(old(at).v, old(at).seen)
    {
      hide Legal, Outstanding, Owned, UsedTurns, ToldBy, GuardsHold, TurnIdsOld, OwnerOf;
      at := Going(at.v, at.seen);
    }

    predicate MayEnter()
      reads this
      requires view.Some? ==> view.value < |views|
    {
      && !synchronizing && view.Some? && !fenced
      && views[view.value].active && views[view.value].epoch.Some?
    }

    /** The content in hand is the current message's, or there is no message. */
    predicate ContentReady()
      reads this
      requires view.Some? && view.value < |views|
    {
      var message := views[view.value].message;
      message.Some? ==>
        content.Some? && content.value.id == message.value.id
        && content.value.digest == message.value.digest
    }

    method Synchronize()
      requires Valid()
      modifies this`turn, this`log, this`synchronizing, this`content, this`at
      ensures Valid()
      ensures log == old(log) + if old(MustAbort()) then [AbortCalled(old(turn).value.turnId)] else []
      ensures old(turn).None? ==> turn.None?
      ensures !old(MayEnter()) ==> at == old(at)
      ensures old(MayEnter()) ==> at == if old(ContentReady()) then Preparing(view.value)
                                        else Hydrating(view.value, views[view.value].message.value)
      ensures old(MayEnter()) && old(ContentReady()) && views[view.value].message.Some? ==> content == old(content)
    {
      hide Legal, Outstanding, Owned, UsedTurns, ToldBy, GuardsHold, AtHolds, TurnIdsOld, ContentVerified, ToldHolds,
          OwnerOf;
      AbortCancelledTurn();
      if synchronizing || view.None? || fenced {
        return;
      }
      var v := views[view.value];
      if !v.active || v.epoch.None? {
        return;
      }
      if v.message.None? {
        DropContent();
        Begin(Preparing(view.value));
      } else if content.Some? && content.value.id == v.message.value.id
        && content.value.digest == v.message.value.digest {
        Begin(Preparing(view.value));
      } else {
        DropContent();
        Begin(Hydrating(view.value, v.message.value));
      }
    }

    /** The call takes the snapshot at hand and suspends for the first time. */
    method Begin(next: At)
      requires Valid() && at.Resting? && MayEnter() && (next.Preparing? || next.Hydrating?) && next.v == view.value
      modifies this`synchronizing, this`at
      ensures Valid() && synchronizing && at == next
    {
      hide Legal, Outstanding, Owned, UsedTurns, ToldBy, GuardsHold, TurnIdsOld, OwnerOf;
      synchronizing := true;
      at := next;
    }

    method DropContent()
      requires Valid()
      modifies this`content
      ensures Valid() && content == None
    {
      hide Legal, Outstanding, Owned, UsedTurns, ToldBy, GuardsHold, AtHolds, TurnIdsOld, ToldHolds, OwnerOf;
      content := None;
    }

    /** The content arrived, or the request threw. A content with another digest throws too. */
    method ResumeHydrating(hydrated: Option<string>)
      requires Valid() && at.Hydrating?
      modifies this`turn, this`log, this`synchronizing, this`content, this`at
      ensures Valid()
      ensures if hydrated.Some? && Digest(hydrated.value) == old(at).message.digest
        then content == Some(Prepared(old(at).message.id, old(at).message.digest, hydrated.value))
             && at == Adopting(old(at).v, branch.Keys) && Adopts(old(turn), old(log), old(Adoptable(at.v)))
        else content == None && at.Resting? && turn == old(turn) && log == old(log)
    {
      hide Legal, Outstanding, Owned, UsedTurns, ToldBy, GuardsHold, TurnIdsOld, OwnerOf;
      content := None;
      if hydrated.None? || Digest(hydrated.value) != at.message.digest {
        Finish();
        return;
      }
      content := Some(Prepared(at.message.id, at.message.digest, hydrated.value));
      at := Going(at.v, {});
      AfterPrepare();
    }

    method ResumePreparing()
      requires Valid() && at.Preparing?
      modifies this`turn, this`log, this`at
      ensures Valid() && at == Adopting(old(at).v, branch.Keys)
      ensures Adopts(old(turn), old(log), old(Adoptable(at.v)))
    {
      at := Going(at.v, {});
      AfterPrepare();
    }

    /** The current message, when the snapshot in hand lets its turn be taken up. */
    function TurnCandidate(): Option<Message>
      reads this
      requires view.Some? ==> view.value < |views|
    {
      if view.None? || views[view.value].message.None? then None
      else
        var current, open := views[view.value].message.value, views[view.value].openTurn;
        if open.Some? && open.value.messageId == current.id && current.id !in closedTurnMessages && current.triggerTurn
        then Some(current)
        else if current.id in queued && current.triggerTurn then Some(current)
        else None
    }

    /** The turn the captured snapshot shows open, when it is the one Pi is running. */
    function Adoptable(v: nat): Option<OwnedTurn>
      reads this
      requires v < |views| && (view.Some? ==> view.value < |views|)
    {
      var candidate, open := TurnCandidate(), views[v].openTurn;
      if turn.None? && !idle && candidate.Some? && open.Some? && open.value.started
        && open.value.messageId == candidate.value.id && open.value.runId == candidate.value.runId
        && open.value.sessionId == views[v].sessionId && latestInput == Some(candidate.value.id)
      then Some(OwnedTurn(open.value.turnId, candidate.value, true, false, Cancels(views[v], candidate.value.id),
        false, Running))
      else None
    }

    /** The shown turn was taken up, or the turn kept; then a running turn asked to stop was aborted. */
    predicate Adopts(was: Option<OwnedTurn>, logWas: Log, adopted: Option<OwnedTurn>)
      reads this
      requires view.Some? ==> view.value < |views|
    {
      var taken := if adopted.Some? then adopted else was;
      var logThen := logWas +
        if adopted.Some? then
          [Adopt(adopted.value.turnId, adopted.value.message.id, adopted.value.stopRequested)]
        else [];
      if view.Some? && views[view.value].active && !idle && taken.Some? && taken.value.phase.Running?
         && taken.value.stopRequested && !taken.value.abortSent
      then turn == Some(taken.value.(abortSent := true)) && log == logThen + [AbortCalled(taken.value.turnId)]
      else turn == taken && log == logThen
    }

    lemma AdoptableMayBeTakenUp()
      requires Valid() && at.Going? && Adoptable(at.v).Some?
      ensures MayTakeUp(ToldBy(log), Adoptable(at.v).value.turnId, Adoptable(at.v).value.message.id)
    {
      hide Legal, Outstanding, Owned, UsedTurns, ToldBy, GuardsHold, AtHolds, TurnIdsOld, ContentVerified, OwnerOf;
      assert views[at.v].openTurn.value in ToldBy(log).shown;
    }

    method AfterPrepare()
      requires Valid() && at.Going?
      modifies this`turn, this`log, this`at
      ensures Valid() && at == Adopting(old(at).v, branch.Keys)
      ensures Adopts(old(turn), old(log), old(Adoptable(at.v)))
    {
      hide Legal, Outstanding, Owned, UsedTurns, ToldBy, GuardsHold, TurnIdsOld, ContentVerified, OwnerOf;
      var adopted := Adoptable(at.v);
      if adopted.Some? { TakeUp(adopted.value); }
      AbortCancelledTurn();
      at := Adopting(at.v, branch.Keys);
    }

    method TakeUp(adopted: OwnedTurn)
      requires Valid() && at.Going? && Adoptable(at.v) == Some(adopted)
      modifies this`turn, this`log
      ensures Valid() && turn == Some(adopted)
      ensures log == old(log) + [Adopt(adopted.turnId, adopted.message.id, adopted.stopRequested)]
    {
      hide Legal, Outstanding, Owned, UsedTurns, ToldBy, GuardsHold, ContentVerified;
      AdoptableMayBeTakenUp();
      hide MayTakeUp, ToldHolds;
      turn := Some(adopted);
      Emit(Adopt(adopted.turnId, adopted.message.id, adopted.stopRequested));
    }

    method ResumeAdopting()
      requires Valid() && at.Adopting?
      modifies this`log, this`at
      ensures Valid() && at == AdoptedAt(old(at).v, old(at).seen) && log == old(log) + Asked(at)
    {
      at := Going(at.v, at.seen);
      var owned := UnreportedOwnedDelivery(at.v);
      if owned.Some? {
        BeginReport(OwnedDelivery, owned);
      } else {
        AfterOwned();
      }
    }

    /** Report to the server whether Pi holds one message. */
    method BeginReport(report: ReportSite, reported: Option<Message>)
      requires Valid() && at.Going?
      modifies this`log, this`at
      ensures Valid() && at == ReportAt(old(at).v, old(at).seen, report, reported) && log == old(log) + Asked(at)
    {
      hide Legal, Outstanding, Owned, UsedTurns, ToldBy, GuardsHold;
      var entry := if reported.Some? && reported.value.id in branch then Some(branch[reported.value.id]) else None;
      Emit(ReportBranch(if reported.Some? then Some(reported.value.id) else None, entry));
      at := Reporting(at.v, at.seen, report, reported, entry);
    }

    method AfterOwned()
      requires Valid() && at.Going?
      modifies this`log, this`at
      ensures Valid() && at == OwnedAt(old(at).v, old(at).seen) && log == old(log) + Asked(at)
    {
      if turn.Some? && turn.value.phase.Settled? {
        BeginFlush(SettledFirst);
      } else {
        ReportCurrent();
      }
    }

    method ReportCurrent()
      requires Valid() && at.Going?
      modifies this`log, this`at
      ensures Valid() && at == CurrentAt(old(at).v, old(at).seen) && log == old(log) + Asked(at)
    {
      var current := views[at.v].message;
      if views[at.v].branchReportRequired || lastBranchEpoch != views[at.v].epoch ||
         (current.Some? && current.value.status != Sent && current.value.id in branch) {
        BeginReport(Current, current);
      } else {
        BeginFlush(AfterReport);
      }
    }

    /** `flushTurn` up to its first request. */
    method BeginFlush(flush: FlushSite)
      requires Valid() && at.Going?
      modifies this`log, this`at
      ensures Valid() && at == FlushAt(old(at).v, old(at).seen, flush) && log == old(log) + Asked(at)
    {
      hide Legal, Outstanding, Owned, UsedTurns, ToldBy, GuardsHold;
      if turn.None? || turn.value.phase.Delivering? || lastBranchEpoch != views[at.v].epoch {
        at := Flushed(at.v, at.seen, flush);
        return;
      }
      var message := turn.value.message;
      if !turn.value.startedReported && !turn.value.stopRequested {
        var current := views[at.v].message;
        if current.Some? && current.value.id == message.id {
          if current.value.status != Sent {
            at := Flushed(at.v, at.seen, flush);
            return;
          }
          message := current.value;
        } else if !turn.value.entryReported {
          at := Flushed(at.v, at.seen, flush);
          return;
        }
        Emit(ReportStarted(turn.value.turnId));
        at := Starting(at.v, at.seen, flush, turn.value.turnId, message);
        return;
      }
      FlushEnd(flush, message);
    }

    /** `flushTurn` once the start needs no report. */
    method FlushEnd(flush: FlushSite, message: Message)
      requires Valid() && at.Going? && turn.Some? && turn.value.message.id == message.id
      requires turn.value.startedReported || turn.value.stopRequested
      modifies this`log, this`at
      ensures Valid() && at == EndAt(old(at).v, old(at).seen, flush, message) && log == old(log) + Asked(at)
    {
      hide Legal, Outstanding, Owned, UsedTurns, ToldBy, GuardsHold;
      if !turn.value.phase.Settled? {
        at := Flushed(at.v, at.seen, flush);
      } else if !turn.value.stopRequested {
        at := BeforeEnd(at.v, at.seen, flush, turn.value.turnId, message, turn.value.phase.end);
      } else {
        ReportEnd(flush, message);
      }
    }

    method ReportEnd(flush: FlushSite, message: Message)
      requires Valid() && at.Going? && turn.Some? && turn.value.phase.Settled? && turn.value.message.id == message.id
      requires turn.value.startedReported || turn.value.stopRequested
      modifies this`log, this`at
      ensures Valid() && at == Ending(old(at).v, old(at).seen, flush, turn.value.turnId, message, turn.value.phase.end)
      ensures log == old(log) + Asked(at)
    {
      hide Legal, Outstanding, Owned, UsedTurns, ToldBy, GuardsHold;
      Emit(ReportEnded(turn.value.turnId, turn.value.phase.end));
      at := Ending(at.v, at.seen, flush, turn.value.turnId, message, turn.value.phase.end);
    }

    /** The server answered the start report, or the request threw. */
    method ResumeStarting(reply: Option<Ownership>)
      requires Valid() && at.Starting?
      modifies this`turn, this`log, this`synchronizing, this`at
      ensures Valid()
      ensures reply.None? ==> at.Resting? && turn == old(turn) && log == old(log)
      ensures reply.Some? && Accepts(reply.value, old(turn).value.phase) ==>
        && turn == Some(old(turn).value.(message := old(at).message, startedReported := true))
        && at == EndAt(old(at).v, old(at).seen, old(at).flush, old(at).message)
        && log == old(log) + [StartedReply(old(at).turnId, reply.value)] + Asked(at)
      ensures reply.Some? && !Accepts(reply.value, old(turn).value.phase) ==>
        && turn == Some(old(turn).value.(stopRequested := true))
        && at == Flushed(old(at).v, old(at).seen, old(at).flush)
        && log == old(log) + [StartedReply(old(at).turnId, reply.value)]
    {
      StartingHasTurn();
      hide Legal, Outstanding, Owned, UsedTurns, ToldBy, GuardsHold, AtHolds, TurnIdsOld, ContentVerified, ToldHolds,
          OwnerOf;
      if reply.None? {
        Finish();
        return;
      }
      var flush, message := at.flush, at.message;
      Go();
      TakeReceipt(reply.value, message);
      if Accepts(reply.value, turn.value.phase) {
        FlushEnd(flush, message);
      } else {
        GoFlushed(flush);
      }
    }

    lemma StartingHasTurn()
      requires Valid() && at.Starting?
      ensures turn.Some? && turn.value.turnId == at.turnId && turn.value.message.id == at.message.id
          && !turn.value.phase.Delivering?
    {
    }

    /** A receipt confirms the owned turn, or asks it to stop. */
    method TakeReceipt(ownership: Ownership, message: Message)
      requires Valid() && at.Going? && turn.Some? && turn.value.message.id == message.id
          && !turn.value.phase.Delivering?
      modifies this`turn, this`log
      ensures Valid() && log == old(log) + [StartedReply(old(turn).value.turnId, ownership)]
      ensures turn == Some(if Accepts(ownership, old(turn).value.phase)
                           then old(turn).value.(message := message, startedReported := true)
                           else old(turn).value.(stopRequested := true))
    {
      hide Legal, Outstanding, Owned, UsedTurns, ToldBy, GuardsHold, TurnIdsOld;
      var t := turn.value.turnId;
      if Accepts(ownership, turn.value.phase) {
        turn := Some(turn.value.(message := message, startedReported := true));
      } else {
        turn := Some(turn.value.(stopRequested := true));
      }
      Emit(StartedReply(t, ownership));
    }

    method GoFlushed(flush: FlushSite)
      requires Valid() && at.Going?
      modifies this`at
      ensures Valid() && at == Flushed(old(at).v, old(at).seen, flush)
    {
      hide Legal, Outstanding, Owned, UsedTurns, ToldBy, GuardsHold, TurnIdsOld, OwnerOf;
      at := Flushed(at.v, at.seen, flush);
    }

    /** The extension's own end work finished, or threw. */
    method ResumeBeforeEnd(ok: bool)
      requires Valid() && at.BeforeEnd?
      modifies this`log, this`synchronizing, this`at
      ensures Valid()
      ensures at == if ok
          then Ending(old(at).v, old(at).seen, old(at).flush, old(at).turnId, old(at).message, old(at).end)
                    else Resting
      ensures log == old(log) + Asked(at)
    {
      if !ok {
        Finish();
        return;
      }
      var flush, message := at.flush, at.message;
      at := Going(at.v, at.seen);
      ReportEnd(flush, message);
    }

    /** The end of the turn of a follow-up or a terminal notice closes the message for good. */
    static function Closes(message: Message): Option<MessageId> {
      if message.kind.FollowUp? || message.kind.Terminal? then Some(message.id) else None
    }

    /** The server accepted the end, or the request threw. */
    method ResumeEnding(ok: bool)
      requires Valid() && at.Ending?
      modifies this`turn, this`log, this`synchronizing, this`at, this`closedTurnMessages, this`views
      ensures Valid()
      ensures ok ==> turn.None? && at == Flushed(old(at).v, old(at).seen, old(at).flush)
      ensures ok ==> log == old(log) + [EndedReply(old(at).turnId, Closes(old(at).message))]
      ensures ok ==> |views| == |old(views)| && forall i :: 0 <= i < |views| ==>
        views[i] == if i == old(at).v || view == Some(i) then Closing(old(views[i]), old(at).turnId) else old(views[i])
      ensures ok ==> closedTurnMessages == old(closedTurnMessages)
                                           + if Closes(old(at).message).Some? then {Closes(old(at).message).value}
                                             else {}
      ensures !ok ==> turn == old(turn) && log == old(log) && views == old(views) && at.Resting?
      ensures !ok ==> closedTurnMessages == old(closedTurnMessages)
    {
      hide Legal, Outstanding, Owned, UsedTurns, ToldBy, GuardsHold, AtHolds, TurnIdsOld, ContentVerified, ToldHolds,
          OwnerOf;
      if !ok {
        Finish();
        return;
      }
      var t, message := at.turnId, at.message;
      CloseOpenTurn(at.v, t);
      if view.Some? { CloseOpenTurn(view.value, t); }
      EndingHasTurn();
      LeaveEnding();
      Disown(message, t);
    }

    lemma EndingHasTurn()
      requires Valid() && at.Ending?
      ensures turn.Some? && turn.value.turnId == at.turnId && turn.value.phase.Settled?
    {
    }

    method LeaveEnding()
      requires Valid() && at.Ending?
      modifies this`at
      ensures Valid() && at == Flushed(old(at).v, old(at).seen, old(at).flush)
    {
      hide Legal, Outstanding, Owned, UsedTurns, ToldBy, GuardsHold, TurnIdsOld, OwnerOf;
      at := Flushed(at.v, at.seen, at.flush);
    }

    predicate ShowsTurn(v: View, t: TurnId) { v.openTurn.Some? && v.openTurn.value.turnId == t }

    /** The ended turn leaves the coordinator's hands. */
    method Disown(message: Message, t: TurnId)
      requires Valid() && at.Flushed? && turn.Some? && turn.value.turnId == t && turn.value.phase.Settled?
      requires !ShowsTurn(views[at.v], t) && (view.Some? ==> !ShowsTurn(views[view.value], t))
      modifies this`turn, this`log, this`closedTurnMessages
      ensures Valid() && turn.None? && log == old(log) + [EndedReply(t, Closes(message))]
      ensures closedTurnMessages == old(closedTurnMessages) + if Closes(message).Some? then {Closes(message).value}
          else {}
    {
      hide Legal, Outstanding, Owned, UsedTurns, ToldBy, GuardsHold, TurnIdsOld;
      EndKeepsTold(ToldBy(log), queued, closedTurnMessages, at, view, views, t, Closes(message));
      hide ToldHolds, ToldNext;
      if message.kind.FollowUp? || message.kind.Terminal? {
        closedTurnMessages := closedTurnMessages + {message.id};
      }
      turn := None;
      Emit(EndedReply(t, Closes(message)));
    }

    /** A snapshot object stops showing the ended turn as open. */
    method CloseOpenTurn(v: nat, t: TurnId)
      requires Valid() && v < |views|
      modifies this`views
      ensures Valid() && views == old(views)[v := Closing(old(views[v]), t)]
    {
      hide Legal, Outstanding, Owned, UsedTurns, ToldBy, GuardsHold;
      if views[v].openTurn.Some? && views[v].openTurn.value.turnId == t {
        views := views[v := views[v].(openTurn := None)];
      }
    }

    /** The server took the branch report, or refused it. */
    method ResumeReporting(accepted: bool)
      requires Valid() && at.Reporting?
      modifies this`turn, this`log, this`synchronizing, this`at, this`views, this`queued, this`lastBranchEpoch
      ensures Valid()
      ensures !accepted ==>
          at.Resting? && log == old(log) && turn == old(turn) && queued == old(queued)
          && views == old(views)
      ensures accepted ==> log == old(log) + [Replied(old(at))] + Asked(at) && |views| == |old(views)|
      ensures accepted && old(at).report.OwnedDelivery? ==>
        && turn == EntryKnown(old(turn), old(at).reported, old(at).entry)
        && at == OwnedAt(old(at).v, old(at).seen) && views == old(views) && queued == old(queued)
      ensures accepted && !old(at).report.OwnedDelivery? ==>
        && turn == old(turn) && lastBranchEpoch == views[old(at).v].epoch
        && views[old(at).v] == ShownSent(old(views[at.v]), old(at).reported, old(at).entry)
        && queued == old(queued)
            - (if old(at).reported.Some? && old(at).entry.Some? then {old(at).reported.value.id} else {})
        && at == match old(at).report
                 case Current => FlushAt(old(at).v, old(at).seen, AfterReport)
                 case AfterSend => FlushAt(old(at).v, old(at).seen, AfterSendFlush)
                 case _ => Resting
    {
      hide Legal, Outstanding, Owned, UsedTurns, ToldBy, GuardsHold, AtHolds, TurnIdsOld;
      if !accepted {
        Finish();
        return;
      }
      var report := at.report;
      if report.OwnedDelivery? {
        NoteEntry();
        AfterOwned();
        return;
      }
      Confirm();
      if report.AlreadyPresent? {
        Finish();
      } else {
        BeginFlush(if report.Current? then AfterReport else AfterSendFlush);
      }
    }

    /** The reply to a branch report that was not refused. */
    static function Replied(at: At): Event
      requires at.Reporting?
    {
      BranchReply(if at.reported.Some? then Some(at.reported.value.id) else None, at.entry, at.report.OwnedDelivery?)
    }

    /** The turn's flag that the server holds the entry of its message. */
    static function EntryKnown(turn: Option<OwnedTurn>, reported: Option<Message>,
        entry: Option<string>): Option<OwnedTurn> {
      if entry.Some? && reported.Some? && turn.Some? && turn.value.message.id == reported.value.id
      then Some(turn.value.(entryReported := true)) else turn
    }

    method NoteEntry()
      requires Valid() && at.Reporting? && at.report.OwnedDelivery?
      modifies this`turn, this`at, this`log
      ensures Valid() && at == Going(old(at).v, old(at).seen) && log == old(log) + [Replied(old(at))]
      ensures turn == EntryKnown(old(turn), old(at).reported, old(at).entry)
    {
      hide Legal, Outstanding, Owned, UsedTurns, ToldBy, GuardsHold;
      if at.entry.Some? && at.reported.Some? && turn.Some? && turn.value.message.id == at.reported.value.id {
        turn := Some(turn.value.(entryReported := true));
      }
      var reply := Replied(at);
      at := Going(at.v, at.seen);
      Emit(reply);
    }

    /** The snapshot shows the reported message as sent once its entry is known. */
    static function ShownSent(v: View, reported: Option<Message>, entry: Option<string>): View {
      if reported.Some? && entry.Some? && v.message.Some? && v.message.value.id == reported.value.id
      then v.(message := Some(v.message.value.(status := Sent))) else v
    }

    /** The current message's report was accepted: note what it proved, and its epoch. */
    method Confirm()
      requires Valid() && at.Reporting? && !at.report.OwnedDelivery?
      modifies this`at, this`views, this`queued, this`lastBranchEpoch, this`log
      ensures Valid() && at == Going(old(at).v, old(at).seen) && log == old(log) + [Replied(old(at))]
      ensures views == old(views)[at.v := ShownSent(old(views[at.v]), old(at).reported, old(at).entry)]
      ensures lastBranchEpoch == views[at.v].epoch
      ensures queued == old(queued)
          - (if old(at).reported.Some? && old(at).entry.Some? then {old(at).reported.value.id} else {})
    {
      hide Legal, Outstanding, Owned, UsedTurns, ToldBy, GuardsHold, AtHolds, ToldHolds, ToldNext;
      var v := at.v;
      if at.reported.Some? && at.entry.Some? {
        ShowSent(at.reported.value.id);
      }
      lastBranchEpoch := views[v].epoch;
      TakeReply();
    }

    /** The reported message is in the branch: the snapshot object says so now. */
    method ShowSent(id: MessageId)
      requires Valid() && at.Reporting? && at.reported.Some? && at.entry.Some? && at.reported.value.id == id
      modifies this`views
      ensures Valid() && views == old(views)[at.v := ShownSent(old(views[at.v]), at.reported, at.entry)]
    {
      hide Legal, Outstanding, Owned, UsedTurns, ToldBy;
      if views[at.v].message.Some? && views[at.v].message.value.id == id {
        views := views[at.v := views[at.v].(message := Some(views[at.v].message.value.(status := Sent)))];
      }
    }

    /** It is no longer queued, either. */
    method TakeReply()
      requires Valid() && at.Reporting? && !at.report.OwnedDelivery?
      modifies this`at, this`queued, this`log
      ensures Valid() && at == Going(old(at).v, old(at).seen) && log == old(log) + [Replied(old(at))]
      ensures queued == old(queued)
          - (if old(at).reported.Some? && old(at).entry.Some? then {old(at).reported.value.id} else {})
    {
      hide Legal, Outstanding, Owned, UsedTurns, ToldBy;
      if at.reported.Some? && at.entry.Some? { queued := queued - {at.reported.value.id}; }
      var reply := Replied(at);
      at := Going(at.v, at.seen);
      Emit(reply);
    }

    /** `flushTurn` returned. */
    method ResumeFlushed()
      requires Valid() && at.Flushed?
      modifies this`turn, this`log, this`synchronizing, this`at
      ensures Valid()
      ensures old(at).flush.SettledFirst? ==>
          at == CurrentAt(old(at).v, old(at).seen) && log == old(log) + Asked(at)
          && turn == old(turn)
      ensures !old(at).flush.SettledFirst? ==>
        && log == old(log) + (if old(MustAbort()) then [AbortCalled(old(turn).value.turnId)] else [])
        && turn == (if old(MustAbort()) then Some(old(turn).value.(abortSent := true)) else old(turn))
        && at == if old(at).flush.AfterReport? then Finishing(old(at).v, old(at).seen) else Resting
    {
      hide Legal, Outstanding, Owned, UsedTurns, ToldBy, GuardsHold, AtHolds, TurnIdsOld, ContentVerified, ToldHolds,
          OwnerOf;
      var flush := at.flush;
      Go();
      if flush.SettledFirst? {
        ReportCurrent();
        return;
      }
      AbortCancelledTurn();
      if flush.AfterReport? {
        GoFinishing();
      } else {
        Finish();
      }
    }

    method GoFinishing()
      requires Valid() && at.Going?
      modifies this`at
      ensures Valid() && at == Finishing(old(at).v, old(at).seen)
    {
      hide Legal, Outstanding, Owned, UsedTurns, ToldBy, GuardsHold, TurnIdsOld, OwnerOf;
      at := Finishing(at.v, at.seen);
    }

    /** A terminal notice that Pi holds and that has not been finalized. */
    predicate MustAnnounce(current: Option<Message>, seen: set<MessageId>)
      reads this`finalizedTerminals
    {
      && current.Some? && current.value.kind.Terminal? && !current.value.triggerTurn && current.value.status == Sent
      && current.value.id in seen && current.value.id !in finalizedTerminals
    }

    method ResumeFinishing()
      requires Valid() && at.Finishing?
      modifies this`turn, this`log, this`synchronizing, this`at, this`queued, this`nextTurn
      ensures Valid()
      ensures at == if old(turn).Some? || !idle || hasPending then Resting
                    else if MustAnnounce(views[old(at).v].message, old(at).seen)
                         then Announcing(old(at).v, old(at).seen, views[old(at).v].message.value.id)
                    else old(DeliverAt(at.v, at.seen))
      ensures at.Announcing? ==> log == old(log) + [TerminalDelivered(at.id)] && turn == old(turn)
      ensures old(turn).Some? || !idle || hasPending ==> turn == old(turn) && log == old(log) && queued == old(queued)
      ensures old(turn).None? && idle && !hasPending && !at.Announcing? ==>
          Delivered(old(log), old(nextTurn), old(queued))
    {
      hide Legal, Outstanding, Owned, UsedTurns, ToldBy, GuardsHold, AtHolds, TurnIdsOld, ContentVerified, ToldHolds,
          OwnerOf;
      if turn.Some? || !idle || hasPending {
        Finish();
        return;
      }
      var current := views[at.v].message;
      if MustAnnounce(current, at.seen) {
        Announce(current.value.id);
      } else {
        Go();
        DeliverCurrent();
      }
    }

    method Announce(id: MessageId)
      requires Valid() && at.Finishing? && turn.None?
      modifies this`log, this`at
      ensures Valid() && log == old(log) + [TerminalDelivered(id)] && at == Announcing(old(at).v, old(at).seen, id)
    {
      hide Legal, Outstanding, Owned, UsedTurns, ToldBy, GuardsHold;
      Emit(TerminalDelivered(id));
      at := Announcing(at.v, at.seen, id);
    }

    method ResumeAnnouncing(ok: bool)
      requires Valid() && at.Announcing?
      modifies this`turn, this`log, this`synchronizing, this`at, this`queued, this`nextTurn, this`finalizedTerminals
      ensures Valid()
      ensures finalizedTerminals == old(finalizedTerminals) + if ok then {old(at).id} else {}
      ensures at == if ok then old(DeliverAt(at.v, at.seen)) else Resting
      ensures if ok then Delivered(old(log), old(nextTurn), old(queued))
              else log == old(log) && turn == old(turn) && queued == old(queued)
    {
      AnnouncedWithoutTurn();
      hide Legal, Outstanding, Owned, UsedTurns, ToldBy, GuardsHold, AtHolds, TurnIdsOld, ContentVerified, ToldHolds,
          OwnerOf;
      if !ok {
        Finish();
        return;
      }
      hide DeliverAt, Delivered, CapturedHolds;
      NoteFinalized();
      DeliverCurrent();
    }

    /** The extension has taken the terminal notice. */
    method NoteFinalized()
      requires Valid() && at.Announcing?
      modifies this`finalizedTerminals, this`at
      ensures Valid() && at == Going(old(at).v, old(at).seen)
      ensures finalizedTerminals == old(finalizedTerminals) + {old(at).id}
    {
      hide Legal, Outstanding, Owned, UsedTurns, ToldBy, GuardsHold, TurnIdsOld, ContentVerified, OwnerOf;
      finalizedTerminals := finalizedTerminals + {at.id};
      at := Going(at.v, at.seen);
    }

    lemma AnnouncedWithoutTurn()
      requires Valid() && at.Announcing?
      ensures turn.None?
    {
    }

    function ContentFor(message: Message): Option<string>
      reads this`content
    {
      if content.Some? && content.value.id == message.id && content.value.digest == message.digest
      then Some(content.value.content) else None
    }

    /**
     * The message at hand was queued and given to Pi with its verified content, and owned first when it starts a turn.
     */
    predicate Handed(logWas: Log, minted: TurnId, queuedWas: set<MessageId>)
      reads this`at, this`content, this`queued, this`log, this`idle, this`hasPending, this`branch, this`turn
      requires at.Sending?
    {
      var message := at.message;
      && content.Some? && queued == queuedWas + {message.id}
      && log == logWas + [Enqueued(message.id)] + MintLog(message, minted)
          + [SendCalled(message, content.value.content, idle, hasPending, message.id in branch)]
      && turn == Minted(message, minted)
    }

    /** The message was given to Pi; or it was queued and its entry reported; or nothing was done. */
    predicate Delivered(logWas: Log, minted: TurnId, queuedWas: set<MessageId>)
      reads this`at, this`content, this`queued, this`log, this`idle, this`hasPending, this`branch, this`turn
    {
      if at.Sending? then Handed(logWas, minted, queuedWas)
      else if at.Reporting? then
        && at.reported.Some? && queued == queuedWas + {at.reported.value.id} && turn.None?
        && log == logWas + [Enqueued(at.reported.value.id)] + Asked(at)
      else log == logWas && queued == queuedWas && turn.None?
    }

    /** The final checks and the call to Pi, with no await between them. */
    method DeliverCurrent()
      requires Valid() && at.Going? && turn.None?
      modifies this`turn, this`log, this`synchronizing, this`at, this`queued, this`nextTurn
      ensures Valid() && at == old(DeliverAt(at.v, at.seen))
      ensures Delivered(old(log), old(nextTurn), old(queued))
    {
      hide Legal, Outstanding, Owned, UsedTurns, ToldBy, GuardsHold, TurnIdsOld, ContentVerified, ToldHolds, OwnerOf;
      var v := at.v;
      var current := views[v].message;
      if current.None? || current.value.id in queued || current.value.status != Pending || !idle || hasPending {
        Finish();
        return;
      }
      var message := current.value;
      if ContentFor(message).None? {
        Finish();
        return;
      }
      if message.id in branch {
        Enqueue(message.id);
        BeginReport(AlreadyPresent, current);
      } else if view != Some(v) {
        // Queued and taken out again: the snapshot in hand is no longer the current one.
        Finish();
      } else {
        Send(message, ContentFor(message).value);
      }
    }

    method Enqueue(id: MessageId)
      requires Valid() && at.Going?
      modifies this`queued, this`log
      ensures Valid() && queued == old(queued) + {id} && log == old(log) + [Enqueued(id)]
      ensures Outstanding(log) == old(Outstanding(log))
    {
      hide Legal, Outstanding, Owned, UsedTurns, ToldBy;
      queued := queued + {id};
      Emit(Enqueued(id));
    }

    method Send(message: Message, body: string)
      requires Valid() && at.Going? && turn.None?
      requires view == Some(at.v) && CurrentMessage() == Some(message)
      requires message.status == Pending && message.id !in queued && message.id !in branch && idle && !hasPending
      requires content.Some? && body == content.value.content && message.digest == content.value.digest
      modifies this`turn, this`log, this`at, this`queued, this`nextTurn
      ensures Valid() && at == Sending(old(at).v, old(at).seen, message)
      ensures Handed(old(log), old(nextTurn), old(queued))
    {
      SafeToSend(message);
      hide Legal, Outstanding, Owned, UsedTurns, ToldBy, GuardsHold, AtHolds, CapturedHolds, TurnIdsOld,
        ContentVerified, ToldHolds, OwnerOf;
      Enqueue(message.id);
      SendQueued(message, body);
    }

    method SendQueued(message: Message, body: string)
      requires Valid() && at.Going? && turn.None? && view == Some(at.v) && CurrentMessage() == Some(message)
      requires message.status == Pending && message.id in queued && message.id !in branch && idle && !hasPending
      requires message.id !in Outstanding(log) && message.digest == Digest(body)
      modifies this`turn, this`log, this`at, this`nextTurn
      ensures Valid() && at == Sending(old(at).v, old(at).seen, message) && turn == Minted(message, old(nextTurn))
      ensures log == old(log) + MintLog(message, old(nextTurn))
          + [SendCalled(message, body, idle, hasPending, message.id in branch)]
    {
      hide Legal, Outstanding, Owned, UsedTurns, ToldBy, GuardsHold, AtHolds, CapturedHolds, TurnIdsOld,
        ContentVerified, ToldHolds, OwnerOf;
      OwnIfTurn(message);
      HandOver(message, body);
    }

    lemma SafeToSend(message: Message)
      requires Valid() && CurrentMessage() == Some(message) && message.status == Pending
      requires message.id !in queued && message.id !in branch
      ensures message.id !in Outstanding(log)
      ensures content.Some? ==> content.value.digest == Digest(content.value.content)
    {
      hide Legal, Outstanding, Owned, UsedTurns, ToldBy, AtHolds, CapturedHolds, TurnIdsOld, ToldHolds, OwnerOf;
    }

    /** The call to Pi's `sendMessage`. */
    method HandOver(message: Message, body: string)
      requires Valid() && at.Going? && view == Some(at.v) && CurrentMessage() == Some(message)
      requires message.status == Pending && message.id in queued && message.id !in branch && idle && !hasPending
      requires message.id !in Outstanding(log) && message.digest == Digest(body)
      modifies this`log, this`at
      ensures Valid() && at == Sending(old(at).v, old(at).seen, message)
      ensures log == old(log) + [SendCalled(message, body, idle, hasPending, message.id in branch)]
    {
      hide Legal, Outstanding, Owned, UsedTurns, ToldBy, GuardsHold, TurnIdsOld, OwnerOf;
      Emit(SendCalled(message, body, idle, hasPending, message.id in branch));
      at := Sending(at.v, at.seen, message);
    }

    static function Minted(message: Message, t: TurnId): Option<OwnedTurn> {
      if message.triggerTurn then Some(OwnedTurn(t, message, false, false, false, false, Delivering)) else None
    }

    static function MintLog(message: Message, t: TurnId): Log {
      if message.triggerTurn then [Deliver(t, message.id)] else []
    }

    method OwnIfTurn(message: Message)
      requires Valid() && at.Going? && turn.None?
      modifies this`turn, this`log, this`nextTurn
      ensures Valid() && Outstanding(log) == old(Outstanding(log))
      ensures turn == Minted(message, old(nextTurn)) && log == old(log) + MintLog(message, old(nextTurn))
    {
      hide Legal, Outstanding, Owned, UsedTurns, ToldBy, GuardsHold, AtHolds, TurnIdsOld, ToldHolds, OwnerOf;
      if message.triggerTurn { Own(message); }
    }

    /** Mint a turn for a message about to be delivered. */
    method Own(message: Message)
      requires Valid() && at.Going? && turn.None?
      modifies this`turn, this`log, this`nextTurn
      ensures Valid() && Outstanding(log) == old(Outstanding(log))
      ensures turn == Some(OwnedTurn(old(nextTurn), message, false, false, false, false, Delivering))
      ensures log == old(log) + [Deliver(old(nextTurn), message.id)]
    {
      hide Legal, Outstanding, Owned, UsedTurns, ToldBy, GuardsHold;
      turn := Some(OwnedTurn(nextTurn, message, false, false, false, false, Delivering));
      nextTurn := nextTurn + 1;
      Emit(Deliver(turn.value.turnId, message.id));
    }

    /** The turn minted for a send of this message, still waiting for it. */
    static predicate Drops(turn: Option<OwnedTurn>, id: MessageId) {
      turn.Some? && turn.value.phase.Delivering? && turn.value.message.id == id
    }

    static function DropLog(turn: Option<OwnedTurn>, id: MessageId): Log {
      if Drops(turn, id) then [Dropped(turn.value.turnId)] else []
    }

    /** Pi's `sendMessage` returned, or threw. Lifecycle events may have fired inside it. */
    method ResumeSending(ok: bool)
      requires Valid() && at.Sending?
      modifies this`turn, this`log, this`synchronizing, this`at, this`queued
      ensures Valid()
      ensures ok ==> turn == old(turn) && queued == old(queued) && log == old(log) + [SendDone(old(at).message.id)]
      ensures ok ==> at == SendReturned(old(at).v, old(at).seen)
      ensures !ok ==> queued == old(queued) - {old(at).message.id} && at.Resting?
      ensures !ok ==> log == old(log) + [SendFailed(old(at).message.id)] + DropLog(old(turn), old(at).message.id)
      ensures !ok ==> turn == if Drops(old(turn), old(at).message.id) then None else old(turn)
    {
      if ok {
        SendAccepted();
      } else {
        SendThrew();
      }
    }

    method SendAccepted()
      requires Valid() && at.Sending?
      modifies this`log, this`at
      ensures Valid() && log == old(log) + [SendDone(old(at).message.id)] && at == SendReturned(old(at).v, old(at).seen)
    {
      hide Legal, Outstanding, Owned, UsedTurns, ToldBy;
      Emit(SendDone(at.message.id));
      at := SendReturned(at.v, at.seen);
    }

    method SendThrew()
      requires Valid() && at.Sending?
      modifies this`turn, this`log, this`synchronizing, this`at, this`queued
      ensures Valid() && at.Resting? && queued == old(queued) - {old(at).message.id}
      ensures log == old(log) + [SendFailed(old(at).message.id)] + DropLog(old(turn), old(at).message.id)
      ensures turn == if Drops(old(turn), old(at).message.id) then None else old(turn)
    {
      var id := at.message.id;
      TakeBack(id);
      hide Legal, Outstanding, Owned, UsedTurns, ToldBy, GuardsHold, AtHolds, TurnIdsOld, ContentVerified, ToldHolds,
          OwnerOf;
      if turn.Some? && turn.value.phase.Delivering? && turn.value.message.id == id {
        Forget();
      }
      Finish();
    }

    /** The message that was not taken is not queued any more. */
    method TakeBack(id: MessageId)
      requires Valid() && at.Sending? && at.message.id == id
      modifies this`log, this`at, this`queued
      ensures Valid() && at == Going(old(at).v, old(at).seen) && queued == old(queued) - {id}
      ensures log == old(log) + [SendFailed(id)]
    {
      hide Legal, Outstanding, Owned, UsedTurns, ToldBy, TurnIdsOld, OwnerOf;
      at := Going(at.v, at.seen);
      queued := queued - {id};
      Emit(SendFailed(id));
    }

    /** Its turn never began. */
    method Forget()
      requires Valid() && at.Going? && turn.Some? && turn.value.phase.Delivering?
      modifies this`turn, this`log
      ensures Valid() && turn.None? && log == old(log) + [Dropped(old(turn).value.turnId)]
    {
      hide Legal, Outstanding, Owned, UsedTurns, ToldBy, GuardsHold, TurnIdsOld;
      var t := turn.value.turnId;
      turn := None;
      Emit(Dropped(t));
    }

    method ResumeSendReturned()
      requires Valid() && at.SendReturned?
      modifies this`log, this`at
      ensures Valid() && at == ReportAt(old(at).v, old(at).seen, AfterSend, views[old(at).v].message)
          && log == old(log) + Asked(at)
    {
      at := Going(at.v, at.seen);
      BeginReport(AfterSend, views[at.v].message);
    }
  }
}
