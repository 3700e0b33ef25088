/** Whole runs of the coordinator: any interleaving is safe, and the ordinary one makes progress. */
module CoordinatorRuns {
  import opened CoordinatorProtocol
  import opened MessageCoordinator

  /** What the server, Pi and the extension may do next. A resume carries the reply the call was waiting for. */
  datatype Action =
    | GiveSnapshot(view: View)
    | ChangeBranch
    | LoseSubscription
    | PiStartsTurn
    | PiEndsTurn(end: TurnEnd)
    | AbortCancelled
    | CallSynchronize
    | Resume(ok: bool, hydrated: string, ownership: Ownership)
    | PiAddsEntry(id: MessageId, entry: string)
    | PiRewinds(ids: set<MessageId>)
    | PiSettles(idle: bool, hasPending: bool, latestInput: Option<MessageId>)

  // ---- What each action adds to the log ------------------------------------------------------

  /** Events the coordinator only takes in. */
  predicate Outside(e: Event) { e.Snapshot? || e.EntryAdded? || e.BranchRewound? || e.TurnStarted? || e.TurnSettled? }

  /** The log went on with the coordinator's own calls and their replies. */
  ghost predicate Continues(was: Log, now: Log) {
    was <= now && forall i :: |was| <= i < |now| ==> !Outside(now[i])
  }

  /** What an action adds: the outside event it stands for, where the coordinator takes that in, and no other. */
  ghost predicate Adds(action: Action, was: Log, now: Log) {
    match action
    case GiveSnapshot(v) => now == was + if ToldBy(was).sending then [] else [Snapshot(v)]
    case ChangeBranch => now == was
    case LoseSubscription => now == was
    case PiSettles(_, _, _) => now == was
    case PiAddsEntry(id, _) => now == was + [EntryAdded(id)]
    case PiRewinds(_) => now == was + [BranchRewound]
    case PiStartsTurn =>
      var o := Owned(was);
      now == was + if o.Some? && o.value.phase.Delivering? then [TurnStarted(o.value.turnId)] else []
    case PiEndsTurn(end) =>
      var o := Owned(was);
      now == was + if o.Some? && o.value.phase.Running? then [TurnSettled(o.value.turnId, end)] else []
    case AbortCancelled => Aborts(was, now)
    case CallSynchronize => Aborts(was, now)
    case Resume(_, _, _) => Continues(was, now)
  }

  /** Nothing happened, or the owned turn was aborted. */
  ghost predicate Aborts(was: Log, now: Log) {
    now == was || (Owned(was).Some? && now == was + [AbortCalled(Owned(was).value.turnId)])
  }

  lemma AskedContinues(was: Log, at: At)
    ensures Continues(was, was + Coordinator.Asked(at))
  {
    assert forall e :: e in Coordinator.Asked(at) ==> !Outside(e);
  }

  lemma AsksContinue(was: Log, replies: Log, at: At)
    requires forall e :: e in replies ==> !Outside(e)
    ensures Continues(was, was + replies + Coordinator.Asked(at)) && Continues(was, was + replies)
  {
    assert forall e :: e in Coordinator.Asked(at) ==> !Outside(e);
  }

  method ResumeContent(c: Coordinator, ok: bool, hydrated: string)
    requires c.Valid() && (c.at.Hydrating? || c.at.Preparing?)
    modifies c
    ensures c.Valid() && Continues(old(c.log), c.log)
  {
    hide Legal, Outstanding, Owned, UsedTurns, ToldBy, GuardsHold, AtHolds, CapturedHolds, TurnIdsOld, ContentVerified,
      ToldHolds, OwnerOf;
    if c.at.Hydrating? { c.ResumeHydrating(if ok then Some(hydrated) else None); } else { c.ResumePreparing(); }
  }

  method ResumeRequest(c: Coordinator, ok: bool, ownership: Ownership)
    requires c.Valid() && (c.at.Adopting? || c.at.Reporting? || c.at.Starting? || c.at.BeforeEnd? || c.at.Ending?)
    modifies c
    ensures c.Valid() && Continues(old(c.log), c.log)
  {
    hide Legal, Outstanding, Owned, UsedTurns, ToldBy, GuardsHold, AtHolds, CapturedHolds, TurnIdsOld, ContentVerified,
      ToldHolds, OwnerOf, Coordinator.Asked;
    ghost var was, at := c.log, c.at;
    if c.at.Adopting? {
      c.ResumeAdopting();
      AskedContinues(was, c.at);
    } else if c.at.Reporting? {
      c.ResumeReporting(ok);
      AsksContinue(was, [Coordinator.Replied(at)], c.at);
    } else if c.at.Starting? {
      c.ResumeStarting(if ok then Some(ownership) else None);
      AsksContinue(was, [StartedReply(at.turnId, ownership)], c.at);
    } else if c.at.BeforeEnd? {
      c.ResumeBeforeEnd(ok);
      AskedContinues(was, c.at);
    } else {
      c.ResumeEnding(ok);
    }
  }

  method ResumeDecision(c: Coordinator, ok: bool)
    requires c.Valid() && (c.at.Finishing? || c.at.Announcing?)
    modifies c
    ensures c.Valid() && Continues(old(c.log), c.log)
  {
    hide Legal, Outstanding, Owned, UsedTurns, ToldBy, GuardsHold, AtHolds, CapturedHolds, TurnIdsOld, ContentVerified,
      ToldHolds, OwnerOf, Coordinator.Asked, Coordinator.DeliverAt;
    ghost var was := c.log;
    if c.at.Finishing? { c.ResumeFinishing(); } else { c.ResumeAnnouncing(ok); }
    if c.at.Reporting? && c.at.reported.Some? { AsksContinue(was, [Enqueued(c.at.reported.value.id)], c.at); }
  }

  method ResumeDelivery(c: Coordinator, ok: bool)
    requires c.Valid() && (c.at.Flushed? || c.at.Finishing? || c.at.Announcing? || c.at.Sending? || c.at.SendReturned?)
    modifies c
    ensures c.Valid() && Continues(old(c.log), c.log)
  {
    hide Legal, Outstanding, Owned, UsedTurns, ToldBy, GuardsHold, AtHolds, CapturedHolds, TurnIdsOld, ContentVerified,
      ToldHolds, OwnerOf, Coordinator.Asked, Coordinator.DeliverAt;
    ghost var was := c.log;
    if c.at.Flushed? {
      c.ResumeFlushed();
      AskedContinues(was, c.at);
    } else if c.at.Finishing? || c.at.Announcing? {
      ResumeDecision(c, ok);
    } else if c.at.Sending? {
      c.ResumeSending(ok);
    } else {
      c.ResumeSendReturned();
      AskedContinues(was, c.at);
    }
  }

  method ResumeCall(c: Coordinator, ok: bool, hydrated: string, ownership: Ownership)
    requires c.Valid()
    modifies c
    ensures c.Valid() && Continues(old(c.log), c.log)
  {
    hide Coordinator.Valid;
    if c.at.Hydrating? || c.at.Preparing? {
      ResumeContent(c, ok, hydrated);
    } else if c.at.Adopting? || c.at.Reporting? || c.at.Starting? || c.at.BeforeEnd? || c.at.Ending? {
      ResumeRequest(c, ok, ownership);
    } else if !c.at.Resting? && !c.at.Going? {
      ResumeDelivery(c, ok);
    }
  }

  /** Pi's `sendMessage` is synchronous: no snapshot can arrive inside it. */
  method Perform(c: Coordinator, action: Action)
    requires c.Valid()
    modifies c
    ensures c.Valid() && Adds(action, old(c.log), c.log)
  {
    hide Legal, Outstanding, Owned, UsedTurns, ToldBy, GuardsHold, AtHolds, CapturedHolds, TurnIdsOld,
        ContentVerified, Continues;
    match action
    case GiveSnapshot(v) => if !c.at.Sending? { c.UpdateView(v); }
    case ChangeBranch => c.BranchChanged();
    case LoseSubscription => c.Fence();
    case PiStartsTurn => c.StartTurn();
    case PiEndsTurn(end) => c.EndTurn(end);
    case AbortCancelled => c.AbortCancelledTurn();
    case CallSynchronize => c.Synchronize();
    case Resume(ok, hydrated, ownership) => ResumeCall(c, ok, hydrated, ownership);
    case PiAddsEntry(id, entry) => c.AddEntry(id, entry);
    case PiRewinds(ids) => c.Rewind(ids);
    case PiSettles(idle, hasPending, latestInput) => c.SetPi(idle, hasPending, latestInput);
  }

  /**
   * Whatever the server, Pi and the scheduler do, every call the coordinator makes is allowed. The log is that of the
   * schedule: `marks` says where each action begins, and what it adds is the action's own.
   */
  method Run(schedule: seq<Action>) returns (log: Log, marks: seq<nat>)
    ensures Legal(log)
    ensures |marks| == |schedule| + 1 && marks[0] == 0 && marks[|schedule|] == |log|
    ensures forall i :: 0 <= i < |schedule| ==> Follows(schedule, log, marks, i)
  {
    hide Coordinator.Valid, Adds, Legal, Follows;
    var c := new Coordinator();
    marks := [0];
    log := [];
    for i := 0 to |schedule|
      invariant fresh(c) && c.Valid() && log == c.log
      invariant |marks| == i + 1 && marks[0] == 0 && marks[i] == |log|
      invariant forall k :: 0 <= k < i ==> Follows(schedule, log, marks, k)
    {
      Perform(c, schedule[i]);
      FollowsNext(schedule, log, marks, i, c.log);
      log := c.log;
      marks := marks + [|log|];
    }
    ValidIsLegal(c);
  }

  /** Action `i` of the schedule added what lies between its mark and the next. */
  ghost predicate Follows(schedule: seq<Action>, log: Log, marks: seq<nat>, i: nat)
    requires i < |schedule| && i + 1 < |marks|
  {
    marks[i] <= marks[i + 1] <= |log| && Adds(schedule[i], log[..marks[i]], log[..marks[i + 1]])
  }

  lemma FollowsNext(schedule: seq<Action>, log: Log, marks: seq<nat>, i: nat, now: Log)
    requires i < |schedule| && |marks| == i + 1 && marks[i] == |log| && Adds(schedule[i], log, now)
    requires forall k :: 0 <= k < i ==> Follows(schedule, log, marks, k)
    ensures log <= now && forall k :: 0 <= k <= i ==> Follows(schedule, now, marks + [|now|], k)
  {
    AddsGrows(schedule[i], log, now);
    hide Adds;
    var marks' := marks + [|now|];
    forall k | 0 <= k <= i ensures Follows(schedule, now, marks', k) {
      if k < i {
        assert Follows(schedule, log, marks, k);
        assert now[..marks[k]] == log[..marks[k]] && now[..marks[k + 1]] == log[..marks[k + 1]];
      } else {
        assert now[..|log|] == log && now[..|now|] == now;
      }
    }
  }

  lemma AddsGrows(action: Action, was: Log, now: Log)
    requires Adds(action, was, now)
    ensures was <= now
  {
    hide Owned, ToldBy;
  }

  lemma ValidIsLegal(c: Coordinator)
    requires c.Valid()
    ensures Legal(c.log)
  {
    hide Legal;
  }

  /** The snapshot `v` names a pending message whose content is `body`, and nothing is in the way. */
  predicate Deliverable(v: View, body: string) {
    && v.active && v.epoch.Some? && v.message.Some? && v.openTurn.None?
    && v.message.value.status == Pending && v.message.value.digest == Digest(body)
  }

  /** Pi is idle and empty, nothing is owned or queued, and the verified content of the only snapshot is at hand. */
  predicate Ready(c: Coordinator, v: View, body: string)
    reads c
  {
    && Deliverable(v, body)
    && c.views == [v] && c.view == Some(0) && c.idle && !c.hasPending && c.branch == map[] && c.turn.None?
        && c.queued == {}
    && c.content == Some(Prepared(v.message.value.id, v.message.value.digest, body)) && c.nextTurn == 0
    && c.finalizedTerminals == {}
  }

  method TakeFirstSnapshot(v: View, body: string) returns (c: Coordinator)
    requires Deliverable(v, body)
    ensures fresh(c) && c.Valid() && Ready(c, v, body) && c.lastBranchEpoch == None
    ensures c.at == Adopting(0, {}) && c.log == [Snapshot(v)]
  {
    hide Legal, Outstanding, Owned, UsedTurns, ToldBy, GuardsHold, AtHolds, CapturedHolds, TurnIdsOld, ToldHolds,
      OwnerOf, ContentVerified;
    c := BeginFirst(v, body);
    c.ResumeHydrating(Some(body));
    assert c.branch.Keys == {};
    assert c.Adoptable(0).None?;
  }

  method BeginFirst(v: View, body: string) returns (c: Coordinator)
    requires Deliverable(v, body)
    ensures fresh(c) && c.Valid() && c.at == Hydrating(0, v.message.value) && c.log == [Snapshot(v)]
    ensures c.views == [v] && c.view == Some(0) && c.idle && !c.hasPending && c.branch == map[] && c.turn.None?
    ensures c.queued == {} && c.nextTurn == 0 && c.finalizedTerminals == {} && c.lastBranchEpoch == None
  {
    hide Legal, Outstanding, Owned, UsedTurns, ToldBy, GuardsHold, AtHolds, CapturedHolds, TurnIdsOld, ToldHolds,
      OwnerOf, ContentVerified;
    c := new Coordinator();
    c.UpdateView(v);
    c.Synchronize();
  }

  method ReportThenDecide(c: Coordinator, v: View, body: string)
    requires c.Valid() && Ready(c, v, body) && c.at == Adopting(0, {}) && c.lastBranchEpoch == None
    modifies c
    ensures c.Valid() && Ready(c, v, body) && c.at == Finishing(0, {})
    ensures var id := Some(v.message.value.id);
        c.log == old(c.log) + [ReportBranch(id, None), BranchReply(id, None, false)]
  {
    hide Legal, Outstanding, Owned, UsedTurns, ToldBy, GuardsHold, AtHolds, CapturedHolds, TurnIdsOld, ToldHolds;
    ReportFirst(c, v, body);
    c.ResumeFlushed();
  }

  method ReportFirst(c: Coordinator, v: View, body: string)
    requires c.Valid() && Ready(c, v, body) && c.at == Adopting(0, {}) && c.lastBranchEpoch == None
    modifies c
    ensures c.Valid() && Ready(c, v, body) && c.at == Flushed(0, {}, AfterReport)
    ensures var id := Some(v.message.value.id);
        c.log == old(c.log) + [ReportBranch(id, None), BranchReply(id, None, false)]
  {
    hide Legal, Outstanding, Owned, UsedTurns, ToldBy, GuardsHold, AtHolds, CapturedHolds, TurnIdsOld, ToldHolds,
        OwnerOf;
    c.ResumeAdopting();
    c.ResumeReporting(true);
  }

  method SendThenReport(c: Coordinator, v: View, body: string)
    requires c.Valid() && Ready(c, v, body) && c.at == Finishing(0, {})
    modifies c
    ensures c.Valid()
    ensures var m := v.message.value;
      c.log == old(c.log) + [Enqueued(m.id)] + (if m.triggerTurn then [Deliver(0, m.id)] else [])
        + [SendCalled(m, body, true, false, false), SendDone(m.id), ReportBranch(Some(m.id), None)]
  {
    hide Legal, Outstanding, Owned, UsedTurns, ToldBy, GuardsHold, AtHolds, CapturedHolds, TurnIdsOld, ToldHolds;
    c.ResumeFinishing();
    c.ResumeSending(true);
    c.ResumeSendReturned();
  }

  /** From a first snapshot naming a pending message, one undisturbed call delivers it and does nothing else. */
  method DeliversPendingMessage(v: View, body: string) returns (log: Log)
    requires Deliverable(v, body)
    ensures var m := v.message.value;
      log == [Snapshot(v), ReportBranch(Some(m.id), None), BranchReply(Some(m.id), None, false), Enqueued(m.id)]
        + (if m.triggerTurn then [Deliver(0, m.id)] else [])
        + [SendCalled(m, body, true, false, false), SendDone(m.id), ReportBranch(Some(m.id), None)]
  {
    hide Legal, Ready, Coordinator.Valid;
    var c := TakeFirstSnapshot(v, body);
    ReportThenDecide(c, v, body);
    SendThenReport(c, v, body);
    log := c.log;
  }

  // ---- A turn taken up again -----------------------------------------------------------------

  /** A second snapshot may arrive while the call that took the first waits for the content. */
  function Last(v: View, later: Option<View>): View { if later.Some? then later.value else v }

  /**
   * The snapshot shows a turn open in its session and started; the last one names the message of that turn, in its run,
   * and the message starts turns. `body` is the content that the first one asks for, if any.
   */
  predicate ShowsTurn(v: View, later: Option<View>, body: string) {
    var w := Last(v, later);
    && v.active && v.epoch.Some? && v.openTurn.Some? && w.message.Some?
    && (v.message.Some? ==> v.message.value.digest == Digest(body))
    && var m, o := w.message.value, v.openTurn.value;
       && m.triggerTurn && o.started && o.messageId == m.id && o.runId == m.runId && o.sessionId == v.sessionId
  }

  /** No call is in flight, no turn is in hand, and Pi runs the turn of the message that the last snapshot names. */
  predicate Undisturbed(c: Coordinator, w: View)
    reads c
    requires w.message.Some?
  {
    c.at.Resting? && c.turn.None? && !c.idle && c.latestInput == Some(w.message.value.id)
  }

  /** What the snapshots leave queued and closed. */
  function QueuedAfter(queued: set<MessageId>, v: View, later: Option<View>): set<MessageId> {
    if later.Some? then StillQueued(StillQueued(queued, v), later.value) else StillQueued(queued, v)
  }

  function ClosedAfter(closed: set<MessageId>, v: View, later: Option<View>): set<MessageId> {
    if later.Some? then closed * Named(v) * Named(later.value) else closed * Named(v)
  }

  /** The last snapshot shows a turn open for the message, which is not closed for good; or the message is queued. */
  predicate MayReopen(c: Coordinator, v: View, later: Option<View>)
    reads c
    requires Last(v, later).message.Some?
  {
    var id := Last(v, later).message.value.id;
    || (OpenFor(Last(v, later), id) && id !in ClosedAfter(c.closedTurnMessages, v, later))
    || id in QueuedAfter(c.queued, v, later)
  }

  /** The turn that the first snapshot shows is in hand, and the call in flight is about to look at it. */
  predicate TookUp(c: Coordinator, v: View, w: View)
    reads c
    requires w.message.Some? && v.openTurn.Some?
  {
    var m, t, cancelled := w.message.value, v.openTurn.value.turnId, Cancels(v, w.message.value.id);
    && c.at.Adopting? && c.at.v < |c.views| && c.views[c.at.v] == v && !c.idle
    && c.turn == Some(OwnedTurn(t, m, true, false, cancelled, cancelled && w.active, Running))
  }

  function TakeUpLog(v: View, later: Option<View>): Log
    requires Last(v, later).message.Some? && v.openTurn.Some?
  {
    var id, t := Last(v, later).message.value.id, v.openTurn.value.turnId;
    [Snapshot(v)] + (if later.Some? then [Snapshot(later.value)] else []) + [Adopt(t, id, Cancels(v, id))]
      + if Cancels(v, id) && Last(v, later).active then [AbortCalled(t)] else []
  }

  /** The call begins, and the snapshots are in. */
  method Begins(c: Coordinator, v: View, later: Option<View>, body: string)
    requires c.Valid() && ShowsTurn(v, later, body) && Undisturbed(c, Last(v, later))
    modifies c
    ensures c.Valid() && (c.at.Preparing? || (c.at.Hydrating? && c.at.message.digest == Digest(body)))
    ensures c.turn.None? && !c.idle && c.latestInput == Some(Last(v, later).message.value.id)
    ensures c.at.v < |c.views| && c.views[c.at.v] == v
    ensures c.view.Some? && c.view.value < |c.views| && c.views[c.view.value] == Last(v, later)
    ensures c.queued == QueuedAfter(old(c.queued), v, later)
    ensures c.closedTurnMessages == ClosedAfter(old(c.closedTurnMessages), v, later)
    ensures c.log == old(c.log) + [Snapshot(v)] + if later.Some? then [Snapshot(later.value)] else []
  {
    hide Legal, Outstanding, Owned, UsedTurns, ToldBy, GuardsHold, AtHolds, CapturedHolds, TurnIdsOld, ToldHolds,
        OwnerOf, StillQueued, Named;
    NotSynchronizing(c);
    c.UpdateView(v);
    c.Synchronize();
    if later.Some? { c.UpdateView(later.value); }
  }

  method TakeUp(c: Coordinator, v: View, later: Option<View>, body: string)
    requires c.Valid() && ShowsTurn(v, later, body) && Undisturbed(c, Last(v, later)) && MayReopen(c, v, later)
    modifies c
    ensures c.Valid() && TookUp(c, v, Last(v, later)) && c.log == old(c.log) + TakeUpLog(v, later)
    ensures c.closedTurnMessages == ClosedAfter(old(c.closedTurnMessages), v, later)
  {
    hide Legal, Outstanding, Owned, UsedTurns, ToldBy, GuardsHold, AtHolds, CapturedHolds, TurnIdsOld, ToldHolds,
        OwnerOf, ContentVerified;
    ghost var w := Last(v, later);
    Begins(c, v, later, body);
    hide QueuedAfter, ClosedAfter;
    assert c.Adoptable(c.at.v)
        == Some(OwnedTurn(v.openTurn.value.turnId, w.message.value, true, false, Cancels(v, w.message.value.id),
          false, Running));
    if c.at.Preparing? { c.ResumePreparing(); } else { c.ResumeHydrating(Some(body)); }
  }

  lemma NotSynchronizing(c: Coordinator)
    requires c.Valid() && c.at.Resting?
    ensures !c.synchronizing
  {
  }

  /** The turn has settled, and its end is up: the extension's end work first, or the report has been made. */
  predicate EndIsUp(c: Coordinator, v: View, w: View, end: TurnEnd)
    reads c
    requires w.message.Some? && v.openTurn.Some?
  {
    var t := v.openTurn.value.turnId;
    && !c.idle && (c.at.BeforeEnd? || (c.at.Ending? && c.log != [] && c.log[|c.log| - 1] == ReportEnded(t, end)))
    && c.at.turnId == t && c.at.message == w.message.value && c.at.end == end && !c.at.flush.AfterSendFlush?
  }

  /** The turn has settled, and the branch has not been reported in the snapshot's epoch. */
  predicate BranchIsDue(c: Coordinator, v: View, w: View, end: TurnEnd)
    reads c
    requires w.message.Some? && v.openTurn.Some?
  {
    var t := v.openTurn.value.turnId;
    && !c.idle && c.at.Flushed? && c.at.flush.SettledFirst? && c.at.v < |c.views| && c.views[c.at.v] == v
    && c.lastBranchEpoch != v.epoch
    && c.turn.Some? && c.turn.value.turnId == t && c.turn.value.message == w.message.value
        && c.turn.value.startedReported
    && c.turn.value.phase == Settled(end)
  }

  method Settles(c: Coordinator, v: View, w: View, end: TurnEnd)
    requires c.Valid() && w.message.Some? && v.openTurn.Some? && TookUp(c, v, w)
    modifies c
    ensures c.Valid() && (EndIsUp(c, v, w, end) || BranchIsDue(c, v, w, end))
    ensures old(c.log) < c.log && c.closedTurnMessages == old(c.closedTurnMessages)
  {
    hide Legal, Outstanding, Owned, UsedTurns, ToldBy, GuardsHold, AtHolds, CapturedHolds, TurnIdsOld, ToldHolds,
        OwnerOf;
    c.EndTurn(end);
    c.ResumeAdopting();
  }

  method ReportsBranchFirst(c: Coordinator, v: View, w: View, end: TurnEnd)
    requires c.Valid() && w.message.Some? && v.openTurn.Some? && BranchIsDue(c, v, w, end)
    modifies c
    ensures c.Valid() && EndIsUp(c, v, w, end)
    ensures old(c.log) < c.log && c.closedTurnMessages == old(c.closedTurnMessages)
  {
    hide Legal, Outstanding, Owned, UsedTurns, ToldBy, GuardsHold, AtHolds, CapturedHolds, TurnIdsOld, ToldHolds,
        OwnerOf;
    c.ResumeFlushed();
    assert c.at.Reporting? && c.at.report.Current?;
    c.ResumeReporting(true);
  }

  /** The settled turn goes on to the report of its end, after a report of the branch if that is due first. */
  method ReportEndOf(c: Coordinator, v: View, w: View, end: TurnEnd)
    requires c.Valid() && w.message.Some? && v.openTurn.Some? && TookUp(c, v, w)
    modifies c
    ensures c.Valid() && c.at.Ending? && EndIsUp(c, v, w, end)
    ensures old(c.log) < c.log && c.closedTurnMessages == old(c.closedTurnMessages)
  {
    hide Coordinator.Valid;
    Settles(c, v, w, end);
    if !EndIsUp(c, v, w, end) { ReportsBranchFirst(c, v, w, end); }
    if c.at.BeforeEnd? { c.ResumeBeforeEnd(true); }
  }

  /**
   * From any state at rest, a snapshot that shows a turn open makes the coordinator take the turn up and report its
   * end, whatever the log holds before: that turn's accepted end, too. What `TakenUpAt` asks for is enough: the newest
   * snapshot, this one or a later one, names the message, and shows a turn open for it that is not closed for good, or
   * the message is queued.
   */
  method ReopensTurn(c: Coordinator, v: View, later: Option<View>, body: string, end: TurnEnd)
    requires c.Valid() && ShowsTurn(v, later, body) && Undisturbed(c, Last(v, later)) && MayReopen(c, v, later)
    modifies c
    ensures c.Valid() && c.at.Ending? && EndIsUp(c, v, Last(v, later), end)
    ensures old(c.log) + TakeUpLog(v, later) < c.log
    ensures c.closedTurnMessages == ClosedAfter(old(c.closedTurnMessages), v, later)
  {
    hide Coordinator.Valid, MayReopen;
    TakeUp(c, v, later, body);
    ReportEndOf(c, v, Last(v, later), end);
  }

  /** A new coordinator takes the turn up, and the report of its end is accepted. */
  method EndsTurnOnce(v: View, body: string, end: TurnEnd) returns (c: Coordinator)
    requires ShowsTurn(v, None, body)
    ensures fresh(c) && c.Valid() && c.at.Flushed? && !c.at.flush.AfterSendFlush? && c.turn.None? && !c.idle
    ensures c.log != [] && EndsTurn(c.log[|c.log| - 1], v.openTurn.value.turnId)
    ensures forall id :: id in c.closedTurnMessages ==> Coordinator.Closes(v.message.value) == Some(id)
  {
    hide Legal, Outstanding, Owned, UsedTurns, ToldBy, GuardsHold, AtHolds, CapturedHolds, TurnIdsOld, ToldHolds,
        OwnerOf;
    c := new Coordinator();
    c.SetPi(false, false, Some(v.message.value.id));
    ReopensTurn(c, v, None, body, end);
    c.ResumeEnding(true);
  }

  /** With no turn in hand and Pi busy, the rest of a call after an accepted end comes to nothing. */
  method ComeToRest(c: Coordinator)
    requires c.Valid() && c.at.Flushed? && !c.at.flush.AfterSendFlush? && c.turn.None? && !c.idle
    modifies c
    ensures c.Valid() && c.at.Resting? && c.turn.None? && old(c.log) <= c.log
    ensures c.closedTurnMessages == old(c.closedTurnMessages)
  {
    hide Legal, Outstanding, Owned, UsedTurns, ToldBy, GuardsHold, AtHolds, CapturedHolds, TurnIdsOld, ToldHolds,
        OwnerOf;
    if c.at.flush.SettledFirst? { c.ResumeFlushed(); }
    if c.at.Reporting? {
      c.ResumeReporting(false);
    } else {
      c.ResumeFlushed();
      c.ResumeFinishing();
    }
  }

  /**
   * For any two snapshots that show one turn open, with its end accepted in between: the end is reported once more.
   * When the end closed the message for good, a snapshot in between that does not name it opens the way again.
   */
  method StaleSnapshotReopensTurn(
      first: View, body: string, end: TurnEnd, between: Option<View>, again: View, body': string, later: TurnEnd)
      returns (log: Log)
    requires ShowsTurn(first, None, body) && ShowsTurn(again, None, body')
        && again.openTurn.value.turnId == first.openTurn.value.turnId
    requires Coordinator.Closes(first.message.value) == Some(again.message.value.id) ==>
               between.Some? && again.message.value.id !in Named(between.value)
    ensures var t := first.openTurn.value.turnId;
            exists i, j :: 0 <= i < j < |log| && EndsTurn(log[i], t) && log[j] == ReportEnded(t, later)
  {
    hide Legal, Coordinator.Valid, TakeUpLog;
    var c := EndsTurnOnce(first, body, end);
    ghost var i := |c.log| - 1;
    ComeToRest(c);
    if between.Some? { c.UpdateView(between.value); }
    c.SetPi(false, false, Some(again.message.value.id));
    ReopensTurn(c, again, None, body', later);
    log := c.log;
    assert EndsTurn(log[i], first.openTurn.value.turnId)
        && log[|log| - 1] == ReportEnded(first.openTurn.value.turnId, later);
  }
}
