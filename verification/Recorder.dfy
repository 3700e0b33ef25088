/** The session recorder: the fields of the source, its methods between awaits, and every run of them. */
module Recorder {
  import opened RecorderQueue

  const SESSION_EVENT_MAX_BYTES := 1048576

  class SessionRecorder {
    var eventQueue: seq<Event>
    var pendingMessageEnds: seq<PendingEnd>
    var outstandingRecords: int
    var outstandingBytes: int
    var nextEventSeq: nat
    var flushTimer: bool
    var flushing: Option<seq<Event>>
    var captureFailure: Option<Code>
    var acceptingEvents: bool
    var stopped: bool
    var batches: seq<seq<Event>>
    var history: seq<int>
    ghost var orphaned: bool

    /** The fields as one value. */
    ghost function View(): State
      reads this
    {
      State(eventQueue, pendingMessageEnds, outstandingRecords, outstandingBytes, nextEventSeq, flushTimer, flushing,
            captureFailure, acceptingEvents, stopped, batches, history, orphaned)
    }

    ghost predicate Valid()
      reads this
    {
      Inv(View())
    }

    constructor ()
      ensures View() == EMPTY && Valid()
    {
      hide Inv;
      eventQueue, pendingMessageEnds, outstandingRecords, outstandingBytes := [], [], 0, 0;
      nextEventSeq, flushTimer, flushing, captureFailure := 1, false, None, None;
      acceptingEvents, stopped, batches := true, false, [];
      history, orphaned := [], false;
      new;
      EmptyKeeps();
    }

    method QueuedBytes() returns (sum: nat)
      ensures sum == Bytes(eventQueue)
    {
      sum := 0;
      for i := 0 to |eventQueue|
        invariant sum == Bytes(eventQueue[..i])
      {
        assert eventQueue[..i + 1][..i] == eventQueue[..i];
        sum := sum + eventQueue[i].bytes;
      }
      assert eventQueue[..|eventQueue|] == eventQueue;
    }

    method FailCapture(code: Code)
      modifies this`captureFailure, this`acceptingEvents
      ensures View() == Fail(old(View()), code)
    {
      if captureFailure.None? {
        captureFailure, acceptingEvents := Some(code), false;
      }
    }

    /** Shift one batch off the queue. */
    method TakeBatch() returns (batch: seq<Event>)
      modifies this`eventQueue
      ensures BatchSize(old(eventQueue)) <= |old(eventQueue)|
      ensures batch == old(eventQueue)[..BatchSize(old(eventQueue))]
          && eventQueue == old(eventQueue)[BatchSize(old(eventQueue))..]
    {
      ghost var queue := eventQueue;
      batch := [];
      var bytes := 0;
      while |eventQueue| > 0 && |batch| < FLUSH_MAX_RECORDS
        invariant |batch| <= |queue| && batch == queue[..|batch|] && eventQueue == queue[|batch|..]
        invariant bytes == Bytes(batch) && BatchEnd(queue, |batch|, bytes) == BatchSize(queue)
        decreases |eventQueue|
      {
        var next := eventQueue[0];
        if |batch| > 0 && bytes + next.bytes > FLUSH_MAX_BYTES { break; }
        assert (batch + [next])[..|batch|] == batch;
        batch, eventQueue := batch + [next], eventQueue[1..];
        bytes := bytes + next.bytes;
      }
    }

    /** Hand one batch to the store. */
    method BeginFlush()
      modifies this`eventQueue, this`flushTimer, this`flushing, this`batches
      ensures View() == StartFlush(old(View()))
    {
      if pendingMessageEnds != [] || flushing.Some? || eventQueue == [] { return; }
      flushTimer := false;
      var batch := TakeBatch();
      flushing, batches := Some(batch), batches + [batch];
    }

    method ArmTimer()
      modifies this`flushTimer
      ensures View() == ScheduleFlush(old(View()))
    {
      if pendingMessageEnds == [] && !flushTimer && flushing.None? { flushTimer := true; }
    }

    method FlushOrArm()
      modifies this`eventQueue, this`flushTimer, this`flushing, this`batches
      ensures View() == FlushOrSchedule(old(View()))
    {
      var queued := QueuedBytes();
      if |eventQueue| >= FLUSH_MAX_RECORDS || queued >= FLUSH_MAX_BYTES { BeginFlush(); } else { ArmTimer(); }
    }

    /** Count an event in and queue it, unless the recorder refuses it. */
    method Admit(body: int, payload: Payload, bytes: nat, externalizable: bool) returns (queued: bool)
      modifies this`eventQueue, this`outstandingRecords, this`outstandingBytes, this`nextEventSeq, this`captureFailure,
        this`acceptingEvents, this`history
      ensures var s, oversized := old(View()), bytes > SESSION_EVENT_MAX_BYTES && !externalizable;
              && queued == (s.accepting && s.failure.None? && Refusal(s, bytes, oversized).None?)
              && View() == if queued then Push(s, body, payload, bytes)
                           else if !s.accepting || s.failure.Some? then
                             s
                           else Fail(s, Refusal(s, bytes, oversized).value)
    {
      if !acceptingEvents || captureFailure.Some? { return false; }
      if bytes > SESSION_EVENT_MAX_BYTES && !externalizable {
        FailCapture(EventTooLarge);
        return false;
      }
      if outstandingRecords + 1 > QUEUE_MAX_RECORDS || outstandingBytes + bytes > QUEUE_MAX_BYTES {
        FailCapture(QueueOverflow);
        return false;
      }
      eventQueue := eventQueue + [Event(nextEventSeq, body, payload, bytes)];
      nextEventSeq := nextEventSeq + 1;
      outstandingRecords, outstandingBytes := outstandingRecords + 1, outstandingBytes + bytes;
      history := history + [body];
      return true;
    }

    /** An event that is not a message end. */
    method Record(body: int, bytes: nat, externalizable: bool)
      requires Valid()
      modifies this
      ensures Valid() && View() == Enqueue(old(View()), body, bytes, bytes > SESSION_EVENT_MAX_BYTES && !externalizable)
    {
      hide Inv, BatchSize, BatchEnd, Bytes, Concat;
      EnqueueKeeps(View(), body, bytes, bytes > SESSION_EVENT_MAX_BYTES && !externalizable);
      var queued := Admit(body, Plain, bytes, externalizable);
      if queued { FlushOrArm(); }
    }

    /** A message end is held back, with everything after it, until its entry is known. */
    method HandleMessageEnd(body: int, bytes: nat)
      requires Valid()
      modifies this
      ensures Valid() && View() == EnqueueEnd(old(View()), body, bytes, bytes > SESSION_EVENT_MAX_BYTES)
    {
      hide Inv, BatchSize, BatchEnd, Bytes, Concat;
      EnqueueEndKeeps(View(), body, bytes, bytes > SESSION_EVENT_MAX_BYTES);
      flushTimer := false;
      var seqNo := nextEventSeq;
      var queued := Admit(body, Deferred, bytes, false);
      if queued {
        pendingMessageEnds := pendingMessageEnds + [PendingEnd(seqNo, bytes)];
        flushTimer := false;
      }
    }

    /** The rest of a synchronization: `found` tells which entry, if any, each message end that waited claims. */
    method Synchronized(found: seq<Found>)
      requires Valid() && |found| == |pendingMessageEnds|
      modifies this
      ensures Valid() && View() == Synchronize(old(View()), found)
    {
      hide Inv, BatchSize, BatchEnd, Bytes, Concat, FlushOrSchedule;
      SynchronizeKeeps(View(), found);
      ReleaseEnds(found);
      FlushOrArm();
    }

    /** Release every message end that waits, oldest first. */
    method ReleaseEnds(found: seq<Found>)
      requires |found| == |pendingMessageEnds|
      modifies this`eventQueue, this`outstandingBytes, this`pendingMessageEnds
      ensures View() == ReleaseAll(old(View()), found)
    {
      ghost var s := View();
      var index := 0;
      assert found[0..] == found;
      hide ReleaseAll, ReleaseFirst;
      while index < |found|
        invariant 0 <= index <= |found| && |pendingMessageEnds| == |found| - index
        invariant ReleaseAll(View(), found[index..]) == ReleaseAll(s, found)
      {
        ReleaseAllStep(View(), found, index);
        ReleaseOne(found[index]);
        index := index + 1;
      }
      ReleaseAllStep(View(), found, index);
    }

    /** Release the message end that has waited longest. */
    method ReleaseOne(found: Found)
      requires pendingMessageEnds != []
      modifies this`eventQueue, this`outstandingBytes, this`pendingMessageEnds
      ensures View() == ReleaseFirst(old(View()), found)
    {
      hide Replace, Growth, PayloadFor;
      var pending := pendingMessageEnds[0];
      var bytes := pending.bytes + Growth(found);
      eventQueue := Replace(eventQueue, pending.seqNo, PayloadFor(found), bytes);
      outstandingBytes := outstandingBytes + bytes - pending.bytes;
      pendingMessageEnds := pendingMessageEnds[1..];
    }

    /** A write failed: fail, and drop what is queued. */
    method DropQueued(code: Code)
      modifies this`eventQueue, this`outstandingRecords, this`outstandingBytes, this`captureFailure,
        this`acceptingEvents, this`orphaned
      ensures View() == DropQueue(Fail(old(View()), code))
    {
      hide Bytes;
      FailCapture(code);
      var dropped := QueuedBytes();
      outstandingRecords, outstandingBytes := outstandingRecords - |eventQueue|, outstandingBytes - dropped;
      orphaned := orphaned || pendingMessageEnds != [];
      eventQueue := [];
    }

    /** The write in flight settled. */
    method FlushSettled(error: Option<Code>)
      requires Valid() && flushing.Some?
      modifies this
      ensures Valid() && View() == Settle(old(View()), error)
    {
      hide Inv, Bytes, Concat, StartFlush, Fail, DropQueue;
      SettleKeeps(View(), error);
      FailedWriteKeepsFlight(View(), error);
      var batch := flushing.value;
      if error.Some? { DropQueued(error.value); }
      var written := BatchBytes(batch);
      outstandingRecords, outstandingBytes := outstandingRecords - |batch|, outstandingBytes - written;
      flushing := None;
      if |eventQueue| > 0 && captureFailure != Some(EventWriteFailed) { BeginFlush(); }
    }

    method FireTimer()
      requires Valid()
      modifies this
      ensures Valid() && View() == TimerFires(old(View()))
    {
      hide Inv, BatchSize, BatchEnd, Bytes, Concat;
      TimerFiresKeeps(View());
      if flushTimer {
        flushTimer := false;
        BeginFlush();
      }
    }

    /** Recording the branch's entries failed. */
    method EntryFailed()
      requires Valid()
      modifies this
      ensures Valid() && View() == Fail(old(View()), EntryWriteFailed)
    {
      hide Inv, BatchSize, BatchEnd, Bytes, Concat;
      FailKeeps(View());
      FailCapture(EntryWriteFailed);
    }

    /** The part of `stop` before its first await. */
    method BeginStop(turnActive: bool)
      requires Valid()
      modifies this
      ensures Valid() && View() == Stop(old(View()), turnActive)
    {
      hide Inv, BatchSize, BatchEnd, Bytes, Concat;
      StopKeeps(View(), turnActive);
      if stopped { return; }
      if turnActive { FailCapture(TurnInterrupted); }
      acceptingEvents, stopped, pendingMessageEnds, flushTimer := false, true, [], false;
      BeginFlush();
    }

    /** The last flushes end, whatever the writes settle as, and leave nothing behind. */
    method FlushAllEvents(outcomes: nat -> Option<Code>) returns (writes: nat)
      requires Valid() && stopped
      modifies this
      ensures Valid() && stopped && eventQueue == [] && flushing.None? && outstandingRecords == 0
      ensures (forall i :: 0 <= i < writes ==> outcomes(i).None?) && old(captureFailure).None? ==> captureFailure.None?
      ensures captureFailure.None? ==> old(captureFailure).None? && |Concat(batches)| == |history|
      ensures history == old(history)
    {
      writes := 0;
      while |eventQueue| > 0 || flushing.Some?
        invariant Valid() && stopped && history == old(history)
        invariant (forall i :: 0 <= i < writes ==> outcomes(i).None?) && old(captureFailure).None? ==>
            captureFailure.None?
        invariant captureFailure.None? ==> old(captureFailure).None?
        decreases |eventQueue|, flushing.Some?
      {
        StoppedIsFlushing(View());
        FlushSettledShrinks(View(), outcomes(writes));
        FlushSettled(outcomes(writes));
        writes := writes + 1;
      }
      NothingLeft(View());
    }
  }

  method BatchBytes(batch: seq<Event>) returns (sum: nat)
    ensures sum == Bytes(batch)
  {
    sum := 0;
    for i := 0 to |batch|
      invariant sum == Bytes(batch[..i])
    {
      assert batch[..i + 1][..i] == batch[..i];
      sum := sum + batch[i].bytes;
    }
    assert batch[..|batch|] == batch;
  }

  lemma ReleaseAllStep(s: State, found: seq<Found>, i: nat)
    requires i <= |found| && |s.pending| == |found| - i
    ensures if i == |found| then ReleaseAll(s, found[i..]) == s
            else ReleaseFirst(s, found[i]).pending == s.pending[1..]
                 && ReleaseAll(s, found[i..]) == ReleaseAll(ReleaseFirst(s, found[i]), found[i + 1..])
  {
    if i < |found| {
      assert found[i..][1..] == found[i + 1..] && found[i..][0] == found[i];
    }
  }

  lemma FailedWriteKeepsFlight(s: State, error: Option<Code>)
    ensures error.Some? ==> DropQueue(Fail(s, error.value)).flight == s.flight
  {
  }

  lemma FailKeeps(s: State)
    requires Inv(s)
    ensures Inv(Fail(s, EntryWriteFailed))
  {
    SameSound(s, Fail(s, EntryWriteFailed));
    hide Sound;
  }

  lemma StoppedIsFlushing(s: State)
    requires Inv(s) && s.stopped
    ensures s.queue != [] ==> s.flight.Some?
  {
  }

  lemma FlushSettledShrinks(s: State, error: Option<Code>)
    requires Inv(s) && s.flight.Some? && s.stopped
    ensures var t := Settle(s, error);
            && t.stopped && t.history == s.history && (error.None? ==> t.failure == s.failure)
            && (t.failure.None? ==> s.failure.None?)
            && (|t.queue| < |s.queue| || (|t.queue| == |s.queue| && t.flight.None?))
  {
    SettleKeeps(s, error);
    var kept := if error.Some? then DropQueue(Fail(s, error.value)) else s;
    hide Inv, Sound, BatchSize, Bytes;
  }

  lemma NothingLeft(s: State)
    requires Inv(s) && s.queue == [] && s.flight.None?
    ensures s.records == 0 && (s.failure.None? ==> |Concat(s.batches)| == |s.history|)
  {
    assert All(s) == Concat(s.batches);
  }

  // ---- Every run -----------------------------------------------------------------------------

  /** What can happen next: Pi's events, the steps after each await, the timer and the stop. */
  datatype Action =
    | Happens(body: int, bytes: nat, externalizable: bool)
    | MessageEnds(body: int, bytes: nat)
    | Synchronizes(found: seq<Found>)
    | Lands(error: Option<Code>)
    | Ticks
    | EntriesFail
    | Stops(turnActive: bool)

  function Step(s: State, action: Action): State {
    match action
    case Happens(body, bytes, externalizable) =>
      Enqueue(s, body, bytes, bytes > SESSION_EVENT_MAX_BYTES && !externalizable)
    case MessageEnds(body, bytes) => EnqueueEnd(s, body, bytes, bytes > SESSION_EVENT_MAX_BYTES)
    case Synchronizes(found) => if |found| == |s.pending| then Synchronize(s, found) else s
    case Lands(error) => if s.flight.Some? then Settle(s, error) else s
    case Ticks => TimerFires(s)
    case EntriesFail => Fail(s, EntryWriteFailed)
    case Stops(turnActive) => Stop(s, turnActive)
  }

  /** The state after a schedule. */
  function After(actions: seq<Action>): State {
    if actions == [] then EMPTY else Step(After(actions[..|actions| - 1]), actions[|actions| - 1])
  }

  /** The bodies of Pi's events before the stop, message ends among them, as they came. */
  function Bodies(actions: seq<Action>): seq<int> {
    if actions == [] then []
    else
      var before, last := actions[..|actions| - 1], actions[|actions| - 1];
      Bodies(before) + if (last.Happens? || last.MessageEnds?) && !HasStop(before) then [last.body] else []
  }

  predicate HasStop(actions: seq<Action>) { exists i :: 0 <= i < |actions| && actions[i].Stops? }

  /** What the recorder has done so far. */
  datatype Outcome = Outcome(accepted: seq<int>, batches: seq<seq<Event>>, queue: seq<Event>, flight: seq<Event>,
    pending: seq<PendingEnd>, records: int, bytes: int, failed: bool, stopped: bool)

  function OutcomeOf(s: State): Outcome {
    Outcome(s.history, s.batches, s.queue, Flying(s), s.pending, s.records, s.bytes, s.failure.Some?, s.stopped)
  }

  /** Events handed over are the accepted ones, in order, each under its number, and no batch is over its caps. */
  ghost predicate InOrder(o: Outcome) {
    var handed := Concat(o.batches);
    && |handed| <= |o.accepted|
    && (forall i :: 0 <= i < |handed| ==> handed[i].seqNo == i + 1 && handed[i].body == o.accepted[i])
    && (forall b :: b in o.batches ==> Capped(b))
  }

  /** Before a capture failure no event is lost, and before the stop none passes a message end that waits. */
  ghost predicate NothingLostOrEarly(o: Outcome) {
    && (!o.failed ==> |Concat(o.batches)| + |o.queue| == |o.accepted|)
    && (!o.stopped ==> NoneDeferred(Concat(o.batches)))
    && (!o.failed ==> forall e, p :: e in Concat(o.batches) && p in o.pending ==> e.seqNo < p.seqNo)
  }

  /** The counters are the queue and the batch in flight; the bytes are sure to be so until a capture failure. */
  ghost predicate RightCounts(o: Outcome) {
    && o.records == |o.queue| + |o.flight| <= QUEUE_MAX_RECORDS
    && (!o.failed ==> o.bytes == Bytes(o.queue) + Bytes(o.flight))
  }

  lemma SoundOutcome(s: State)
    requires Inv(s)
    ensures InOrder(OutcomeOf(s)) && NothingLostOrEarly(OutcomeOf(s)) && RightCounts(OutcomeOf(s))
  {
    forall i | 0 <= i < |Concat(s.batches)| ensures Concat(s.batches)[i] == All(s)[i] {}
    if s.failure.None? { NothingPastAWaitingEnd(s); }
  }

  lemma FlushKeepsHistory(s: State)
    ensures var t := FlushOrSchedule(s);
            t.history == s.history && t.failure == s.failure && t.accepting == s.accepting && t.stopped == s.stopped
  {
  }

  lemma {:induction false} ReleaseKeepsHistory(s: State, found: seq<Found>)
    requires |found| == |s.pending|
    ensures var t := ReleaseAll(s, found);
            t.history == s.history && t.failure == s.failure && t.accepting == s.accepting && t.stopped == s.stopped
    decreases |found|
  {
    if found != [] { ReleaseKeepsHistory(ReleaseFirst(s, found[0]), found[1..]); }
  }

  /** A step accepts exactly the event it brings, unless the recorder has stopped or fails. */
  lemma StepAccepts(s: State, action: Action)
    requires s.accepting <==> s.failure.None? && !s.stopped
    ensures var t := Step(s, action);
            && (t.accepting <==> t.failure.None? && !t.stopped)
            && (t.stopped <==> s.stopped || action.Stops?)
            && (t.failure.None? ==> s.failure.None?)
            && (t.history == s.history
                || (s.accepting && (action.Happens? || action.MessageEnds?) && t.history == s.history + [action.body]))
            && (t.failure.None? && !s.stopped && (action.Happens? || action.MessageEnds?) ==>
                t.history == s.history + [action.body])
  {
    hide FlushOrSchedule, ReleaseAll, BatchSize, Bytes;
    match action
    case Happens(body, bytes, externalizable) => FlushKeepsHistory(Push(s, body, Plain, bytes));
    case Synchronizes(found) =>
      if |found| == |s.pending| {
        ReleaseKeepsHistory(s, found);
        FlushKeepsHistory(ReleaseAll(s, found));
      }
    case _ =>
  }

  lemma Unfolds(actions: seq<Action>, action: Action)
    ensures After(actions + [action]) == Step(After(actions), action)
    ensures HasStop(actions + [action]) <==> HasStop(actions) || action.Stops?
    ensures Bodies(actions + [action])
            == Bodies(actions) + if (action.Happens? || action.MessageEnds?)
              && !HasStop(actions) then [action.body] else []
  {
    var longer := actions + [action];
    assert longer[..|longer| - 1] == actions;
    hide Step;
    if HasStop(actions) {
      var i :| 0 <= i < |actions| && actions[i].Stops?;
      assert longer[i].Stops?;
    }
  }

  /**
   * Until a capture failure the recorder accepts every event of Pi's before the stop, in order; then no more of them.
   */
  lemma {:induction false} AcceptsWhatHappens(actions: seq<Action>)
    ensures var s := After(actions);
            && (s.accepting <==> s.failure.None? && !s.stopped) && (s.stopped <==> HasStop(actions))
            && s.history <= Bodies(actions) && (s.failure.None? ==> s.history == Bodies(actions))
    decreases |actions|
  {
    if actions != [] {
      var before, last := actions[..|actions| - 1], actions[|actions| - 1];
      assert actions == before + [last];
      hide After, Bodies, HasStop, Step;
      AcceptsWhatHappens(before);
      StepAccepts(After(before), last);
      Unfolds(before, last);
    }
  }

  /** Perform one action; those that cannot happen now do nothing. */
  method Act(recorder: SessionRecorder, action: Action)
    requires recorder.Valid()
    modifies recorder
    ensures recorder.Valid() && recorder.View() == Step(old(recorder.View()), action)
  {
    hide Inv, Enqueue, EnqueueEnd, Synchronize, Settle, TimerFires, Fail, Stop;
    match action
    case Happens(body, bytes, externalizable) => recorder.Record(body, bytes, externalizable);
    case MessageEnds(body, bytes) => recorder.HandleMessageEnd(body, bytes);
    case Synchronizes(found) => if |found| == |recorder.pendingMessageEnds| { recorder.Synchronized(found); }
    case Lands(error) => if recorder.flushing.Some? { recorder.FlushSettled(error); }
    case Ticks => recorder.FireTimer();
    case EntriesFail => recorder.EntryFailed();
    case Stops(turnActive) => recorder.BeginStop(turnActive);
  }

  /** A new recorder, and everything the schedule brings. */
  method Perform(actions: seq<Action>) returns (recorder: SessionRecorder)
    ensures fresh(recorder) && recorder.Valid() && recorder.View() == After(actions)
  {
    hide Inv, Step;
    recorder := new SessionRecorder();
    for i := 0 to |actions|
      invariant recorder.Valid() && fresh(recorder) && recorder.View() == After(actions[..i])
    {
      assert actions[..i + 1][..i] == actions[..i];
      Act(recorder, actions[i]);
    }
    assert actions[..|actions|] == actions;
  }

  method OutcomeNow(recorder: SessionRecorder) returns (o: Outcome)
    ensures o == OutcomeOf(recorder.View())
  {
    o := Outcome(recorder.history, recorder.batches, recorder.eventQueue,
                 if recorder.flushing.Some? then recorder.flushing.value else [], recorder.pendingMessageEnds,
                 recorder.outstandingRecords, recorder.outstandingBytes, recorder.captureFailure.Some?,
                   recorder.stopped);
  }

  /**
   * Whatever happens, in whatever order: the recorder accepts what Pi did up to the stop or a capture failure, and
   * events reach the store in that order, capped, and never past a waiting message end.
   */
  method Run(actions: seq<Action>) returns (o: Outcome)
    ensures o == OutcomeOf(After(actions))
    ensures o.accepted <= Bodies(actions) && (!o.failed ==> o.accepted == Bodies(actions))
        && (o.stopped <==> HasStop(actions))
    ensures InOrder(o) && NothingLostOrEarly(o) && RightCounts(o)
  {
    hide Inv, InOrder, NothingLostOrEarly, RightCounts, Bodies, HasStop, After;
    var recorder := Perform(actions);
    AcceptsWhatHappens(actions);
    SoundOutcome(recorder.View());
    o := OutcomeNow(recorder);
  }

  /**
   * However a run went, stopping it hands over all that Pi did up to the stop, unless capture failed; the last writes
   * always end, and when they all succeed it is the run alone that tells whether capture failed.
   */
  method RunAndStop(actions: seq<Action>, outcomes: nat -> Option<Code>) returns (o: Outcome)
    ensures o.stopped && o.queue == [] && o.flight == [] && o.records == 0 && InOrder(o)
    ensures o.accepted <= Bodies(actions)
    ensures !o.failed ==> o.accepted == Bodies(actions) && |Concat(o.batches)| == |o.accepted| && o.bytes == 0
    ensures (forall i :: outcomes(i).None?) ==> (o.failed <==> After(actions).failure.Some?)
  {
    hide Inv, InOrder, Concat, After, Bodies, HasStop;
    var recorder := Perform(actions);
    AcceptsWhatHappens(actions);
    StopOnlyStops(recorder.View());
    recorder.BeginStop(false);
    var writes := recorder.FlushAllEvents(outcomes);
    SoundOutcome(recorder.View());
    o := OutcomeNow(recorder);
  }

  lemma StopOnlyStops(s: State)
    ensures Stop(s, false).history == s.history && Stop(s, false).failure == s.failure
  {
  }
}
