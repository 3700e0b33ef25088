/** The session recorder's queue as values: what one step makes of it, and what every step keeps. */
module RecorderQueue {
  datatype Option<+T> = None | Some(value: T)

  const FLUSH_MAX_RECORDS := 256
  const FLUSH_MAX_BYTES := 262144
  const QUEUE_MAX_RECORDS := 8192
  const QUEUE_MAX_BYTES := 16777216

  /** A message end waits `Deferred` until it is released with the entry it belongs to, or without one. */
  datatype Payload = Plain | Deferred | Settled(entry: nat) | Unsettled

  datatype Event = Event(seqNo: nat, body: int, payload: Payload, bytes: nat)

  datatype PendingEnd = PendingEnd(seqNo: nat, bytes: nat)

  datatype Code = EventTooLarge | QueueOverflow | EventWriteFailed | EntryWriteFailed | TurnInterrupted

  /**
   * The recorder's fields, with what it handed to the store (`batches`), the bodies of the events it accepted
   * (`history`), and whether a failed write took events that a pending message end still refers to (`orphaned`).
   */
  datatype State = State(
    queue: seq<Event>, pending: seq<PendingEnd>, records: int, bytes: int, nextSeq: nat, timer: bool,
    flight: Option<seq<Event>>, failure: Option<Code>, accepting: bool, stopped: bool,
    batches: seq<seq<Event>>, history: seq<int>, orphaned: bool)

  // ---- Counting ------------------------------------------------------------------------------

  function Bytes(events: seq<Event>): nat {
    if events == [] then 0 else Bytes(events[..|events| - 1]) + events[|events| - 1].bytes
  }

  lemma {:induction false} BytesOfConcat(a: seq<Event>, b: seq<Event>)
    ensures Bytes(a + b) == Bytes(a) + Bytes(b)
    decreases |b|
  {
    if b == [] {
      assert a + b == a;
    } else {
      assert (a + b)[..|a + b| - 1] == a + b[..|b| - 1];
      BytesOfConcat(a, b[..|b| - 1]);
    }
  }

  function Concat(batches: seq<seq<Event>>): seq<Event> {
    if batches == [] then [] else Concat(batches[..|batches| - 1]) + batches[|batches| - 1]
  }

  lemma ConcatAppend(batches: seq<seq<Event>>, batch: seq<Event>)
    ensures Concat(batches + [batch]) == Concat(batches) + batch
  {
    assert (batches + [batch])[..|batches|] == batches;
  }

  /** The events of `events[from..]` that still fit after `count` of `bytes` bytes in all. */
  function BatchEnd(events: seq<Event>, from: nat, bytes: nat): (end: nat)
    requires from <= |events| && bytes == Bytes(events[..from])
    ensures from <= end <= |events|
    decreases |events| - from
  {
    if from == |events| || from >= FLUSH_MAX_RECORDS || (from > 0 && bytes + events[from].bytes > FLUSH_MAX_BYTES)
        then from
    else
      assert events[..from + 1][..from] == events[..from];
      BatchEnd(events, from + 1, bytes + events[from].bytes)
  }

  function BatchSize(events: seq<Event>): nat { BatchEnd(events, 0, 0) }

  /** A batch obeys both caps, unless it is one event that is over the byte cap alone. */
  predicate Capped(batch: seq<Event>) {
    0 < |batch| <= FLUSH_MAX_RECORDS && (Bytes(batch) <= FLUSH_MAX_BYTES || |batch| == 1)
  }

  lemma BytesTake(events: seq<Event>, from: nat)
    requires from < |events|
    ensures Bytes(events[..from + 1]) == Bytes(events[..from]) + events[from].bytes
  {
    assert events[..from + 1][..from] == events[..from];
  }

  lemma {:induction false} BatchEndCaps(events: seq<Event>, from: nat)
    requires from <= |events| && from <= FLUSH_MAX_RECORDS && (from <= 1 || Bytes(events[..from]) <= FLUSH_MAX_BYTES)
    ensures var end := BatchEnd(events, from, Bytes(events[..from]));
            && end <= FLUSH_MAX_RECORDS && (end <= 1 || Bytes(events[..end]) <= FLUSH_MAX_BYTES)
            && (end == |events| || end == FLUSH_MAX_RECORDS || (end > 0 && Bytes(events[..end + 1]) > FLUSH_MAX_BYTES))
            && (from < |events| && from == 0 ==> end > 0)
    decreases |events| - from
  {
    if from < |events| {
      hide Bytes;
      BytesTake(events, from);
      if from < FLUSH_MAX_RECORDS && (from == 0 || Bytes(events[..from + 1]) <= FLUSH_MAX_BYTES) {
        BatchEndCaps(events, from + 1);
      }
    }
  }

  /** A flush takes the longest capped prefix of the queue. */
  lemma BatchIsLongestCapped(events: seq<Event>)
    requires events != []
    ensures 0 < BatchSize(events) <= |events| && Capped(events[..BatchSize(events)])
    ensures forall n :: BatchSize(events) < n <= |events| ==> !Capped(events[..n])
  {
    BatchEndCaps(events, 0);
    var end := BatchSize(events);
    forall n | end < n <= |events| ensures !Capped(events[..n]) {
      if end < FLUSH_MAX_RECORDS {
        assert events[..n] == events[..end + 1] + events[end + 1..n];
        BytesOfConcat(events[..end + 1], events[end + 1..n]);
      }
    }
  }

  // ---- Steps ---------------------------------------------------------------------------------

  function Fail(s: State, code: Code): State {
    if s.failure.Some? then s else s.(failure := Some(code), accepting := false)
  }

  function StartFlush(s: State): State {
    if s.pending != [] || s.flight.Some? || s.queue == [] then s
    else
      var n := BatchSize(s.queue);
      s.(timer := false, queue := s.queue[n..], flight := Some(s.queue[..n]), batches := s.batches + [s.queue[..n]])
  }

  function ScheduleFlush(s: State): State {
    if s.pending != [] || s.timer || s.flight.Some? then s else s.(timer := true)
  }

  function FlushOrSchedule(s: State): State {
    if |s.queue| >= FLUSH_MAX_RECORDS || Bytes(s.queue) >= FLUSH_MAX_BYTES then StartFlush(s) else ScheduleFlush(s)
  }

  /** Whether an event would be refused, and with which failure. */
  function Refusal(s: State, bytes: nat, oversized: bool): Option<Code> {
    if oversized then Some(EventTooLarge)
    else if s.records + 1 > QUEUE_MAX_RECORDS || s.bytes + bytes > QUEUE_MAX_BYTES then Some(QueueOverflow)
    else None
  }

  function Push(s: State, body: int, payload: Payload, bytes: nat): State {
    s.(queue := s.queue + [Event(s.nextSeq, body, payload, bytes)], nextSeq := s.nextSeq + 1,
       records := s.records + 1, bytes := s.bytes + bytes, history := s.history + [body])
  }

  /**
   * Enqueue an event and flush or schedule a flush; `oversized` tells that it is too large and cannot be externalized.
   */
  function Enqueue(s: State, body: int, bytes: nat, oversized: bool): State {
    if !s.accepting || s.failure.Some? then s
    else if Refusal(s, bytes, oversized).Some? then Fail(s, Refusal(s, bytes, oversized).value)
    else FlushOrSchedule(Push(s, body, Plain, bytes))
  }

  /** Enqueue a message end, which holds back itself and everything after it. */
  function EnqueueEnd(s: State, body: int, bytes: nat, oversized: bool): State {
    var idle := s.(timer := false);
    if !s.accepting || s.failure.Some? then idle
    else if Refusal(s, bytes, oversized).Some? then Fail(idle, Refusal(s, bytes, oversized).value)
    else Push(idle, body, Deferred, bytes).(pending := s.pending + [PendingEnd(s.nextSeq, bytes)])
  }

  /** What the release of a message end finds: no entry, or one whose id takes `idBytes` bytes in the record. */
  datatype Found = NoEntry | Claimed(entry: nat, idBytes: nat)

  /** What `"settled":true,"entryId":""` takes more than `"settled":false`. */
  const ENTRY_BYTES := 12

  /** A record that names its entry is larger by the entry; one without an entry is the record that was queued. */
  function Growth(found: Found): nat { if found.Claimed? then ENTRY_BYTES + found.idBytes else 0 }

  function Replace(queue: seq<Event>, seqNo: nat, payload: Payload, bytes: nat): (r: seq<Event>)
    ensures |r| == |queue|
    ensures forall i :: 0 <= i < |queue| ==>
              r[i] == if queue[i].seqNo == seqNo then queue[i].(payload := payload, bytes := bytes) else queue[i]
  {
    if queue == [] then []
    else
      var e := queue[|queue| - 1];
      Replace(queue[..|queue| - 1], seqNo, payload, bytes)
        + [if e.seqNo == seqNo then e.(payload := payload, bytes := bytes) else e]
  }

  function PayloadFor(found: Found): Payload { if found.Claimed? then Settled(found.entry) else Unsettled }

  /** Release the oldest message end. */
  function ReleaseFirst(s: State, found: Found): State
    requires s.pending != []
  {
    var bytes := s.pending[0].bytes + Growth(found);
    s.(queue := Replace(s.queue, s.pending[0].seqNo, PayloadFor(found), bytes),
       bytes := s.bytes + bytes - s.pending[0].bytes, pending := s.pending[1..])
  }

  function ReleaseAll(s: State, found: seq<Found>): State
    requires |found| == |s.pending|
    decreases |found|
  {
    if found == [] then s else ReleaseAll(ReleaseFirst(s, found[0]), found[1..])
  }

  /** The rest of a synchronization, once the branch's entries are recorded. */
  function Synchronize(s: State, found: seq<Found>): State
    requires |found| == |s.pending|
  {
    FlushOrSchedule(ReleaseAll(s, found))
  }

  function DropQueue(s: State): State {
    s.(records := s.records - |s.queue|, bytes := s.bytes - Bytes(s.queue), queue := [],
       orphaned := s.orphaned || s.pending != [])
  }

  /** The write in flight has settled, with an error or without. */
  function Settle(s: State, error: Option<Code>): State
    requires s.flight.Some?
  {
    var kept := if error.Some? then DropQueue(Fail(s, error.value)) else s;
    var done := kept.(
      records := kept.records - |s.flight.value|, bytes := kept.bytes - Bytes(s.flight.value), flight := None);
    if done.queue != [] && done.failure != Some(EventWriteFailed) then StartFlush(done) else done
  }

  function TimerFires(s: State): State {
    if s.timer then StartFlush(s.(timer := false)) else s
  }

  /** Stopping releases the message ends as they are and starts the last flushes. */
  function Stop(s: State, turnActive: bool): State {
    if s.stopped then s
    else
      var failed := if turnActive then Fail(s, TurnInterrupted) else s;
      StartFlush(failed.(accepting := false, stopped := true, pending := [], timer := false))
  }

  // ---- What every step keeps -----------------------------------------------------------------

  /** Everything handed over, then everything queued. */
  function All(s: State): seq<Event> { Concat(s.batches) + s.queue }

  function Flying(s: State): seq<Event> { if s.flight.Some? then s.flight.value else [] }

  /** Records are always counted exactly; bytes are, unless a failed write orphaned a message end. */
  ghost predicate Counted(s: State) {
    && s.records == |s.queue| + |Flying(s)| <= QUEUE_MAX_RECORDS
    && (!s.orphaned ==> s.bytes == Bytes(s.queue) + Bytes(Flying(s)))
  }

  /** The events are those accepted, in order, numbered from 1; only a failed write ever drops the end of them. */
  ghost predicate Sequenced(s: State) {
    && |All(s)| <= |s.history| && s.nextSeq == |s.history| + 1
    && (s.failure.None? ==> |All(s)| == |s.history|)
    && (s.failure.None? ==> !s.orphaned)
    && forall i :: 0 <= i < |All(s)| ==> All(s)[i].seqNo == i + 1 && All(s)[i].body == s.history[i]
  }

  ghost predicate Batched(s: State) {
    && (forall b :: b in s.batches ==> Capped(b))
    && (s.flight.Some? ==> s.batches != [] && s.flight.value == s.batches[|s.batches| - 1])
  }

  ghost predicate NoneDeferred(events: seq<Event>) {
    forall e :: e in events ==> !e.payload.Deferred?
  }

  /**
   * The message ends that wait are the deferred events of the queue, in order; none was handed over before the stop.
   */
  ghost predicate Waiting(s: State) {
    && (!s.stopped ==> NoneDeferred(Concat(s.batches)))
    && (!s.stopped && !s.orphaned ==>
          && (forall e :: e in s.queue ==> (e.payload.Deferred? <==> PendingEnd(e.seqNo, e.bytes) in s.pending))
          && (forall p :: p in s.pending ==> exists e :: e in s.queue && e.seqNo == p.seqNo && e.bytes == p.bytes)
          && (forall i, j :: 0 <= i < j < |s.pending| ==> s.pending[i].seqNo < s.pending[j].seqNo))
    && (s.orphaned ==> s.queue == [])
  }

  /**
   * While the recorder accepts events, queued ones that nothing holds back have a timer or a write that will take them.
   */
  ghost predicate Progressing(s: State) {
    && (s.accepting ==> s.failure.None? && !s.stopped)
    && (s.accepting && s.queue != [] && s.pending == [] ==> s.timer || s.flight.Some?)
    && (s.stopped ==> s.pending == [] && (s.queue != [] ==> s.flight.Some?))
    && (s.failure == Some(EventWriteFailed) ==> s.queue == [])
  }

  ghost predicate Sound(s: State) {
    Counted(s) && Sequenced(s) && Batched(s) && Waiting(s)
  }

  /** Until a synchronization releases them, orphaned message ends leave the byte count right as well. */
  ghost predicate Held(s: State) {
    s.orphaned && s.pending != [] ==> s.bytes == Bytes(s.queue) + Bytes(Flying(s))
  }

  ghost predicate Inv(s: State) {
    Sound(s) && Progressing(s) && Held(s)
  }

  const EMPTY := State([], [], 0, 0, 1, false, None, None, true, false, [], [], false)

  lemma EmptyKeeps()
    ensures Inv(EMPTY)
  {
    assert All(EMPTY) == [];
  }

  /** The fields the soundness of a state looks at. */
  lemma SameSound(s: State, t: State)
    requires Sound(s) && t == s.(timer := t.timer, accepting := t.accepting, failure := t.failure)
        && (t.failure.None? ==> s.failure.None?)
    ensures Sound(t)
  {
    assert All(t) == All(s) && Flying(t) == Flying(s);
  }

  // ---- Flushing ------------------------------------------------------------------------------

  lemma FlushKeepsCount(s: State)
    requires Counted(s) && s.flight.None? && s.queue != []
    ensures Counted(StartFlush(s))
  {
    var n := BatchSize(s.queue);
    BatchIsLongestCapped(s.queue);
    assert s.queue == s.queue[..n] + s.queue[n..];
    BytesOfConcat(s.queue[..n], s.queue[n..]);
  }

  lemma FlushKeepsOrder(s: State)
    ensures All(StartFlush(s)) == All(s)
  {
    if StartFlush(s) != s {
      var n := BatchSize(s.queue);
      hide Concat, BatchEnd;
      var before, taken, rest := Concat(s.batches), s.queue[..n], s.queue[n..];
      ConcatAppend(s.batches, taken);
      assert taken + rest == s.queue;
      assert (before + taken) + rest == before + (taken + rest);
    }
  }

  lemma FlushKeepsBatches(s: State)
    requires Batched(s)
    ensures Batched(StartFlush(s))
  {
    if StartFlush(s) != s { BatchIsLongestCapped(s.queue); }
  }

  /** Only released message ends are handed over: with none pending, no queued event is deferred. */
  lemma FlushKeepsWaiting(s: State)
    requires Waiting(s)
    ensures Waiting(StartFlush(s))
  {
    if StartFlush(s) != s {
      var n := BatchSize(s.queue);
      ConcatAppend(s.batches, s.queue[..n]);
      assert forall e :: e in s.queue[n..] ==> e in s.queue;
      assert forall e :: e in s.queue[..n] ==> e in s.queue;
    }
  }

  lemma StartFlushKeeps(s: State)
    requires Sound(s)
    ensures Sound(StartFlush(s))
    ensures s.pending == [] && s.queue != [] ==> StartFlush(s).flight.Some?
    ensures var t := StartFlush(s);
        t == s.(timer := t.timer, queue := t.queue, flight := t.flight, batches := t.batches)
    ensures s.queue == [] || s.flight.Some? || s.pending != [] ==> StartFlush(s) == s
    ensures Held(s) ==> Held(StartFlush(s))
  {
    FlushKeepsOrder(s);
    FlushKeepsBatches(s);
    FlushKeepsWaiting(s);
    if StartFlush(s) != s { FlushKeepsCount(s); }
    hide All, Batched, Waiting, Counted, BatchSize;
  }

  lemma FlushOrScheduleKeeps(s: State)
    requires Sound(s) && (s.accepting ==> s.failure.None? && !s.stopped)
        && (s.stopped ==> s.pending == [] && (s.queue != [] ==> s.flight.Some?))
    requires (s.failure == Some(EventWriteFailed) ==> s.queue == []) && Held(s)
    ensures Inv(FlushOrSchedule(s))
  {
    hide Sound, StartFlush, Bytes;
    StartFlushKeeps(s);
    SameSound(s, ScheduleFlush(s));
  }

  // ---- Enqueueing ----------------------------------------------------------------------------

  predicate Fits(s: State, bytes: nat) { s.records + 1 <= QUEUE_MAX_RECORDS && s.bytes + bytes <= QUEUE_MAX_BYTES }

  lemma PushKeepsOrder(s: State, body: int, payload: Payload, bytes: nat)
    requires Sequenced(s) && s.failure.None?
    ensures Sequenced(Push(s, body, payload, bytes))
  {
    var e := Event(s.nextSeq, body, payload, bytes);
    hide Concat;
    assert All(Push(s, body, payload, bytes)) == All(s) + [e];
  }

  lemma PushKeepsCount(s: State, body: int, payload: Payload, bytes: nat)
    requires Counted(s) && Fits(s, bytes)
    ensures Counted(Push(s, body, payload, bytes))
  {
    var e := Event(s.nextSeq, body, payload, bytes);
    assert (s.queue + [e])[..|s.queue|] == s.queue;
  }

  /** Queued events are numbered below the next number. */
  lemma QueuedBelowNext(s: State)
    requires Sequenced(s)
    ensures forall e :: e in s.queue ==> e.seqNo < s.nextSeq
    ensures forall i, j :: 0 <= i < j < |s.queue| ==> s.queue[i].seqNo < s.queue[j].seqNo
  {
    forall i | 0 <= i < |s.queue|
      ensures s.queue[i].seqNo == |Concat(s.batches)| + i + 1 && s.queue[i].seqNo < s.nextSeq
    {
      assert All(s)[|Concat(s.batches)| + i] == s.queue[i];
    }
  }

  lemma PushKeeps(s: State, body: int, bytes: nat)
    requires Sound(s) && s.failure.None? && !s.stopped && Fits(s, bytes)
    ensures Sound(Push(s, body, Plain, bytes))
  {
    PushKeepsOrder(s, body, Plain, bytes);
    PushKeepsCount(s, body, Plain, bytes);
    QueuedBelowNext(s);
    PushPlainKeepsWaiting(s, body, bytes);
    hide Counted, Sequenced, Waiting;
  }

  lemma PendingAreQueued(s: State)
    requires Waiting(s) && Sequenced(s) && !s.stopped && !s.orphaned
    ensures forall p :: p in s.pending ==> p.seqNo < s.nextSeq
  {
    QueuedBelowNext(s);
  }

  lemma PushPlainKeepsWaiting(s: State, body: int, bytes: nat)
    requires Waiting(s) && Sequenced(s) && s.failure.None? && !s.stopped
    ensures Waiting(Push(s, body, Plain, bytes))
  {
    PendingAreQueued(s);
    hide Sequenced, Concat;
    var e := Event(s.nextSeq, body, Plain, bytes);
    var t := Push(s, body, Plain, bytes);
    assert PendingEnd(e.seqNo, e.bytes) !in s.pending;
    forall p | p in t.pending ensures exists q :: q in t.queue && q.seqNo == p.seqNo && q.bytes == p.bytes {
      var q :| q in s.queue && q.seqNo == p.seqNo && q.bytes == p.bytes;
      assert q in t.queue;
    }
  }

  lemma PushEndKeepsWaiting(s: State, body: int, bytes: nat)
    requires Waiting(s) && Sequenced(s) && s.failure.None? && !s.stopped
    ensures Waiting(Push(s, body, Deferred, bytes).(pending := s.pending + [PendingEnd(s.nextSeq, bytes)]))
  {
    PendingAreQueued(s);
    QueuedBelowNext(s);
    hide Sequenced, Concat;
    var e := Event(s.nextSeq, body, Deferred, bytes);
    var t := Push(s, body, Deferred, bytes).(pending := s.pending + [PendingEnd(s.nextSeq, bytes)]);
    NewEndIsQueued(s, t, e);
    assert forall p :: p in t.pending ==> p in s.pending || p == PendingEnd(e.seqNo, e.bytes);
    assert forall q :: q in t.queue ==> q in s.queue || q == e;
  }

  lemma NewEndIsQueued(s: State, t: State, e: Event)
    requires Waiting(s) && !s.stopped && !s.orphaned
    requires t.queue == s.queue + [e] && t.pending == s.pending + [PendingEnd(e.seqNo, e.bytes)]
    ensures forall p :: p in t.pending ==> exists q :: q in t.queue && q.seqNo == p.seqNo && q.bytes == p.bytes
  {
    hide Concat;
    forall p | p in t.pending ensures exists q :: q in t.queue && q.seqNo == p.seqNo && q.bytes == p.bytes {
      if p in s.pending {
        var q :| q in s.queue && q.seqNo == p.seqNo && q.bytes == p.bytes;
        assert q in t.queue;
      } else {
        assert e in t.queue;
      }
    }
  }

  lemma EnqueueKeeps(s: State, body: int, bytes: nat, oversized: bool)
    requires Inv(s)
    ensures Inv(Enqueue(s, body, bytes, oversized))
  {
    if s.accepting && s.failure.None? {
      if Refusal(s, bytes, oversized).Some? {
        SameSound(s, Fail(s, Refusal(s, bytes, oversized).value));
        hide Sound;
      } else {
        PushKeeps(s, body, bytes);
        FlushOrScheduleKeeps(Push(s, body, Plain, bytes));
        hide Sound, FlushOrSchedule;
      }
    }
  }

  lemma PushEndKeeps(s: State, body: int, bytes: nat)
    requires Sound(s) && s.failure.None? && !s.stopped && Fits(s, bytes)
    ensures Sound(Push(s, body, Deferred, bytes).(pending := s.pending + [PendingEnd(s.nextSeq, bytes)]))
  {
    PushKeepsOrder(s, body, Deferred, bytes);
    PushKeepsCount(s, body, Deferred, bytes);
    PushEndKeepsWaiting(s, body, bytes);
    var t := Push(s, body, Deferred, bytes);
    assert All(t.(pending := s.pending + [PendingEnd(s.nextSeq, bytes)])) == All(t);
    hide Waiting, All;
  }

  lemma OrphanedByFailure(s: State)
    requires Sound(s) && s.failure.None?
    ensures Held(s)
  {
  }

  lemma EnqueueEndKeeps(s: State, body: int, bytes: nat, oversized: bool)
    requires Inv(s)
    ensures Inv(EnqueueEnd(s, body, bytes, oversized))
  {
    hide Sound;
    var idle := s.(timer := false);
    SameSound(s, idle);
    if s.accepting && s.failure.None? {
      if Refusal(s, bytes, oversized).Some? {
        SameSound(idle, Fail(idle, Refusal(s, bytes, oversized).value));
      } else {
        PushEndKeeps(idle, body, bytes);
        OrphanedByFailure(EnqueueEnd(s, body, bytes, oversized));
      }
    }
  }

  // ---- Releasing message ends ----------------------------------------------------------------

  /** Replacing one event changes the byte count by the difference of the two. */
  lemma {:induction false} ReplaceBytes(queue: seq<Event>, i: nat, payload: Payload, bytes: nat)
    requires i < |queue| && forall j, k :: 0 <= j < k < |queue| ==> queue[j].seqNo < queue[k].seqNo
    ensures Bytes(Replace(queue, queue[i].seqNo, payload, bytes)) == Bytes(queue) + bytes - queue[i].bytes
    decreases |queue|
  {
    var last := |queue| - 1;
    var front := Replace(queue[..last], queue[i].seqNo, payload, bytes);
    assert Replace(queue, queue[i].seqNo, payload, bytes)[..last] == front;
    if i < last {
      ReplaceBytes(queue[..last], i, payload, bytes);
    } else {
      ReplaceNothing(queue[..last], queue[i].seqNo, payload, bytes);
    }
  }

  lemma ReplaceNothing(queue: seq<Event>, seqNo: nat, payload: Payload, bytes: nat)
    requires forall j :: 0 <= j < |queue| ==> queue[j].seqNo != seqNo
    ensures Replace(queue, seqNo, payload, bytes) == queue
  {
  }

  /** The queued event that the oldest message end waits as. */
  lemma OldestIsQueued(s: State) returns (i: nat)
    requires Waiting(s) && s.pending != [] && !s.stopped && !s.orphaned
    ensures i < |s.queue| && s.queue[i].seqNo == s.pending[0].seqNo && s.queue[i].bytes == s.pending[0].bytes
  {
    var p := s.pending[0];
    assert p in s.pending;
    var e :| e in s.queue && e.seqNo == p.seqNo && e.bytes == p.bytes;
    i :| 0 <= i < |s.queue| && s.queue[i] == e;
  }

  lemma ReleaseCounts(s: State, found: Found, i: nat)
    requires Counted(s) && s.pending != [] && i < |s.queue|
    requires s.queue[i].seqNo == s.pending[0].seqNo && s.queue[i].bytes == s.pending[0].bytes
    requires forall j, k :: 0 <= j < k < |s.queue| ==> s.queue[j].seqNo < s.queue[k].seqNo
    ensures Counted(ReleaseFirst(s, found))
  {
    hide Bytes, Replace, Growth, PayloadFor;
    var bytes, t := s.pending[0].bytes + Growth(found), ReleaseFirst(s, found);
    ReplaceBytes(s.queue, i, PayloadFor(found), bytes);
    ReplacedQueue(s, found);
    CountMoves(s, t, Growth(found));
  }

  lemma ReplacedQueue(s: State, found: Found)
    requires s.pending != []
    ensures var t := ReleaseFirst(s, found);
            && t.queue == Replace(s.queue, s.pending[0].seqNo, PayloadFor(found), s.pending[0].bytes + Growth(found))
            && |t.queue| == |s.queue|
            && t == s.(queue := t.queue, bytes := s.bytes + Growth(found), pending := t.pending)
  {
    hide Replace, Growth, PayloadFor;
  }

  lemma CountMoves(s: State, t: State, growth: nat)
    requires Counted(s) && t == s.(queue := t.queue, bytes := s.bytes + growth, pending := t.pending)
    requires |t.queue| == |s.queue| && Bytes(t.queue) == Bytes(s.queue) + growth
    ensures Counted(t)
  {
    hide Bytes;
  }

  lemma ReleaseKeepsCount(s: State, found: Found)
    requires Sound(s) && s.pending != [] && !s.stopped
    ensures Counted(ReleaseFirst(s, found))
  {
    if !s.orphaned {
      hide Counted, Sequenced, Waiting, ReleaseFirst;
      QueuedBelowNext(s);
      var i := OldestIsQueued(s);
      ReleaseCounts(s, found, i);
    }
  }

  lemma ReleaseKeepsOrder(s: State, found: Found)
    requires Sequenced(s) && s.pending != []
    ensures Sequenced(ReleaseFirst(s, found))
  {
    hide Concat;
    var t := ReleaseFirst(s, found);
    forall i | 0 <= i < |All(t)| ensures All(t)[i].seqNo == All(s)[i].seqNo && All(t)[i].body == All(s)[i].body {
      if i >= |Concat(s.batches)| { assert All(t)[i] == t.queue[i - |Concat(s.batches)|]; }
    }
  }

  lemma ReleaseKeepsPending(s: State, found: Found)
    requires Waiting(s) && s.pending != [] && !s.stopped && !s.orphaned
    ensures var t := ReleaseFirst(s, found);
            forall q :: q in t.pending ==> exists e :: e in t.queue && e.seqNo == q.seqNo && e.bytes == q.bytes
  {
    hide Concat;
    var t, p := ReleaseFirst(s, found), s.pending[0];
    forall q | q in t.pending ensures exists e :: e in t.queue && e.seqNo == q.seqNo && e.bytes == q.bytes {
      assert q in s.pending && q.seqNo != p.seqNo;
      var e :| e in s.queue && e.seqNo == q.seqNo && e.bytes == q.bytes;
      var i :| 0 <= i < |s.queue| && s.queue[i] == e;
      assert t.queue[i] == e && e in t.queue;
    }
  }

  lemma ReleaseKeepsDeferred(s: State, found: Found)
    requires Waiting(s) && s.pending != [] && !s.stopped && !s.orphaned
    ensures var t := ReleaseFirst(s, found);
            forall e :: e in t.queue ==> (e.payload.Deferred? <==> PendingEnd(e.seqNo, e.bytes) in t.pending)
  {
    hide Concat;
    var t, p := ReleaseFirst(s, found), s.pending[0];
    assert forall q :: q in t.pending ==> q in s.pending && q.seqNo != p.seqNo;
    assert forall q :: q in s.pending ==> q == p || q in t.pending;
    forall e | e in t.queue ensures e.payload.Deferred? <==> PendingEnd(e.seqNo, e.bytes) in t.pending {
      var i :| 0 <= i < |t.queue| && t.queue[i] == e;
      assert s.queue[i] in s.queue;
    }
  }

  lemma ReleaseKeepsWaiting(s: State, found: Found)
    requires Waiting(s) && s.pending != [] && !s.stopped
    ensures Waiting(ReleaseFirst(s, found))
  {
    hide Concat;
    if !s.orphaned {
      ReleaseKeepsPending(s, found);
      ReleaseKeepsDeferred(s, found);
    }
  }

  lemma {:induction false} ReleaseAllKeeps(s: State, found: seq<Found>)
    requires Sound(s) && |found| == |s.pending| && (s.stopped ==> s.pending == [])
    ensures Sound(ReleaseAll(s, found)) && ReleaseAll(s, found).pending == []
    ensures var t := ReleaseAll(s, found);
        t == s.(queue := t.queue, bytes := t.bytes, pending := [])
        && |t.queue| == |s.queue|
    decreases |found|
  {
    if found != [] {
      ReleaseKeepsCount(s, found[0]);
      ReleaseKeepsOrder(s, found[0]);
      ReleaseKeepsWaiting(s, found[0]);
      hide Counted, Sequenced, Waiting;
      ReleaseAllKeeps(ReleaseFirst(s, found[0]), found[1..]);
    }
  }

  lemma SynchronizeKeeps(s: State, found: seq<Found>)
    requires Inv(s) && |found| == |s.pending|
    ensures Inv(Synchronize(s, found))
  {
    hide Sound, FlushOrSchedule;
    ReleaseAllKeeps(s, found);
    FlushOrScheduleKeeps(ReleaseAll(s, found));
  }

  // ---- Writes, the timer and the stop --------------------------------------------------------

  /** A failed write drops the queue, which leaves the events handed over: a prefix of those accepted. */
  lemma DropKeeps(s: State, code: Code)
    requires Sound(s) && s.flight.Some?
    ensures Sound(DropQueue(Fail(s, code)))
  {
    var t := DropQueue(Fail(s, code));
    forall i | 0 <= i < |All(t)| ensures All(t)[i] == All(s)[i] {}
  }

  lemma LandKeeps(s: State)
    requires Sound(s) && s.flight.Some?
    ensures Sound(s.(records := s.records - |s.flight.value|, bytes := s.bytes - Bytes(s.flight.value), flight := None))
  {
    var t := s.(records := s.records - |s.flight.value|, bytes := s.bytes - Bytes(s.flight.value), flight := None);
    assert All(t) == All(s);
  }

  lemma LandHolds(s: State, error: Option<Code>)
    requires Inv(s) && s.flight.Some?
    ensures var kept := if error.Some? then DropQueue(Fail(s, error.value)) else s;
            Held(kept.(
              records := kept.records - |s.flight.value|, bytes := kept.bytes - Bytes(s.flight.value), flight := None))
  {
    hide Concat, Capped;
  }

  lemma SettleKeeps(s: State, error: Option<Code>)
    requires Inv(s) && s.flight.Some?
    ensures Inv(Settle(s, error))
    ensures |Settle(s, error).queue| < |s.queue| || Settle(s, error).flight.None?
  {
    hide Sound, Held;
    var kept := if error.Some? then DropQueue(Fail(s, error.value)) else s;
    if error.Some? { DropKeeps(s, error.value); }
    LandKeeps(kept);
    LandHolds(s, error);
    var done := kept.(
      records := kept.records - |s.flight.value|, bytes := kept.bytes - Bytes(s.flight.value), flight := None);
    StartFlushKeeps(done);
    if done.queue != [] { BatchIsLongestCapped(done.queue); }
  }

  lemma TimerFiresKeeps(s: State)
    requires Inv(s)
    ensures Inv(TimerFires(s))
  {
    hide Sound;
    SameSound(s, s.(timer := false));
    StartFlushKeeps(s.(timer := false));
  }

  lemma StopKeeps(s: State, turnActive: bool)
    requires Inv(s)
    ensures Inv(Stop(s, turnActive)) && Stop(s, turnActive).stopped && !Stop(s, turnActive).accepting
  {
    if !s.stopped {
      var failed := if turnActive then Fail(s, TurnInterrupted) else s;
      var t := failed.(accepting := false, stopped := true, pending := [], timer := false);
      assert All(t) == All(s) && Flying(t) == Flying(s);
      assert Sound(t) by { hide Concat, Capped; }
      hide Sound;
      StartFlushKeeps(t);
    }
  }

  // ---- What it means -------------------------------------------------------------------------

  /** Until a capture failure, the batches handed over and then the queue are the accepted events, numbered from 1. */
  lemma BatchesThenQueueAreTheHistory(s: State)
    requires Inv(s) && s.failure.None?
    ensures var all := Concat(s.batches) + s.queue;
            && |all| == |s.history|
            && (forall i :: 0 <= i < |all| ==> all[i].seqNo == i + 1 && all[i].body == s.history[i])
  {
  }

  /** Everything handed over is older than every message end that still waits. */
  lemma NothingPastAWaitingEnd(s: State)
    requires Inv(s) && !s.orphaned
    ensures forall e, p :: e in Concat(s.batches) && p in s.pending ==> e.seqNo < p.seqNo
  {
    if !s.stopped {
      forall e, p | e in Concat(s.batches) && p in s.pending ensures e.seqNo < p.seqNo {
        var q :| q in s.queue && q.seqNo == p.seqNo && q.bytes == p.bytes;
        var i :| 0 <= i < |Concat(s.batches)| && Concat(s.batches)[i] == e;
        var j :| 0 <= j < |s.queue| && s.queue[j] == q;
        assert All(s)[i] == e && All(s)[|Concat(s.batches)| + j] == q;
      }
    }
  }

  function Growths(found: seq<Found>): nat { if found == [] then 0 else Growth(found[0]) + Growths(found[1..]) }

  /** No released message end claims an entry. */
  predicate NoneClaimed(found: seq<Found>) { forall f :: f in found ==> f.NoEntry? }

  lemma {:induction false} GrowthsIff(found: seq<Found>)
    ensures Growths(found) == 0 <==> NoneClaimed(found)
  {
    if found != [] {
      GrowthsIff(found[1..]);
      assert found[0] in found && forall f :: f in found[1..] ==> f in found;
      assert forall f :: f in found ==> f == found[0] || f in found[1..];
    }
  }

  lemma {:induction false} ReleaseMovesBytes(s: State, found: seq<Found>)
    requires |found| == |s.pending|
    ensures ReleaseAll(s, found).bytes == s.bytes + Growths(found)
    ensures s.queue == [] ==> ReleaseAll(s, found).queue == []
    decreases |found|
  {
    if found != [] {
      hide Replace, Growth, PayloadFor;
      ReplacedQueue(s, found[0]);
      ReleaseMovesBytes(ReleaseFirst(s, found[0]), found[1..]);
    }
  }

  /**
   * A failed write dropped the queue, and message ends waited: the synchronization that releases them leaves nothing
   * queued and the byte count right if and only if none of them claims an entry.
   */
  lemma BytesStayExactlyWithoutEntries(s: State, found: seq<Found>)
    requires Inv(s) && s.orphaned && s.pending != [] && |found| == |s.pending|
    ensures var after := Synchronize(s, found);
            && after.queue == [] && after.flight == s.flight
            && (after.bytes == Bytes(after.queue) + Bytes(Flying(after)) <==> NoneClaimed(found))
  {
    ReleaseMovesBytes(s, found);
    ReleaseAllKeeps(s, found);
    GrowthsIff(found);
    assert s.queue == [] && s.bytes == Bytes(s.queue) + Bytes(Flying(s));
    hide Inv, ReleaseAll, Growths, NoneClaimed;
  }

  /**
   * A write fails while message ends wait, and a synchronization then releases them: nothing is queued or in flight,
   * and the byte count is right, which is 0, if and only if none of them claims an entry; else it is too large.
   */
  lemma BytesRightAfterAFailedWriteIff(s: State, error: Code, found: seq<Found>)
    requires Inv(s) && !s.orphaned && s.flight.Some? && |found| == |s.pending|
    ensures var failed := Settle(s, Some(error));
            && failed.pending == s.pending && failed.queue == [] && failed.flight.None? && failed.bytes == 0
            && var after := Synchronize(failed, found);
               && after.queue == [] && after.flight.None? && after.bytes >= 0
               && (after.bytes == Bytes(after.queue) + Bytes(Flying(after)) <==> NoneClaimed(found))
  {
    SettleKeeps(s, Some(error));
    var failed := Settle(s, Some(error));
    assert failed.pending == s.pending && failed.queue == [] && failed.flight.None?
        && failed.bytes == 0 by { hide Concat; }
    ReleaseMovesBytes(failed, found);
    if s.pending == [] {
      assert Synchronize(failed, found) == ScheduleFlush(failed);
    } else {
      assert failed.orphaned;
      assert Synchronize(failed, found).bytes == ReleaseAll(failed, found).bytes;
      hide Inv, Settle, Synchronize;
      BytesStayExactlyWithoutEntries(failed, found);
    }
  }

  /**
   * The byte count can be wrong after a failed write: releasing a message end that the failure dropped still adjusts
   * it.
   */
  lemma BytesDriftAfterAFailedWrite()
    ensures var sent := TimerFires(Enqueue(EMPTY, 0, 10, false));
            var held := EnqueueEnd(sent, 1, 20, false);
            sent.flight.Some? && held.flight.Some? && |held.pending| == 1
            && var failed := Settle(held, Some(EventWriteFailed));
               |failed.pending| == 1
               && var after := Synchronize(failed, [Claimed(0, 8)]);
                  after.queue == [] && after.flight.None? && after.bytes == 20
  {
    var queued := Enqueue(EMPTY, 0, 10, false);
    var e := Event(1, 0, Plain, 10);
    assert Bytes([e]) == 10 by { assert [e][..0] == []; }
    assert Push(EMPTY, 0, Plain, 10).queue == [Event(1, 0, Plain, 10)];
    assert Bytes(Push(EMPTY, 0, Plain, 10).queue) == 10;
    assert queued.queue == [e] && queued.timer;
    assert BatchSize(queued.queue) == 1;
    assert queued.queue[..1] == [e] && queued.queue[1..] == [] && queued.pending == [] && queued.flight.None?;
    var sent := TimerFires(queued);
    assert sent == StartFlush(queued.(timer := false));
    assert sent.flight == Some([Event(1, 0, Plain, 10)]) && sent.queue == [];
    var held := EnqueueEnd(sent, 1, 20, false);
    assert held.queue == [Event(2, 1, Deferred, 20)] && held.pending == [PendingEnd(2, 20)] && held.bytes == 30;
    var failed := Settle(held, Some(EventWriteFailed));
    assert failed.queue == [] && failed.pending == [PendingEnd(2, 20)] && failed.bytes == 0;
    assert ReleaseAll(failed, [Claimed(0, 8)]) == ReleaseFirst(failed, Claimed(0, 8));
  }
}
