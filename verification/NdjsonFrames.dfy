/** Newline-delimited frames: the decoder keeps what follows the last newline and emits the rest line by line. */
module NdjsonFrames {
  newtype byte = x: int | 0 <= x < 256

  const NEWLINE: byte := 10

  datatype Option<+T> = None | Some(value: T)

  // ---- Lines ---------------------------------------------------------------------------------

  /** The first newline's position, or the length where there is none. */
  function IndexOf(s: seq<byte>): (i: nat)
    ensures i <= |s| && NEWLINE !in s[..i] && (i < |s| ==> s[i] == NEWLINE)
  {
    if s == [] || s[0] == NEWLINE then 0
    else
      assert s == [s[0]] + s[1..];
      1 + IndexOf(s[1..])
  }

  /** The lines a newline ends. */
  function Lines(s: seq<byte>): seq<seq<byte>>
    decreases |s|
  {
    var i := IndexOf(s);
    if i == |s| then [] else [s[..i]] + Lines(s[i + 1..])
  }

  /** What follows the last newline. */
  function Tail(s: seq<byte>): seq<byte>
    decreases |s|
  {
    var i := IndexOf(s);
    if i == |s| then s else Tail(s[i + 1..])
  }

  function NonEmpty(lines: seq<seq<byte>>): seq<seq<byte>> {
    if lines == [] then [] else (if lines[0] == [] then [] else [lines[0]]) + NonEmpty(lines[1..])
  }

  lemma {:induction false} NonEmptyConcat(a: seq<seq<byte>>, b: seq<seq<byte>>)
    ensures NonEmpty(a + b) == NonEmpty(a) + NonEmpty(b)
    decreases |a|
  {
    if a == [] {
      assert a + b == b;
    } else {
      assert (a + b)[1..] == a[1..] + b;
      NonEmptyConcat(a[1..], b);
    }
  }

  lemma {:induction false} IndexOfIs(s: seq<byte>, i: nat)
    requires i <= |s| && NEWLINE !in s[..i] && (i < |s| ==> s[i] == NEWLINE)
    ensures IndexOf(s) == i
  {
    if i > 0 {
      assert s[0] in s[..i];
      assert s[1..][..i - 1] == s[..i][1..];
      IndexOfIs(s[1..], i - 1);
    }
  }

  lemma NoLineEnds(s: seq<byte>)
    requires IndexOf(s) == |s|
    ensures Lines(s) == [] && Tail(s) == s
  {
    hide IndexOf;
  }

  lemma OneLineEnds(s: seq<byte>, i: nat)
    requires i == IndexOf(s) < |s|
    ensures Lines(s) == [s[..i]] + Lines(s[i + 1..])
  {
    hide IndexOf;
  }

  lemma TailGoesOn(s: seq<byte>, i: nat)
    requires i == IndexOf(s) < |s|
    ensures Tail(s) == Tail(s[i + 1..])
  {
    hide IndexOf, Lines;
  }

  lemma LinesAt(s: seq<byte>, i: nat)
    requires i == IndexOf(s)
    ensures i == |s| ==> Lines(s) == [] && Tail(s) == s
    ensures i < |s| ==> Lines(s) == [s[..i]] + Lines(s[i + 1..]) && Tail(s) == Tail(s[i + 1..])
  {
    hide *;
    if i == |s| {
      NoLineEnds(s);
    } else {
      OneLineEnds(s, i);
      TailGoesOn(s, i);
    }
  }

  lemma Associates<T>(a: seq<T>, b: seq<T>, c: seq<T>)
    ensures a + (b + c) == (a + b) + c
  {
  }

  /** Reading on from the tail gives the same lines as reading it all at once. */
  lemma {:induction false} LinesConcat(a: seq<byte>, b: seq<byte>)
    ensures Lines(a + b) == Lines(a) + Lines(Tail(a) + b) && Tail(a + b) == Tail(Tail(a) + b)
    decreases |a|
  {
    hide Lines, Tail, IndexOf;
    var i := IndexOf(a);
    LinesAt(a, i);
    if i < |a| {
      assert (a + b)[..i] == a[..i] && (a + b)[i] == a[i];
      IndexOfIs(a + b, i);
      LinesAt(a + b, i);
      assert (a + b)[i + 1..] == a[i + 1..] + b;
      LinesConcat(a[i + 1..], b);
      Associates([a[..i]], Lines(a[i + 1..]), Lines(Tail(a) + b));
    }
  }

  /** A line and its newline fit the limit. */
  predicate Fits(line: seq<byte>, limit: nat) { line == [] || |line| + 1 <= limit }

  ghost predicate AllFit(lines: seq<seq<byte>>, limit: nat) { forall l :: l in lines ==> Fits(l, limit) }

  // ---- The decoder ---------------------------------------------------------------------------

  /** What makes a push throw: no end in sight beyond the limit, or a line over it. */
  ghost predicate Overflows(bytes: seq<byte>, limit: nat) {
    (|bytes| > limit && NEWLINE !in bytes) || !AllFit(Lines(bytes), limit)
  }

  lemma NonEmptyCons(line: seq<byte>, rest: seq<seq<byte>>)
    ensures NonEmpty([line] + rest) == (if line == [] then [] else [line]) + NonEmpty(rest)
  {
    assert ([line] + rest)[1..] == rest;
  }

  lemma AllFitCons(line: seq<byte>, rest: seq<seq<byte>>, limit: nat)
    ensures AllFit([line] + rest, limit) <==> Fits(line, limit) && AllFit(rest, limit)
  {
    assert ([line] + rest)[0] == line;
    forall l ensures l in [line] + rest <==> l == line || l in rest {}
  }

  /** The decoder's loop has `emitted` so far and still has `left` of `bytes` to read. */
  ghost predicate Drained(bytes: seq<byte>, emitted: seq<seq<byte>>, left: seq<byte>, limit: nat) {
    && NonEmpty(Lines(bytes)) == emitted + NonEmpty(Lines(left))
    && Tail(bytes) == Tail(left)
    && (AllFit(Lines(bytes), limit) <==> AllFit(Lines(left), limit))
  }

  lemma DrainStarts(bytes: seq<byte>, limit: nat)
    ensures Drained(bytes, [], bytes, limit)
  {
    assert [] + NonEmpty(Lines(bytes)) == NonEmpty(Lines(bytes));
  }

  lemma FirstLine(s: seq<byte>, limit: nat)
    requires IndexOf(s) < |s|
    ensures var i := IndexOf(s);
            && NonEmpty(Lines(s)) == (if i == 0 then [] else [s[..i]]) + NonEmpty(Lines(s[i + 1..]))
            && Tail(s) == Tail(s[i + 1..])
            && (AllFit(Lines(s), limit) <==> Fits(s[..i], limit) && AllFit(Lines(s[i + 1..]), limit))
  {
    var i := IndexOf(s);
    var line, rest := s[..i], Lines(s[i + 1..]);
    LinesAt(s, i);
    hide Lines, Tail, NonEmpty, AllFit, Fits, IndexOf;
    NonEmptyCons(line, rest);
    AllFitCons(line, rest, limit);
  }

  /** One turn takes the first line off, or finds it over the limit. */
  lemma DrainStep(bytes: seq<byte>, emitted: seq<seq<byte>>, left: seq<byte>, limit: nat)
    requires Drained(bytes, emitted, left, limit) && IndexOf(left) < |left|
    ensures var i := IndexOf(left);
            if !Fits(left[..i], limit) then !AllFit(Lines(bytes), limit)
            else Drained(bytes, emitted + (if i == 0 then [] else [left[..i]]), left[i + 1..], limit)
  {
    hide Lines, Tail, NonEmpty, AllFit, Fits, IndexOf;
    FirstLine(left, limit);
    var i := IndexOf(left);
    Associates(emitted, if i == 0 then [] else [left[..i]], NonEmpty(Lines(left[i + 1..])));
  }

  lemma DrainEnds(bytes: seq<byte>, emitted: seq<seq<byte>>, left: seq<byte>, limit: nat)
    requires Drained(bytes, emitted, left, limit) && IndexOf(left) == |left|
    ensures emitted == NonEmpty(Lines(bytes)) && left == Tail(bytes) && AllFit(Lines(bytes), limit)
  {
    assert Lines(left) == [];
    assert emitted + [] == emitted;
  }

  class NdjsonFrameDecoder {
    var buffered: seq<byte>
    const maxMessageBytes: nat

    constructor (limit: nat)
      ensures buffered == [] && maxMessageBytes == limit
    {
      buffered, maxMessageBytes := [], limit;
    }

    /** Take in a chunk; the frames it completes, or None where the decoder throws. */
    method Push(chunk: seq<byte>) returns (frames: Option<seq<seq<byte>>>)
      modifies this`buffered
      ensures frames.None? <==> Overflows(old(buffered) + chunk, maxMessageBytes)
      ensures frames.Some? ==>
          frames.value == NonEmpty(Lines(old(buffered) + chunk))
          && buffered == Tail(old(buffered) + chunk)
    {
      buffered := buffered + chunk;
      ghost var bytes := buffered;
      if |buffered| > maxMessageBytes && NEWLINE !in buffered { return None; }
      var emitted: seq<seq<byte>> := [];
      hide Lines, Tail, NonEmpty, AllFit, Drained;
      DrainStarts(bytes, maxMessageBytes);
      while true
        invariant Drained(bytes, emitted, buffered, maxMessageBytes)
        decreases |buffered|
      {
        var newline := IndexOf(buffered);
        if newline == |buffered| { break; }
        DrainStep(bytes, emitted, buffered, maxMessageBytes);
        var frame := buffered[..newline];
        buffered := buffered[newline + 1..];
        if |frame| == 0 {
          assert emitted + [] == emitted;
          continue;
        }
        if |frame| + 1 > maxMessageBytes { return None; }
        emitted := emitted + [frame];
      }
      DrainEnds(bytes, emitted, buffered, maxMessageBytes);
      frames := Some(emitted);
    }
  }

  // ---- Whole streams -------------------------------------------------------------------------

  function Concat(chunks: seq<seq<byte>>): seq<byte> {
    if chunks == [] then [] else Concat(chunks[..|chunks| - 1]) + chunks[|chunks| - 1]
  }

  lemma {:induction false} NoNewlineInTail(s: seq<byte>)
    ensures NEWLINE !in Tail(s) && |Tail(s)| <= |s| && s[|s| - |Tail(s)|..] == Tail(s)
    ensures NEWLINE in s <==> |Tail(s)| < |s|
    decreases |s|
  {
    var i := IndexOf(s);
    LinesAt(s, i);
    if i < |s| { NoNewlineInTail(s[i + 1..]); }
    assert s[..|s|] == s;
  }

  lemma TailOf(s: seq<byte>)
    requires NEWLINE !in s
    ensures Lines(s) == [] && Tail(s) == s
  {
    IndexOfIs(s, |s|);
  }

  /** Chunk i ends a line, or what is unfinished with it still fits the limit. */
  ghost predicate Room(chunks: seq<seq<byte>>, i: nat, limit: nat)
    requires i < |chunks|
  {
    NEWLINE in chunks[i] || |Tail(Concat(chunks[..i]))| + |chunks[i]| <= limit
  }

  /** The streams cut this way that no push refuses. */
  ghost predicate Accepted(chunks: seq<seq<byte>>, limit: nat) {
    AllFit(Lines(Concat(chunks)), limit) && forall i :: 0 <= i < |chunks| ==> Room(chunks, i, limit)
  }

  lemma {:induction false} ConcatSplits(chunks: seq<seq<byte>>, i: nat)
    requires i <= |chunks|
    ensures Concat(chunks) == Concat(chunks[..i]) + Concat(chunks[i..])
    decreases |chunks|
  {
    if i == |chunks| {
      assert chunks[..i] == chunks;
    } else {
      var front := chunks[..|chunks| - 1];
      ConcatSplits(front, i);
      assert front[..i] == chunks[..i] && chunks[i..][..|chunks| - i - 1] == front[i..];
    }
  }

  /** The lines of the whole are those before a chunk, those it ends, and the rest. */
  lemma LinesAround(chunks: seq<seq<byte>>, i: nat)
    requires i < |chunks|
    ensures var before, rest := Concat(chunks[..i]), Concat(chunks[i + 1..]);
            var now := Tail(before) + chunks[i];
            && Concat(chunks[..i + 1]) == before + chunks[i]
            && Lines(Concat(chunks)) == Lines(before) + Lines(now) + Lines(Tail(now) + rest)
            && Tail(Concat(chunks)) == Tail(Tail(now) + rest)
  {
    var before, rest := Concat(chunks[..i]), Concat(chunks[i + 1..]);
    assert chunks[..i + 1][..i] == chunks[..i];
    ConcatSplits(chunks, i + 1);
    LinesConcat(before + chunks[i], rest);
    LinesConcat(before, chunks[i]);
  }

  /** A push throws if and only if a line it ends is over the limit, or its chunk has no room. */
  lemma OverflowsMeans(chunks: seq<seq<byte>>, i: nat, limit: nat)
    requires i < |chunks|
    ensures var now := Tail(Concat(chunks[..i])) + chunks[i];
            Overflows(now, limit) <==> !AllFit(Lines(now), limit) || !Room(chunks, i, limit)
  {
    hide Lines, Tail, AllFit, Concat;
    NoNewlineInTail(Concat(chunks[..i]));
  }

  lemma NothingDecoded()
    ensures Concat([]) == [] && Lines([]) == [] && Tail([]) == [] && NonEmpty([]) == []
    ensures forall limit :: AllFit([], limit)
  {
  }

  /** Decode a stream that arrives in chunks; None where some push throws. */
  method Decode(chunks: seq<seq<byte>>, limit: nat) returns (frames: Option<seq<seq<byte>>>)
    ensures frames.Some? <==> Accepted(chunks, limit)
    ensures frames.Some? ==> frames.value == NonEmpty(Lines(Concat(chunks)))
  {
    hide Lines, Tail, NonEmpty;
    var decoder := new NdjsonFrameDecoder(limit);
    var emitted: seq<seq<byte>> := [];
    NothingDecoded();
    for i := 0 to |chunks|
      invariant fresh(decoder) && decoder.maxMessageBytes == limit
      invariant emitted == NonEmpty(Lines(Concat(chunks[..i]))) && decoder.buffered == Tail(Concat(chunks[..i]))
      invariant AllFit(Lines(Concat(chunks[..i])), limit) && forall j :: 0 <= j < i ==> Room(chunks, j, limit)
    {
      var before := Concat(chunks[..i]);
      LinesAround(chunks, i);
      OverflowsMeans(chunks, i, limit);
      LinesConcat(before, chunks[i]);
      NonEmptyConcat(Lines(before), Lines(Tail(before) + chunks[i]));
      hide Overflows, Room, Concat;
      var more := decoder.Push(chunks[i]);
      if more.None? { return None; }
      emitted := emitted + more.value;
    }
    assert chunks[..|chunks|] == chunks;
    frames := Some(emitted);
  }

  // ---- What the cuts decide ------------------------------------------------------------------

  /** A prefix that holds no newline belongs to a line or to the tail of the whole. */
  lemma UnfinishedBelongs(a: seq<byte>, b: seq<byte>)
    requires NEWLINE !in a
    ensures if NEWLINE in b then Lines(a + b) != [] && |a| <= |Lines(a + b)[0]| else Tail(a + b) == a + b
  {
    var i := IndexOf(b);
    assert (a + b)[..|a| + i] == a + b[..i];
    IndexOfIs(a + b, |a| + i);
  }

  /** Where every line and the unfinished end fit, every chunk has room. */
  lemma RoomForAll(chunks: seq<seq<byte>>, i: nat, limit: nat)
    requires i < |chunks| && AllFit(Lines(Concat(chunks)), limit) && |Tail(Concat(chunks))| <= limit
    ensures Room(chunks, i, limit)
  {
    if NEWLINE !in chunks[i] {
      var now, rest := Tail(Concat(chunks[..i])) + chunks[i], Concat(chunks[i + 1..]);
      LinesAround(chunks, i);
      NoNewlineInTail(Concat(chunks[..i]));
      TailOf(now);
      UnfinishedBelongs(now, rest);
      if NEWLINE in rest {
        var l := Lines(now + rest)[0];
        assert l in Lines(Concat(chunks)) && Fits(l, limit);
      }
    }
  }

  /** A stream with no newline that is over the limit is refused however it is cut. */
  lemma {:induction false} OneLongLineIsRefused(chunks: seq<seq<byte>>, limit: nat)
    requires NEWLINE !in Concat(chunks) && |Concat(chunks)| > limit
    ensures !Accepted(chunks, limit)
  {
    var last := |chunks| - 1;
    assert Concat(chunks) == Concat(chunks[..last]) + chunks[last];
    forall b | b in Concat(chunks[..last]) || b in chunks[last] ensures b in Concat(chunks) {}
    TailOf(Concat(chunks[..last]));
    assert !Room(chunks, last, limit);
  }

  lemma OneChunk(s: seq<byte>, limit: nat)
    ensures Concat([s]) == s
    ensures Accepted([s], limit) <==> AllFit(Lines(s), limit) && (NEWLINE in s || |s| <= limit)
  {
    assert [s][..0] == [] && [] + s == s;
    TailOf([]);
    assert Room([s], 0, limit) <==> NEWLINE in s || |s| <= limit;
  }

  lemma TwoChunks(a: seq<byte>, b: seq<byte>)
    ensures [a, b][..1] == [a] && Concat([a]) == a && Concat([a, b]) == a + b
  {
    assert [a][..0] == [] && [] + a == a;
    assert [a, b][..1] == [a];
  }

  /** A chunk that ends no line has no room if it is over the limit by itself. */
  lemma NoRoom(a: seq<byte>, b: seq<byte>, limit: nat)
    requires NEWLINE !in b && |b| > limit
    ensures !Accepted([a, b], limit)
  {
    hide Lines, Tail, Concat, AllFit;
    assert !Room([a, b], 1, limit);
  }

  /** Cut before its unfinished end, a stream is accepted only if that end fits. */
  lemma CutBeforeTheTail(s: seq<byte>, limit: nat)
    requires |Tail(s)| > limit
    ensures exists chunks :: Concat(chunks) == s && !Accepted(chunks, limit)
  {
    hide Tail, Concat, Accepted;
    NoNewlineInTail(s);
    var k := |s| - |Tail(s)|;
    TwoChunks(s[..k], s[k..]);
    NoRoom(s[..k], s[k..], limit);
    assert s[..k] + s[k..] == s;
  }

  /** No cut of a stream is refused exactly when its lines and its unfinished end fit the limit. */
  lemma AlwaysAcceptedIff(s: seq<byte>, limit: nat)
    ensures (forall chunks :: Concat(chunks) == s ==> Accepted(chunks, limit))
            <==> AllFit(Lines(s), limit) && |Tail(s)| <= limit
  {
    OneChunk(s, limit);
    if |Tail(s)| > limit {
      CutBeforeTheTail(s, limit);
    } else if AllFit(Lines(s), limit) {
      forall chunks | Concat(chunks) == s ensures Accepted(chunks, limit) {
        forall i | 0 <= i < |chunks| ensures Room(chunks, i, limit) { RoomForAll(chunks, i, limit); }
      }
    }
  }

  /** Every cut of a stream is refused exactly when a line does not fit, or the one unfinished line it consists of. */
  lemma NeverAcceptedIff(s: seq<byte>, limit: nat)
    ensures (forall chunks :: Concat(chunks) == s ==> !Accepted(chunks, limit))
            <==> !AllFit(Lines(s), limit) || (NEWLINE !in s && |s| > limit)
  {
    OneChunk(s, limit);
    forall chunks | Concat(chunks) == s && NEWLINE !in s && |s| > limit ensures !Accepted(chunks, limit) {
      OneLongLineIsRefused(chunks, limit);
    }
  }

  /**
   * The cuts alone decide exactly when all lines fit, at least one is ended, and the unfinished end is over the limit.
   */
  lemma DependsOnCutsIff(s: seq<byte>, limit: nat)
    ensures (exists a, b :: Concat(a) == s && Concat(b) == s && Accepted(a, limit) && !Accepted(b, limit))
            <==> AllFit(Lines(s), limit) && NEWLINE in s && |Tail(s)| > limit
  {
    hide AllFit, Accepted, Concat, Lines;
    AlwaysAcceptedIff(s, limit);
    NeverAcceptedIff(s, limit);
    NoNewlineInTail(s);
    if AllFit(Lines(s), limit) && NEWLINE in s && |Tail(s)| > limit {
      var a :| Concat(a) == s && Accepted(a, limit);
      var b :| Concat(b) == s && !Accepted(b, limit);
    }
  }

  // ---- Frames round trip ---------------------------------------------------------------------

  /** A message's frame, or None where it is over the limit. Canonical JSON is not empty and holds no raw newline. */
  function EncodeFrame(json: seq<byte>, limit: nat): Option<seq<byte>> {
    if |json| + 1 > limit then None else Some(json + [NEWLINE])
  }

  function Stream(messages: seq<seq<byte>>): seq<byte> {
    if messages == [] then [] else Stream(messages[..|messages| - 1]) + (messages[|messages| - 1] + [NEWLINE])
  }

  lemma FrameLines(message: seq<byte>)
    requires message != [] && NEWLINE !in message
    ensures Lines([] + (message + [NEWLINE])) == [message] && Tail([] + (message + [NEWLINE])) == []
        && NonEmpty([message]) == [message]
  {
    var frame := message + [NEWLINE];
    assert [] + frame == frame;
    assert frame[..|message|] == message && frame[|message| + 1..] == [];
    IndexOfIs(frame, |message|);
  }

  lemma {:induction false} StreamLines(messages: seq<seq<byte>>)
    requires forall m :: m in messages ==> m != [] && NEWLINE !in m
    ensures Lines(Stream(messages)) == messages && Tail(Stream(messages)) == [] && NonEmpty(messages) == messages
    decreases |messages|
  {
    if messages != [] {
      hide Lines, Tail, NonEmpty, IndexOf;
      var rest, last := messages[..|messages| - 1], messages[|messages| - 1];
      assert messages == rest + [last];
      forall m | m in rest ensures m in messages {}
      StreamLines(rest);
      LinesConcat(Stream(rest), last + [NEWLINE]);
      FrameLines(last);
      NonEmptyConcat(rest, [last]);
    }
  }

  /** Whatever the chunks, a stream of encoded frames decodes to its messages. */
  method RoundTrip(messages: seq<seq<byte>>, chunks: seq<seq<byte>>, limit: nat)
      returns (frames: Option<seq<seq<byte>>>)
    requires forall m :: m in messages ==> m != [] && NEWLINE !in m && EncodeFrame(m, limit) == Some(m + [NEWLINE])
    requires Concat(chunks) == Stream(messages)
    ensures frames == Some(messages)
  {
    StreamLines(messages);
    AlwaysAcceptedIff(Concat(chunks), limit);
    frames := Decode(chunks, limit);
  }
}
