/** Splitting a long text into Telegram messages, at line ends where that leaves a part of more than half the limit. */
module TelegramParts {
  /** A UTF-16 code unit, which is what the length of a text counts. */
  newtype unit = x: int | 0 <= x < 0x1_0000

  type Text = seq<unit>

  const NEWLINE: unit := 10

  const TELEGRAM_TEXT_LIMIT := 4096

  /** The last position of a line end, or -1. */
  function LastNewline(s: Text): (i: int)
    ensures -1 <= i < |s| && (i >= 0 ==> s[i] == NEWLINE) && forall k :: i < k < |s| ==> s[k] != NEWLINE
  {
    if s == [] then -1 else if s[|s| - 1] == NEWLINE then |s| - 1 else LastNewline(s[..|s| - 1])
  }

  /** How many line ends the text begins with. */
  function Leading(s: Text): (n: nat)
    ensures n <= |s| && s[..n] == Newlines(n) && (n < |s| ==> s[n] != NEWLINE)
  {
    if s == [] || s[0] != NEWLINE then 0
    else
      assert s == [NEWLINE] + s[1..];
      assert forall n: nat :: n <= |s| - 1 ==> s[..n + 1] == [NEWLINE] + s[1..][..n];
      1 + Leading(s[1..])
  }

  function Newlines(n: nat): Text { if n == 0 then [] else [NEWLINE] + Newlines(n - 1) }

  /** The parts, each followed by as many line ends as `gaps` says. */
  function Weave(parts: seq<Text>, gaps: seq<nat>): Text
    requires |parts| == |gaps|
  {
    if parts == [] then
      []
    else Weave(parts[..|parts| - 1], gaps[..|gaps| - 1]) + parts[|parts| - 1] + Newlines(gaps[|gaps| - 1])
  }

  lemma WeaveMore(parts: seq<Text>, gaps: seq<nat>, part: Text, gap: nat, rest: Text)
    requires |parts| == |gaps|
    ensures Weave(parts, gaps) + (part + Newlines(gap) + rest) == Weave(parts + [part], gaps + [gap]) + rest
  {
    assert (parts + [part])[..|parts|] == parts && (gaps + [gap])[..|gaps|] == gaps;
    var woven := Weave(parts, gaps);
    assert woven + (part + Newlines(gap) + rest) == (woven + part + Newlines(gap)) + rest;
  }

  /** Where the next part ends: at the window's last line end, if that is past its middle, else at the limit. */
  function Cut(remaining: Text): (cut: nat)
    requires |remaining| > TELEGRAM_TEXT_LIMIT
    ensures TELEGRAM_TEXT_LIMIT / 2 < cut <= TELEGRAM_TEXT_LIMIT
    ensures cut == TELEGRAM_TEXT_LIMIT || remaining[cut] == NEWLINE
  {
    var boundary := LastNewline(remaining[..TELEGRAM_TEXT_LIMIT]);
    if boundary > TELEGRAM_TEXT_LIMIT / 2 then boundary else TELEGRAM_TEXT_LIMIT
  }

  /** Parts as the loop leaves them: within the limit, past its middle, and cut at a line end or at the limit. */
  ghost predicate Split(text: Text, parts: seq<Text>, gaps: seq<nat>, remaining: Text) {
    && |gaps| == |parts| && text == Weave(parts, gaps) + remaining
    && forall i :: 0 <= i < |parts| ==>
         && TELEGRAM_TEXT_LIMIT / 2 < |parts[i]| <= TELEGRAM_TEXT_LIMIT
         && (|parts[i]| == TELEGRAM_TEXT_LIMIT || gaps[i] > 0)
  }

  lemma SplitStarts(text: Text)
    ensures Split(text, [], [], text)
  {
    assert [] + text == text;
  }

  lemma Recompose(s: Text, cut: nat, gap: nat)
    requires cut <= |s| && gap <= |s| - cut
    ensures s == s[..cut] + s[cut..][..gap] + s[cut..][gap..]
  {
  }

  lemma SplitStep(text: Text, parts: seq<Text>, gaps: seq<nat>, remaining: Text)
    requires Split(text, parts, gaps, remaining) && |remaining| > TELEGRAM_TEXT_LIMIT
    ensures var cut := Cut(remaining);
            var gap := Leading(remaining[cut..]);
            Split(text, parts + [remaining[..cut]], gaps + [gap], remaining[cut..][gap..])
  {
    hide Leading, Cut, Newlines, Weave, LastNewline;
    var cut := Cut(remaining);
    var gap := Leading(remaining[cut..]);
    assert remaining[cut..][0] == remaining[cut];
    Recompose(remaining, cut, gap);
    WeaveMore(parts, gaps, remaining[..cut], gap, remaining[cut..][gap..]);
  }

  /** Adding the last part ends the split. */
  lemma SplitEnds(text: Text, parts: seq<Text>, gaps: seq<nat>, remaining: Text)
    requires Split(text, parts, gaps, remaining)
    ensures remaining == [] ==> text == Weave(parts, gaps)
    ensures text == Weave(parts + [remaining], gaps + [0])
  {
    WeaveMore(parts, gaps, remaining, 0, []);
    hide Weave;
    assert remaining == remaining + Newlines(0) + [];
    assert Weave(parts + [remaining], gaps + [0]) + [] == Weave(parts + [remaining], gaps + [0]);
    assert Weave(parts, gaps) + [] == Weave(parts, gaps);
  }

  /**
   * Split a text. Every part is within the limit and, unless the text is empty, not empty; the parts make up the text
   * but for line ends between them. A part shorter than the limit that is not the last was cut at a line end.
   */
  method RenderParts(text: Text) returns (parts: seq<Text>, ghost gaps: seq<nat>)
    ensures |gaps| == |parts| && text == Weave(parts, gaps)
    ensures forall i :: 0 <= i < |parts| ==> |parts[i]| <= TELEGRAM_TEXT_LIMIT && (text != [] ==> parts[i] != [])
    ensures forall i :: 0 <= i < |parts| - 1 ==>
        |parts[i]| > TELEGRAM_TEXT_LIMIT / 2
        && (|parts[i]| == TELEGRAM_TEXT_LIMIT || gaps[i] > 0)
    ensures |text| <= TELEGRAM_TEXT_LIMIT ==> parts == [text]
  {
    hide Weave, Newlines, Leading;
    parts, gaps := [], [];
    SplitStarts(text);
    if |text| <= TELEGRAM_TEXT_LIMIT {
      SplitEnds(text, parts, gaps, text);
      assert parts + [text] == [text] && gaps + [0] == [0];
      return [text], [0];
    }
    var remaining := text;
    while |remaining| > TELEGRAM_TEXT_LIMIT
      invariant Split(text, parts, gaps, remaining)
      decreases |remaining|
    {
      SplitStep(text, parts, gaps, remaining);
      var cut := Cut(remaining);
      var after := remaining[cut..];
      var gap := Leading(after);
      parts, gaps := parts + [remaining[..cut]], gaps + [gap];
      remaining := after[gap..];
    }
    SplitEnds(text, parts, gaps, remaining);
    if |remaining| > 0 {
      parts, gaps := parts + [remaining], gaps + [0];
    }
  }
}
