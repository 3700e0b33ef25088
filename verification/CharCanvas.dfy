/** The box-drawing canvas: lines that meet join into one glyph, and text wins over lines. */
module CharCanvas {
  datatype Option<+T> = None | Some(value: T)

  datatype Side = Up | Down | Left | Right

  datatype Style =
    | Default | Dim | Back | Warn | Ok | Fail | Branch | Agent | Compute | Action | Checkpoint | Taken | Active

  datatype CanvasChar = CanvasChar(glyph: char, style: Style)

  // ---- The mask tables -----------------------------------------------------------------------

  const HORIZONTAL := '\U{2500}'
  const VERTICAL := '\U{2502}'

  /** The sides a character connects to, if it is a line. */
  function CharToMask(c: char): Option<set<Side>> {
    match c
    case '\U{2500}' => Some({Left, Right})
    case '\U{2502}' => Some({Up, Down})
    case '\U{250C}' => Some({Down, Right})
    case '\U{2510}' => Some({Down, Left})
    case '\U{2514}' => Some({Up, Right})
    case '\U{2518}' => Some({Up, Left})
    case '\U{251C}' => Some({Up, Down, Right})
    case '\U{2524}' => Some({Up, Down, Left})
    case '\U{252C}' => Some({Down, Left, Right})
    case '\U{2534}' => Some({Up, Left, Right})
    case '\U{253C}' => Some({Up, Down, Left, Right})
    case _ => None
  }

  /** The line that connects to these sides. */
  function MaskToChar(mask: set<Side>): Option<char> {
    if mask == {Left, Right} then Some('\U{2500}')
    else if mask == {Up, Down} then Some('\U{2502}')
    else if mask == {Down, Right} then Some('\U{250C}')
    else if mask == {Down, Left} then Some('\U{2510}')
    else if mask == {Up, Right} then Some('\U{2514}')
    else if mask == {Up, Left} then Some('\U{2518}')
    else if mask == {Up, Down, Right} then Some('\U{251C}')
    else if mask == {Up, Down, Left} then Some('\U{2524}')
    else if mask == {Down, Left, Right} then Some('\U{252C}')
    else if mask == {Up, Left, Right} then Some('\U{2534}')
    else if mask == {Up, Down, Left, Right} then Some('\U{253C}')
    else None
  }

  /** The tables are each other's inverse. */
  lemma TablesInvert(c: char)
    ensures CharToMask(c).Some? ==> MaskToChar(CharToMask(c).value) == Some(c)
    ensures forall mask :: MaskToChar(mask) == Some(c) ==> CharToMask(c) == Some(mask)
  {
  }

  /** A mask of two sides or more has a glyph. */
  lemma TwoSidesHaveAGlyph(mask: set<Side>, one: Side, other: Side)
    requires one in mask && other in mask && one != other
    ensures MaskToChar(mask).Some?
  {
    var up, down, left, right := Up in mask, Down in mask, Left in mask, Right in mask;
    forall s ensures s in mask <==> (s.Up? && up) || (s.Down? && down) || (s.Left? && left) || (s.Right? && right) {}
    assert mask == (if up then {Up} else {}) + (if down then {Down} else {}) + (if left then {Left} else {})
        + (if right then {Right} else {});
  }

  lemma LineSides(c: char) returns (one: Side, other: Side)
    requires CharToMask(c).Some?
    ensures one in CharToMask(c).value && other in CharToMask(c).value && one != other
  {
    var mask := CharToMask(c).value;
    one := if Up in mask then Up else if Down in mask then Down else Left;
    other := if Right in mask then Right else if Left in mask && one != Left then Left else Down;
  }

  /** Lines that meet always have a glyph together, so a fallback is never needed. */
  lemma MeetingLinesHaveAGlyph(a: char, b: char)
    requires CharToMask(a).Some? && CharToMask(b).Some?
    ensures MaskToChar(CharToMask(a).value + CharToMask(b).value).Some?
  {
    var one, other := LineSides(a);
    TwoSidesHaveAGlyph(CharToMask(a).value + CharToMask(b).value, one, other);
  }

  // ---- What was drawn ------------------------------------------------------------------------

  datatype Write = Write(x: int, y: int, glyph: char, style: Style)

  /** The write lands on this cell. Spaces and cells off the canvas take nothing. */
  predicate Lands(w: Write, x: int, y: int) { w.x == x && w.y == y && x >= 0 && y >= 0 && w.glyph != ' ' }

  predicate LandsText(w: Write, x: int, y: int) { Lands(w, x, y) && CharToMask(w.glyph).None? }

  predicate LandsLine(w: Write, x: int, y: int) { Lands(w, x, y) && CharToMask(w.glyph).Some? }

  /** The last character other than a line that was written on a cell. */
  function LastText(writes: seq<Write>, x: int, y: int): (last: Option<Write>)
    ensures last.None? <==> forall w :: w in writes ==> !LandsText(w, x, y)
    ensures last.Some? ==> last.value in writes && LandsText(last.value, x, y)
  {
    if writes == [] then None
    else if LandsText(writes[|writes| - 1], x, y) then Some(writes[|writes| - 1])
    else LastText(writes[..|writes| - 1], x, y)
  }

  /** The sides that all lines written on a cell connect to. */
  function Sides(writes: seq<Write>, x: int, y: int): (sides: set<Side>)
    ensures forall s :: s in sides <==> exists w :: w in writes && LandsLine(w, x, y) && s in CharToMask(w.glyph).value
  {
    if writes == [] then {}
    else
      var w := writes[|writes| - 1];
      assert writes == writes[..|writes| - 1] + [w];
      Sides(writes[..|writes| - 1], x, y) + if LandsLine(w, x, y) then CharToMask(w.glyph).value else {}
  }

  /** A style's place in the priority list. */
  function Priority(style: Style): nat {
    match style
    case Default => 0
    case Dim => 1
    case Back => 2
    case Warn => 3
    case Ok => 4
    case Fail => 5
    case Branch => 6
    case Agent => 7
    case Compute => 8
    case Action => 9
    case Checkpoint => 10
    case Taken => 11
    case Active => 12
  }

  lemma PriorityIsStrict(a: Style, b: Style)
    ensures Priority(a) == Priority(b) ==> a == b
  {
  }

  function MergeStyles(a: Style, b: Style): Style { if Priority(a) >= Priority(b) then a else b }

  /** `style` is the highest of the styles of the lines written on a cell. */
  ghost predicate TopStyle(writes: seq<Write>, x: int, y: int, style: Style) {
    && (exists w :: w in writes && LandsLine(w, x, y) && w.style == style)
    && (forall w :: w in writes && LandsLine(w, x, y) ==> Priority(w.style) <= Priority(style))
  }

  /** What a cell shows after these writes: its last text, else the glyph of its lines, else nothing. */
  ghost predicate Shows(writes: seq<Write>, x: int, y: int, cell: Option<CanvasChar>) {
    var text, sides := LastText(writes, x, y), Sides(writes, x, y);
    if text.Some? then cell == Some(CanvasChar(text.value.glyph, text.value.style))
    else if sides == {} then cell.None?
    else cell.Some? && MaskToChar(sides) == Some(cell.value.glyph) && TopStyle(writes, x, y, cell.value.style)
  }

  /** A cell shows exactly one thing. */
  lemma ShowsOneThing(writes: seq<Write>, x: int, y: int, one: Option<CanvasChar>, other: Option<CanvasChar>)
    requires Shows(writes, x, y, one) && Shows(writes, x, y, other)
    ensures one == other
  {
    if LastText(writes, x, y).None? && Sides(writes, x, y) != {} {
      PriorityIsStrict(one.value.style, other.value.style);
    }
  }

  /** Among lines, the order of drawing does not matter. */
  lemma LineOrderIsIrrelevant(writes: seq<Write>, others: seq<Write>, x: int, y: int, one: Option<CanvasChar>,
      other: Option<CanvasChar>)
    requires multiset(writes) == multiset(others)
    requires forall w :: w in writes && Lands(w, x, y) ==> CharToMask(w.glyph).Some?
    requires Shows(writes, x, y, one) && Shows(others, x, y, other)
    ensures one == other
  {
    forall w ensures w in writes <==> w in others {
      assert w in writes <==> w in multiset(writes);
      assert w in others <==> w in multiset(others);
    }
    assert Sides(writes, x, y) == Sides(others, x, y);
    if Sides(writes, x, y) != {} { PriorityIsStrict(one.value.style, other.value.style); }
  }

  // ---- Drawing -------------------------------------------------------------------------------

  lemma LastTextStep(writes: seq<Write>, w: Write, x: int, y: int)
    ensures LastText(writes + [w], x, y) == if LandsText(w, x, y) then Some(w) else LastText(writes, x, y)
    ensures Sides(writes + [w], x, y) == Sides(writes, x, y) + if LandsLine(w, x, y) then CharToMask(w.glyph).value
        else {}
  {
    assert (writes + [w])[..|writes|] == writes;
  }

  /** The new content of a cell that a character is put on. */
  function Merge(existing: Option<CanvasChar>, glyph: char, style: Style): CanvasChar {
    if existing.None? then CanvasChar(glyph, style)
    else
      var before, incoming := CharToMask(existing.value.glyph), CharToMask(glyph);
      if before.Some? && incoming.Some? then
        var merged := MaskToChar(before.value + incoming.value);
        CanvasChar(if merged.Some? then merged.value else glyph, MergeStyles(existing.value.style, style))
      else if before.None? && incoming.Some? then existing.value
      else CanvasChar(glyph, style)
  }

  /** A text shows itself; a line under a text changes nothing. */
  lemma MergeShows(writes: seq<Write>, w: Write, existing: Option<CanvasChar>)
    requires Shows(writes, w.x, w.y, existing) && Lands(w, w.x, w.y)
    ensures Shows(writes + [w], w.x, w.y, Some(Merge(existing, w.glyph, w.style)))
  {
    LastTextStep(writes, w, w.x, w.y);
    if CharToMask(w.glyph).Some? && LastText(writes, w.x, w.y).None? {
      if existing.Some? { JoinedLineShows(writes, w, existing.value); } else { FirstLineShows(writes, w); }
    }
    hide MaskToChar, Sides, TopStyle;
  }

  lemma FirstLineShows(writes: seq<Write>, w: Write)
    requires Shows(writes, w.x, w.y, None) && LandsLine(w, w.x, w.y) && LastText(writes, w.x, w.y).None?
    ensures Shows(writes + [w], w.x, w.y, Some(CanvasChar(w.glyph, w.style)))
  {
    hide MaskToChar, CharToMask, LastText, Sides;
    LastTextStep(writes, w, w.x, w.y);
    TablesInvert(w.glyph);
    NoSidesNoLines(writes, w.x, w.y);
    var one, other := LineSides(w.glyph);
    assert w in writes + [w];
    assert Sides(writes + [w], w.x, w.y) == CharToMask(w.glyph).value;
  }

  lemma JoinedLineShows(writes: seq<Write>, w: Write, existing: CanvasChar)
    requires Shows(writes, w.x, w.y, Some(existing)) && LandsLine(w, w.x, w.y) && LastText(writes, w.x, w.y).None?
    ensures Shows(writes + [w], w.x, w.y, Some(Merge(Some(existing), w.glyph, w.style)))
  {
    LastTextStep(writes, w, w.x, w.y);
    TablesInvert(existing.glyph);
    MeetingLinesHaveAGlyph(existing.glyph, w.glyph);
    var one, other := LineSides(w.glyph);
    JoinedStyle(writes, w, existing.style);
    hide MaskToChar, CharToMask, LastText, TopStyle, Sides;
  }

  lemma JoinedStyle(writes: seq<Write>, w: Write, style: Style)
    requires TopStyle(writes, w.x, w.y, style) && LandsLine(w, w.x, w.y)
    ensures TopStyle(writes + [w], w.x, w.y, MergeStyles(style, w.style))
  {
    var top :| top in writes && LandsLine(top, w.x, w.y) && top.style == style;
    assert top in writes + [w] && w in writes + [w];
  }

  lemma LinesHaveSides(writes: seq<Write>, x: int, y: int, v: Write)
    requires v in writes && LandsLine(v, x, y)
    ensures Sides(writes, x, y) != {}
  {
    var one, other := LineSides(v.glyph);
    assert one in Sides(writes, x, y);
  }

  lemma NoSidesNoLines(writes: seq<Write>, x: int, y: int)
    requires Sides(writes, x, y) == {}
    ensures forall v :: v in writes ==> !LandsLine(v, x, y)
  {
    forall v | v in writes ensures !LandsLine(v, x, y) {
      if LandsLine(v, x, y) { LinesHaveSides(writes, x, y, v); }
    }
  }

  lemma ElsewhereShows(writes: seq<Write>, w: Write, x: int, y: int, cell: Option<CanvasChar>)
    requires Shows(writes, x, y, cell) && !Lands(w, x, y)
    ensures Shows(writes + [w], x, y, cell)
  {
    LastTextStep(writes, w, x, y);
    hide MaskToChar, CharToMask, LastText, Sides;
    assert LastText(writes + [w], x, y) == LastText(writes, x, y);
    assert Sides(writes + [w], x, y) == Sides(writes, x, y);
    if cell.Some? && TopStyle(writes, x, y, cell.value.style) {
      var top :| top in writes && LandsLine(top, x, y) && top.style == cell.value.style;
      assert top in writes + [w];
      assert TopStyle(writes + [w], x, y, cell.value.style);
    }
  }

  function HLine(y: int, start: int, end: int, style: Style): (r: seq<Write>)
    decreases end - start
  {
    if end <= start then [] else HLine(y, start, end - 1, style) + [Write(end - 1, y, HORIZONTAL, style)]
  }

  function VLine(x: int, start: int, end: int, style: Style): (r: seq<Write>)
    decreases end - start
  {
    if end <= start then [] else VLine(x, start, end - 1, style) + [Write(x, end - 1, VERTICAL, style)]
  }

  function Lower(a: int, b: int): int { if a <= b then a else b }

  function Upper(a: int, b: int): int { if a <= b then b else a }

  class Canvas {
    var cells: map<(int, int), CanvasChar>
    var maxX: int
    var maxY: int
    ghost var writes: seq<Write>

    function Cell(x: int, y: int): Option<CanvasChar>
      reads this`cells
    {
      if (x, y) in cells then Some(cells[(x, y)]) else None
    }

    /** Every cell shows what was written on it, and every write lies within the canvas's extent. */
    ghost predicate Valid()
      reads this
    {
      && (forall x, y :: Shows(writes, x, y, Cell(x, y)))
      && (forall w :: w in writes && w.x >= 0 && w.y >= 0 ==> w.x <= maxX && w.y <= maxY)
    }

    constructor ()
      ensures Valid() && writes == []
    {
      cells, maxX, maxY, writes := map[], 0, 0, [];
      new;
      forall x, y ensures Shows(writes, x, y, Cell(x, y)) { assert Sides([], x, y) == {}; }
    }

    /** Put a character on a cell. */
    method Put(x: int, y: int, glyph: char, style: Style)
      requires Valid()
      modifies this
      ensures Valid() && writes == old(writes) + [Write(x, y, glyph, style)]
    {
      hide Shows, Merge;
      var w := Write(x, y, glyph, style);
      ghost var before := writes;
      assert forall x', y' :: Shows(before, x', y', Cell(x', y'));
      writes := writes + [w];
      if x < 0 || y < 0 {
        forall x', y' ensures Shows(writes, x', y', Cell(x', y')) { ElsewhereShows(before, w, x', y', Cell(x', y')); }
        return;
      }
      if y > maxY { maxY := y; }
      if x > maxX { maxX := x; }
      if glyph == ' ' {
        forall x', y' ensures Shows(writes, x', y', Cell(x', y')) { ElsewhereShows(before, w, x', y', Cell(x', y')); }
        return;
      }
      var existing := Cell(x, y);
      cells := cells[(x, y) := Merge(existing, glyph, style)];
      MergeShows(before, w, existing);
      forall x', y' ensures Shows(writes, x', y', Cell(x', y')) {
        if x' != x || y' != y { ElsewhereShows(before, w, x', y', old(Cell(x', y'))); }
      }
    }

    method DrawHorizontal(y: int, x1: int, x2: int, style: Style)
      requires Valid()
      modifies this
      ensures Valid() && writes == old(writes) + HLine(y, Lower(x1, x2), Upper(x1, x2) + 1, style)
    {
      hide Shows;
      var start, end := if x1 <= x2 then x1 else x2, if x1 <= x2 then x2 else x1;
      var x := start;
      assert writes + HLine(y, start, start, style) == writes;
      while x <= end
        invariant start <= x <= end + 1 && Valid() && writes == old(writes) + HLine(y, start, x, style)
      {
        Put(x, y, HORIZONTAL, style);
        x := x + 1;
      }
    }

    method DrawVertical(x: int, y1: int, y2: int, style: Style)
      requires Valid()
      modifies this
      ensures Valid() && writes == old(writes) + VLine(x, Lower(y1, y2), Upper(y1, y2) + 1, style)
    {
      hide Shows;
      var start, end := if y1 <= y2 then y1 else y2, if y1 <= y2 then y2 else y1;
      var y := start;
      assert writes + VLine(x, start, start, style) == writes;
      while y <= end
        invariant start <= y <= end + 1 && Valid() && writes == old(writes) + VLine(x, start, y, style)
      {
        Put(x, y, VERTICAL, style);
        y := y + 1;
      }
    }
  }

  // ---- Whole drawings ------------------------------------------------------------------------

  datatype Op =
    | PutChar(x: int, y: int, glyph: char, style: Style)
    | Horizontal(y: int, from: int, to: int, style: Style)
    | Vertical(x: int, from: int, to: int, style: Style)

  function WritesOf(op: Op): seq<Write> {
    match op
    case PutChar(x, y, glyph, style) => [Write(x, y, glyph, style)]
    case Horizontal(y, from, to, style) => HLine(y, Lower(from, to), Upper(from, to) + 1, style)
    case Vertical(x, from, to, style) => VLine(x, Lower(from, to), Upper(from, to) + 1, style)
  }

  function Written(ops: seq<Op>): seq<Write> {
    if ops == [] then [] else Written(ops[..|ops| - 1]) + WritesOf(ops[|ops| - 1])
  }

  /** After any drawing, every cell shows its last text, or the glyph of the union of its lines in their top style. */
  method Draw(ops: seq<Op>) returns (cells: map<(int, int), CanvasChar>)
    ensures forall x, y :: Shows(Written(ops), x, y, if (x, y) in cells then Some(cells[(x, y)]) else None)
  {
    var canvas := new Canvas();
    for i := 0 to |ops|
      invariant fresh(canvas) && canvas.Valid() && canvas.writes == Written(ops[..i])
    {
      hide Shows;
      assert ops[..i + 1][..i] == ops[..i];
      match ops[i]
      case PutChar(x, y, glyph, style) => canvas.Put(x, y, glyph, style);
      case Horizontal(y, from, to, style) => canvas.DrawHorizontal(y, from, to, style);
      case Vertical(x, from, to, style) => canvas.DrawVertical(x, from, to, style);
    }
    assert ops[..|ops|] == ops;
    cells := canvas.cells;
    forall x, y ensures Shows(Written(ops), x, y, if (x, y) in cells then Some(cells[(x, y)]) else None) {
      assert Shows(canvas.writes, x, y, canvas.Cell(x, y));
    }
  }
}
