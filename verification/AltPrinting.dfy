/** Where printed text goes on the alternate screen (src/document/Document.cpp:877-953).

    The screen is looked at cell by cell. A run of characters fills the cells from the cursor's on, along the
    rows, and what passes the bottom margin pushes the region up.
  */
module AltPrinting {
  import opened Style
  import opened Lines
  import opened ShownCells
  import opened MainScreen
  import opened AltScreen

  ghost predicate TidyScreen(s: Screen) {
    forall i | 0 <= i < |s.lines| :: Tidy(s.lines[i])
  }

  function Shown(s: Screen, row: nat, c: nat): Cell {
    if row < |s.lines| then CellAt(s.lines[row], c) else BLANK
  }

  // ----------------------------------------------------------------- one character

  /** A deferred wrap at the bottom margin scrolls the region before the character is put down. */
  predicate Feeds(s: Screen) {
    s.pendingWrap && s.cursor.line == s.bot
  }

  /** The cell the next character goes to. */
  function NextCell(s: Screen): CursorPos
    requires s.Valid()
  {
    if !s.pendingWrap then s.cursor
    else CursorPos(if s.cursor.line == s.bot || s.cursor.line + 1 == s.rows then s.cursor.line else s.cursor.line + 1, 0)
  }

  /** What is shown once the region has scrolled, if it has to. */
  function Carried(s: Screen, row: nat, c: nat): Cell {
    if !Feeds(s) || row < s.top || row > s.bot then Shown(s, row, c)
    else if row < s.bot then Shown(s, row + 1, c)
    else BLANK
  }

  /** What one character, wide or not, does to every cell. */
  ghost predicate PutDown(s: Screen, ch: CodePoint, width: nat, t: Screen)
    requires s.Valid()
  {
    var at := NextCell(s);
    && t == s.(lines := t.lines, cursor := t.cursor, pendingWrap := t.pendingWrap) && t.Valid() && TidyScreen(t)
    && t.pendingWrap == (at.col + width >= s.cols)
    && t.cursor == CursorPos(at.line, if at.col + width >= s.cols then at.col else at.col + width)
    && forall row: nat, c: nat | row < s.rows :: Shown(t, row, c) == CellPut(s, ch, width, row, c)
  }

  function CellPut(s: Screen, ch: CodePoint, width: nat, row: nat, c: nat): Cell
    requires s.Valid()
  {
    var at := NextCell(s);
    if row == at.line && c == at.col + 1 && width == 2 && at.col + 1 < s.cols then (WIDE_FILLER, [s.style])
    else if row == at.line && c == at.col then (ch, [s.style])
    else Carried(s, row, c)
  }

  lemma FeedShows(s: Screen)
    requires s.Valid() && TidyScreen(s) && s.pendingWrap
    ensures var t := LineFeed(s);
            && TidyScreen(t) && t.cursor == NextCell(s)
            && forall row: nat, c: nat | row < s.rows :: Shown(t, row, c) == Carried(s, row, c)
  {
    var t := LineFeed(s);
    if s.cursor.line == s.bot {
      forall row | 0 <= row < s.rows
        ensures t.lines[row] == if row < s.top || row > s.bot then s.lines[row] else if row < s.bot then s.lines[row + 1] else EMPTY_LINE
      {}
    }
  }

  /** The line a character is put on. */
  function LinePut(line: Line, col: nat, ch: CodePoint, wide: bool, style: Style): Line {
    var one := Write(line, col, ch, style);
    if wide then Write(one, col + 1, WIDE_FILLER, style) else one
  }

  lemma LinePutShows(line: Line, col: nat, ch: CodePoint, wide: bool, style: Style)
    requires Tidy(line)
    ensures var now := LinePut(line, col, ch, wide, style);
            && Tidy(now)
            && forall c: nat :: CellAt(now, c) ==
                 if wide && c == col + 1 then (WIDE_FILLER, [style]) else if c == col then (ch, [style]) else CellAt(line, c)
  {
    WriteShows(line, col, ch, style);
    WriteShows(Write(line, col, ch, style), col + 1, WIDE_FILLER, style);
  }

  /** A printed character changes its own cell, and the next one if it is wide and that one is there; the wrap
      that was put off is taken first, and the one it causes is put off in turn. */
  lemma CharIsPutDown(s: Screen, ch: CodePoint, width: CodePoint -> nat)
    requires s.Valid() && TidyScreen(s) && !s.insertMode
    ensures PutDown(s, ch, width(ch), CharAppended(s, ch, width))
  {
    if s.pendingWrap {
      FeedShows(s);
      PutOnCursor(s, LineFeed(s), ch, width);
    } else {
      PutOnCursor(s, s, ch, width);
    }
  }

  lemma PutOnCursor(s: Screen, f: Screen, ch: CodePoint, width: CodePoint -> nat)
    requires s.Valid() && !s.insertMode && f == s.(lines := f.lines, cursor := NextCell(s), pendingWrap := false)
    requires f.Valid() && TidyScreen(f)
    requires forall row: nat, c: nat | row < s.rows :: Shown(f, row, c) == Carried(s, row, c)
    ensures PutDown(s, ch, width(ch), CharPut(f, ch, width))
  {
    var at, line := f.cursor, f.lines[f.cursor.line];
    var wide := width(ch) == 2 && at.col + 1 < s.cols;
    var now := LinePut(line, at.col, ch, wide, s.style);
    LinePutShows(line, at.col, ch, wide, s.style);
    var t := CharPut(f, ch, width);
    assert t.lines == f.lines[at.line := now];
    forall row: nat, c: nat | row < s.rows ensures Shown(t, row, c) == CellPut(s, ch, width(ch), row, c) {
      if row == at.line { assert Shown(f, row, c) == CellAt(line, c); } else { assert Shown(t, row, c) == Shown(f, row, c); }
    }
  }

  /** In insert mode the cells behind it in the row move along first. */
  ghost predicate PutBetween(s: Screen, ch: CodePoint, t: Screen)
    requires s.Valid()
  {
    var at := NextCell(s);
    && t == s.(lines := t.lines, cursor := t.cursor, pendingWrap := t.pendingWrap) && t.Valid() && TidyScreen(t)
    && t.pendingWrap == (at.col + 1 >= s.cols)
    && t.cursor == CursorPos(at.line, if at.col + 1 >= s.cols then at.col else at.col + 1)
    && forall row: nat, c: nat | row < s.rows :: Shown(t, row, c) == CellBetween(s, ch, row, c)
  }

  function CellBetween(s: Screen, ch: CodePoint, row: nat, c: nat): Cell
    requires s.Valid()
  {
    var at := NextCell(s);
    if row != at.line || c < at.col then Carried(s, row, c) else if c == at.col then (ch, [s.style]) else Carried(s, row, c - 1)
  }

  lemma CharIsPutBetween(s: Screen, ch: CodePoint, width: CodePoint -> nat)
    requires s.Valid() && TidyScreen(s) && s.insertMode && width(ch) == 1
    requires s.pendingWrap || MayInsert(CursorLine(s), s.cursor.col)
    ensures PutBetween(s, ch, CharAppended(s, ch, width))
  {
    if s.pendingWrap {
      FeedShows(s);
      InsertOnCursor(s, LineFeed(s), ch, width);
    } else {
      InsertOnCursor(s, s, ch, width);
    }
  }

  lemma InsertOnCursor(s: Screen, f: Screen, ch: CodePoint, width: CodePoint -> nat)
    requires s.Valid() && s.insertMode && width(ch) == 1
    requires f == s.(lines := f.lines, cursor := NextCell(s), pendingWrap := false) && f.Valid() && TidyScreen(f)
    requires MayInsert(CursorLine(f), f.cursor.col)
    requires forall row: nat, c: nat | row < s.rows :: Shown(f, row, c) == Carried(s, row, c)
    ensures PutBetween(s, ch, CharPut(f, ch, width))
  {
    var at, line, t := f.cursor, CursorLine(f), CharPut(f, ch, width);
    InsertManyShows(line, at.col, 1, ch, s.style);
    assert InsertMany(line, at.col, 1, ch, s.style) == Insert(InsertMany(line, at.col, 0, ch, s.style), at.col, ch, s.style);
    var now := Insert(line, at.col, ch, s.style);
    assert t.lines == f.lines[at.line := now];
    forall row: nat, c: nat | row < s.rows
      ensures Shown(t, row, c) == CellBetween(s, ch, row, c)
    {
      assert Shown(f, row, c) == Carried(s, row, c);
      if row == at.line && c > at.col { assert Shown(f, row, c - 1) == Carried(s, row, c - 1); }
      if row == at.line { assert CellAt(now, c) == ShownAfter(line, at.col, 1, (ch, [s.style]), c); }
    }
  }

  // ------------------------------------------------------------ a run, along the rows

  /** How many cells lie before the one the next character goes to, with rows below the screen for ever. */
  function Position(s: Screen): nat {
    if s.pendingWrap then (s.cursor.line + 1) * s.cols else s.cursor.line * s.cols + s.cursor.col
  }

  /** What would be shown, were there blank rows below the bottom margin for ever and no need to scroll. */
  function Canvas(s: Screen, run: seq<CodePoint>, row: nat, c: nat): Cell {
    var i := row * s.cols + c - Position(s);
    if c < s.cols && 0 <= i < |run| then (run[i], [s.style]) else if row <= s.bot then Shown(s, row, c) else BLANK
  }

  /** By how many rows the region is pushed up to make room for the last of `n` characters. */
  function PushedUp(s: Screen, n: nat): nat
    requires s.cols > 0
  {
    if n == 0 then 0
    else
      var last := Position(s) + n - 1;
      var row := last / s.cols;
      if row > s.bot then row - s.bot else 0
  }

  /** The screen shows the canvas through the region, pushed up as far as it must be, the cursor behind the last
      character. */
  ghost predicate Printed(s: Screen, run: seq<CodePoint>, t: Screen)
    requires s.cols > 0
  {
    var up, end := PushedUp(s, |run|), Position(s) + |run|;
    && t == s.(lines := t.lines, cursor := t.cursor, pendingWrap := t.pendingWrap) && t.Valid() && TidyScreen(t)
    && Position(t) + up * s.cols == end && t.cursor.line <= s.bot
    && t.pendingWrap == (if run == [] then s.pendingWrap else end % s.cols == 0)
    && forall row: nat, c: nat | row < s.rows :: Shown(t, row, c) == ThroughRegion(s, run, up, row, c)
  }

  function ThroughRegion(s: Screen, run: seq<CodePoint>, up: nat, row: nat, c: nat): Cell {
    if row > s.bot then Shown(s, row, c) else Canvas(s, run, if row >= s.top then row + up else row, c)
  }

  lemma PlaceIs(row: nat, c: nat, cols: nat, i: nat)
    requires c < cols
    ensures row * cols + c == i <==> row == i / cols && c == i % cols
  {
    if row * cols + c == i { QuotientUnique(i, cols, row, c); } else { DivisionTheorem(i, cols); }
  }

  lemma CanvasGrows(s: Screen, run: seq<CodePoint>, ch: CodePoint, row: nat, c: nat)
    requires s.cols > 0
    ensures var end := Position(s) + |run|;
            Canvas(s, run + [ch], row, c) ==
            if row == end / s.cols && c == end % s.cols then (ch, [s.style]) else Canvas(s, run, row, c)
  {
    var i := row * s.cols + c - Position(s);
    if c < s.cols {
      PlaceIs(row, c, s.cols, Position(s) + |run|);
    } else {
      DivisionTheorem(Position(s) + |run|, s.cols);
    }
  }

  /** Where the next character goes, on the canvas and on the screen. */
  lemma NextIsAt(s: Screen, run: seq<CodePoint>, t: Screen)
    requires s.cols > 0 && Printed(s, run, t)
    ensures var up, end, at := PushedUp(s, |run|), Position(s) + |run|, NextCell(t);
            && end % s.cols == at.col
            && PushedUp(s, |run| + 1) == (if Feeds(t) then up + 1 else up)
            && end / s.cols == at.line + PushedUp(s, |run| + 1)
            && (up > 0 ==> t.cursor.line == s.bot)
  {
    var up, end := PushedUp(s, |run|), Position(s) + |run|;
    LastRow(s, run, t);
    EndIsAt(t, up, end);
    assert |run| + 1 > 0 && Position(s) + (|run| + 1) - 1 == end;
  }

  lemma EndIsAt(t: Screen, up: nat, end: nat)
    requires t.Valid() && Position(t) + up * t.cols == end
    ensures end / t.cols == (if t.pendingWrap then t.cursor.line + 1 else t.cursor.line) + up
    ensures end % t.cols == if t.pendingWrap then 0 else t.cursor.col
  {
    if t.pendingWrap {
      assert end == (t.cursor.line + 1 + up) * t.cols + 0;
      QuotientUnique(end, t.cols, t.cursor.line + 1 + up, 0);
    } else {
      assert end == (t.cursor.line + up) * t.cols + t.cursor.col;
      QuotientUnique(end, t.cols, t.cursor.line + up, t.cursor.col);
    }
  }

  /** The cursor stays on the row of the last character. */
  lemma LastRow(s: Screen, run: seq<CodePoint>, t: Screen)
    requires s.cols > 0 && Printed(s, run, t)
    ensures PushedUp(s, |run|) > 0 ==> t.cursor.line == s.bot
  {
    var up, end := PushedUp(s, |run|), Position(s) + |run|;
    if up > 0 {
      if t.pendingWrap {
        assert end - 1 == (t.cursor.line + up) * s.cols + (s.cols - 1);
        QuotientUnique(end - 1, s.cols, t.cursor.line + up, s.cols - 1);
      } else {
        assert end == (t.cursor.line + up) * s.cols + t.cursor.col;
        QuotientUnique(end, s.cols, t.cursor.line + up, t.cursor.col);
        assert t.cursor.col > 0;
        QuotientUnique(end - 1, s.cols, t.cursor.line + up, t.cursor.col - 1);
      }
    }
  }

  lemma OneMorePrinted(s: Screen, run: seq<CodePoint>, t: Screen, ch: CodePoint, width: CodePoint -> nat)
    requires s.Valid() && !s.insertMode && Printed(s, run, t) && width(ch) == 1
    ensures Printed(s, run + [ch], CharAppended(t, ch, width))
  {
    var u, end := CharAppended(t, ch, width), Position(s) + |run|;
    var up, next := PushedUp(s, |run|), PushedUp(s, |run| + 1);
    var at := NextCell(t);
    CharIsPutDown(t, ch, width);
    NextIsAt(s, run, t);
    PositionAfter(t, u, end, up, next);
    forall row: nat, c: nat | row < s.rows ensures Shown(u, row, c) == ThroughRegion(s, run + [ch], next, row, c) {
      OneMoreCell(s, run, t, ch, row, c);
    }
  }

  lemma PositionAfter(t: Screen, u: Screen, end: nat, up: nat, next: nat)
    requires t.Valid() && u.cols == t.cols && end / t.cols == NextCell(t).line + next && end % t.cols == NextCell(t).col
    requires u.pendingWrap == (NextCell(t).col + 1 >= t.cols)
    requires u.cursor == CursorPos(NextCell(t).line, if NextCell(t).col + 1 >= t.cols then NextCell(t).col else NextCell(t).col + 1)
    ensures Position(u) + next * t.cols == end + 1 && u.pendingWrap == ((end + 1) % t.cols == 0)
  {
    var at := NextCell(t);
    DivisionTheorem(end, t.cols);
    NextPlace(at.line + next, at.col, t.cols);
    if at.col + 1 == t.cols { Distribute(at.line + 1, next, t.cols); } else { Distribute(at.line, next, t.cols); }
  }

  lemma Distribute(a: nat, b: nat, c: nat)
    ensures (a + b) * c == a * c + b * c
  {}

  lemma NextPlace(row: nat, col: nat, cols: nat)
    requires col < cols
    ensures (row * cols + col + 1) % cols == if col + 1 == cols then 0 else col + 1
    ensures col + 1 == cols ==> row * cols + col + 1 == (row + 1) * cols
  {
    if col + 1 == cols {
      assert row * cols + col + 1 == (row + 1) * cols + 0;
      QuotientUnique(row * cols + col + 1, cols, row + 1, 0);
    } else {
      QuotientUnique(row * cols + col + 1, cols, row, col + 1);
    }
  }

  lemma OneMoreCell(s: Screen, run: seq<CodePoint>, t: Screen, ch: CodePoint, row: nat, c: nat)
    requires s.Valid() && Printed(s, run, t) && row < s.rows
    ensures CellPut(t, ch, 1, row, c) == ThroughRegion(s, run + [ch], PushedUp(s, |run| + 1), row, c)
  {
    var up, next, at := PushedUp(s, |run|), PushedUp(s, |run| + 1), NextCell(t);
    NextIsAt(s, run, t);
    if row > s.bot { return; }
    var place := if row >= s.top then row + next else row;
    CanvasGrows(s, run, ch, place, c);
    if Feeds(t) && s.top <= row < s.bot {
      assert Shown(t, row + 1, c) == Canvas(s, run, row + 1 + up, c);
    } else if Feeds(t) && row == s.bot {
      BelowIsBlank(s, run, place, c);
    } else {
      assert Shown(t, row, c) == ThroughRegion(s, run, up, row, c);
    }
  }

  /** Rows past the last character are blank. */
  lemma BelowIsBlank(s: Screen, run: seq<CodePoint>, row: nat, c: nat)
    requires s.cols > 0 && row > s.bot && (Position(s) + |run|) / s.cols == row && (Position(s) + |run|) % s.cols == 0
    ensures Canvas(s, run, row, c) == BLANK
  {
    DivisionTheorem(Position(s) + |run|, s.cols);
  }

  lemma {:induction false} RunEndsWith(s: Screen, run: seq<CodePoint>, ch: CodePoint, width: CodePoint -> nat)
    requires s.Valid()
    ensures RunAppended(s, run, width).Valid()
    ensures RunAppended(s, run + [ch], width) == CharAppended(RunAppended(s, run, width), ch, width)
    decreases |run|
  {
    RunKeepsValid(s, run, width);
    if run == [] {
      assert [] + [ch] == [ch] && [ch][1..] == [];
    } else {
      assert (run + [ch])[1..] == run[1..] + [ch];
      RunKeepsValid(s, [run[0]], width);
      RunEndsWith(CharAppended(s, run[0], width), run[1..], ch, width);
    }
  }

  lemma NothingPrinted(s: Screen)
    requires s.Valid() && TidyScreen(s) && s.cursor.line <= s.bot
    ensures Printed(s, [], s)
  {}

  /** From any tidy screen not in insert mode, with the cursor not below the bottom margin, a run of characters of
      width one is printed along the rows from the cursor's cell on, however often that scrolls the region. */
  lemma {:induction false} RunIsPrinted(s: Screen, run: seq<CodePoint>, width: CodePoint -> nat)
    requires s.Valid() && TidyScreen(s) && !s.insertMode && s.cursor.line <= s.bot
    requires forall ch | ch in run :: width(ch) == 1
    ensures Printed(s, run, RunAppended(s, run, width))
    decreases |run|
  {
    if run == [] { NothingPrinted(s); return; }
    var n := |run| - 1;
    assert run == run[..n] + [run[n]];
    RunIsPrinted(s, run[..n], width);
    RunEndsWith(s, run[..n], run[n], width);
    OneMorePrinted(s, run[..n], RunAppended(s, run[..n], width), run[n], width);
  }

  /** Row by row, each cell holds the character whose turn it is; everything else is blank, and the cursor is where
      the next character goes, unless that wrap is put off at the end of a row. */
  ghost predicate FillsFromTop(cols: nat, style: Style, run: seq<CodePoint>, t: Screen)
    requires cols > 0
  {
    && (forall row: nat, c: nat | c < cols && row * cols + c < |run| :: Shown(t, row, c) == (run[row * cols + c], [style]))
    && (forall row: nat, c: nat | c >= cols || row * cols + c >= |run| :: Shown(t, row, c) == BLANK)
    && t.pendingWrap == (run != [] && |run| % cols == 0)
    && if t.pendingWrap then t.cursor.line + 1 == |run| / cols else t.cursor == CursorPos(|run| / cols, |run| % cols)
  }

  /** That is how a run fills a blank screen, as long as it fits. */
  lemma BlankScreenFills(rows: nat, cols: nat, style: Style, run: seq<CodePoint>, width: CodePoint -> nat)
    requires rows > 0 && cols > 0 && |run| <= rows * cols && forall ch | ch in run :: width(ch) == 1
    ensures FillsFromTop(cols, style, run, RunAppended(BlankScreen(rows, cols).(style := style), run, width))
  {
    var s := BlankScreen(rows, cols).(style := style);
    RunIsPrinted(s, run, width);
    PrintedFills(s, run, RunAppended(s, run, width));
  }

  predicate WasBlank(s: Screen, n: nat) {
    s.Valid() && s == BlankScreen(s.rows, s.cols).(style := s.style) && n <= s.rows * s.cols
  }

  lemma PrintedFills(s: Screen, run: seq<CodePoint>, t: Screen)
    requires WasBlank(s, |run|) && Printed(s, run, t)
    ensures FillsFromTop(s.cols, s.style, run, t)
  {
    CharsOnBlank(s, run, t);
    RestIsBlank(s, run, t);
    EndOnBlank(s, run, t);
  }

  lemma CharsOnBlank(s: Screen, run: seq<CodePoint>, t: Screen)
    requires WasBlank(s, |run|) && Printed(s, run, t)
    ensures forall row: nat, c: nat | c < s.cols && row * s.cols + c < |run| :: Shown(t, row, c) == (run[row * s.cols + c], [s.style])
  {
    forall row: nat, c: nat | c < s.cols && row * s.cols + c < |run|
      ensures Shown(t, row, c) == (run[row * s.cols + c], [s.style])
    { CharOnBlank(s, run, t, row, c, row * s.cols + c); }
  }

  lemma RestIsBlank(s: Screen, run: seq<CodePoint>, t: Screen)
    requires WasBlank(s, |run|) && Printed(s, run, t)
    ensures forall row: nat, c: nat | c >= s.cols || row * s.cols + c >= |run| :: Shown(t, row, c) == BLANK
  {
    forall row: nat, c: nat | c >= s.cols || row * s.cols + c >= |run| ensures Shown(t, row, c) == BLANK { OnBlank(s, run, t, row, c); }
  }

  lemma EndOnBlank(s: Screen, run: seq<CodePoint>, t: Screen)
    requires WasBlank(s, |run|) && Printed(s, run, t)
    ensures t.pendingWrap == (run != [] && |run| % s.cols == 0)
    ensures if t.pendingWrap then t.cursor.line + 1 == |run| / s.cols else t.cursor == CursorPos(|run| / s.cols, |run| % s.cols)
  {
    FitsWithoutScrolling(s.rows, s.cols, |run|);
    assert PushedUp(s, |run|) == 0;
    EndIsAt(t, 0, |run|);
  }

  lemma CharOnBlank(s: Screen, run: seq<CodePoint>, t: Screen, row: nat, c: nat, i: nat)
    requires WasBlank(s, |run|) && Printed(s, run, t)
    requires i < |run| && row * s.cols + c == i && c < s.cols
    ensures Shown(t, row, c) == (run[i], [s.style])
  {
    OnBlank(s, run, t, row, c);
  }

  /** Nothing was pushed up, so the canvas is what is shown. */
  lemma OnBlank(s: Screen, run: seq<CodePoint>, t: Screen, row: nat, c: nat)
    requires WasBlank(s, |run|) && Printed(s, run, t)
    ensures Shown(t, row, c) == Canvas(s, run, row, c)
  {
    FitsWithoutScrolling(s.rows, s.cols, |run|);
    assert Position(s) == 0;
    if row >= s.rows { MulMonotone(s.rows, row, s.cols); }
  }

  lemma FitsWithoutScrolling(rows: nat, cols: nat, n: nat)
    requires rows > 0 && cols > 0 && n <= rows * cols
    ensures n > 0 ==> (n - 1) / cols < rows
  {
    if n > 0 {
      DivisionTheorem(n - 1, cols);
      if (n - 1) / cols >= rows { MulMonotone(rows, (n - 1) / cols, cols); }
    }
  }

  // ------------------------------------------------------------- wide characters

  /** Every character counts as one cell. */
  function One(): CodePoint -> nat { (ch: CodePoint) => 1 }

  /** The cells a run takes from a column on: a wide character takes its own and a filler, unless it stands in the last
      column, where the filler is left out. */
  function CellsOf(run: seq<CodePoint>, col: nat, cols: nat, width: CodePoint -> nat): seq<CodePoint>
    requires col < cols
    decreases |run|
  {
    if run == [] then []
    else if width(run[0]) == 2 && col + 1 < cols then
      [run[0], WIDE_FILLER] + CellsOf(run[1..], if col + 2 < cols then col + 2 else 0, cols, width)
    else [run[0]] + CellsOf(run[1..], if col + 1 < cols then col + 1 else 0, cols, width)
  }

  /** Only the column the cursor waits in may differ, and only while a wrap is put off. */
  predicate Alike(a: Screen, b: Screen) {
    a == b.(cursor := a.cursor) && (if a.pendingWrap then a.cursor.line == b.cursor.line else a.cursor == b.cursor)
  }

  function NextCol(s: Screen): nat {
    if s.pendingWrap then 0 else s.cursor.col
  }

  lemma AlikePrintAlike(a: Screen, b: Screen, ch: CodePoint, width: CodePoint -> nat)
    requires a.Valid() && b.Valid() && Alike(a, b)
    ensures CharAppended(a, ch, width) == CharAppended(b, ch, width)
  {}

  lemma {:induction false} AlikeRunsAlike(a: Screen, b: Screen, run: seq<CodePoint>, width: CodePoint -> nat)
    requires a.Valid() && b.Valid() && Alike(a, b)
    ensures Alike(RunAppended(a, run, width), RunAppended(b, run, width))
  {
    if run != [] { AlikePrintAlike(a, b, run[0], width); }
  }

  lemma NarrowAppended(s: Screen, ch: CodePoint, width: CodePoint -> nat)
    requires s.Valid() && (width(ch) == 1 || (width(ch) == 2 && NextCol(s) + 1 >= s.cols))
    ensures var t := CharAppended(s, ch, width);
            && t.Valid() && t.cols == s.cols && t == CharAppended(s, ch, One())
            && NextCol(t) == if NextCol(s) + 1 < s.cols then NextCol(s) + 1 else 0
  {}

  lemma WideAppended(s: Screen, ch: CodePoint, width: CodePoint -> nat)
    requires s.Valid() && width(ch) == 2 && NextCol(s) + 1 < s.cols
    ensures var t, u := CharAppended(s, ch, width), CharAppended(CharAppended(s, ch, One()), WIDE_FILLER, One());
            && t.Valid() && u.Valid() && t.cols == s.cols && Alike(t, u)
            && NextCol(t) == if NextCol(s) + 2 < s.cols then NextCol(s) + 2 else 0
  {
    WidePut(if s.pendingWrap then LineFeed(s) else s, ch, width);
  }

  lemma WidePut(s: Screen, ch: CodePoint, width: CodePoint -> nat)
    requires s.Valid() && !s.pendingWrap && width(ch) == 2 && s.cursor.col + 1 < s.cols
    ensures var t, one := CharPut(s, ch, width), CharPut(s, ch, One());
            && t.Valid() && one.Valid() && !one.pendingWrap && t.cols == s.cols && Alike(t, CharPut(one, WIDE_FILLER, One()))
            && NextCol(t) == if s.cursor.col + 2 < s.cols then s.cursor.col + 2 else 0
  {
    var at := s.cursor;
    var first := Put(s.lines[at.line], at.col, ch, s.style, s.insertMode);
    var both := Put(first, at.col + 1, WIDE_FILLER, s.style, s.insertMode);
    var t, one := CharPut(s, ch, width), CharPut(s, ch, One());
    assert t.lines == s.lines[at.line := both];
    assert one.lines == s.lines[at.line := first] && one.cursor == CursorPos(at.line, at.col + 1);
    assert CharPut(one, WIDE_FILLER, One()).lines == one.lines[at.line := both] == t.lines;
  }

  lemma TwoAppended(s: Screen, a: CodePoint, b: CodePoint, rest: seq<CodePoint>, width: CodePoint -> nat)
    requires s.Valid()
    ensures var one := CharAppended(s, a, width);
            && one.Valid() && CharAppended(one, b, width).Valid()
            && RunAppended(s, [a, b] + rest, width) == RunAppended(CharAppended(one, b, width), rest, width)
  {
    RunKeepsValid(s, [a], width);
    RunKeepsValid(CharAppended(s, a, width), [b], width);
    assert [a][1..] == [] && [b][1..] == [];
    assert ([a, b] + rest)[1..] == [b] + rest && ([b] + rest)[1..] == rest;
  }

  lemma WideFirst(s: Screen, run: seq<CodePoint>, width: CodePoint -> nat)
    requires s.Valid() && run != [] && width(run[0]) == 2 && NextCol(s) + 1 < s.cols
    ensures var t := CharAppended(s, run[0], width);
            && t.Valid() && t.cols == s.cols
            && Alike(RunAppended(t, CellsOf(run[1..], NextCol(t), s.cols, width), One()),
                     RunAppended(s, CellsOf(run, NextCol(s), s.cols, width), One()))
  {
    var t := CharAppended(s, run[0], width);
    WideAppended(s, run[0], width);
    var rest := CellsOf(run[1..], NextCol(t), s.cols, width);
    assert CellsOf(run, NextCol(s), s.cols, width) == [run[0], WIDE_FILLER] + rest;
    TwoAppended(s, run[0], WIDE_FILLER, rest, One());
    AlikeRunsAlike(t, CharAppended(CharAppended(s, run[0], One()), WIDE_FILLER, One()), rest, One());
  }

  lemma NarrowFirst(s: Screen, run: seq<CodePoint>, width: CodePoint -> nat)
    requires s.Valid() && run != [] && (width(run[0]) == 1 || (width(run[0]) == 2 && NextCol(s) + 1 >= s.cols))
    ensures var t := CharAppended(s, run[0], width);
            && t.Valid() && t.cols == s.cols
            && RunAppended(t, CellsOf(run[1..], NextCol(t), s.cols, width), One()) ==
               RunAppended(s, CellsOf(run, NextCol(s), s.cols, width), One())
  {
    var t := CharAppended(s, run[0], width);
    NarrowAppended(s, run[0], width);
    assert CellsOf(run, NextCol(s), s.cols, width)[1..] == CellsOf(run[1..], NextCol(t), s.cols, width);
  }

  /** Printing wide characters is printing their cells, in insert mode too. */
  lemma {:induction false} WideRunIsItsCells(s: Screen, run: seq<CodePoint>, width: CodePoint -> nat)
    requires s.Valid() && forall ch | ch in run :: width(ch) == 1 || width(ch) == 2
    ensures Alike(RunAppended(s, run, width), RunAppended(s, CellsOf(run, NextCol(s), s.cols, width), One()))
    decreases |run|
  {
    if run == [] { return; }
    assert run[0] in run;
    if width(run[0]) == 2 && NextCol(s) + 1 < s.cols { WideFirst(s, run, width); } else { NarrowFirst(s, run, width); }
    WideRunIsItsCells(CharAppended(s, run[0], width), run[1..], width);
  }

  /** So it fills the cells from the cursor's on, scrolling as it must. */
  lemma WideRunIsPrinted(s: Screen, run: seq<CodePoint>, width: CodePoint -> nat)
    requires s.Valid() && TidyScreen(s) && !s.insertMode && s.cursor.line <= s.bot
    requires forall ch | ch in run :: width(ch) == 1 || width(ch) == 2
    ensures exists t :: Alike(RunAppended(s, run, width), t) && Printed(s, CellsOf(run, NextCol(s), s.cols, width), t)
  {
    var cells := CellsOf(run, NextCol(s), s.cols, width);
    WideRunIsItsCells(s, run, width);
    RunIsPrinted(s, cells, One());
    assert Alike(RunAppended(s, run, width), RunAppended(s, cells, One()));
  }
}
