/** What the other calls do to the cells and the cursor of the alternate screen
    (src/document/Document.cpp:906-1303). */
module AltEditing {
  import opened Style
  import opened Lines
  import opened ShownCells
  import opened Parser
  import opened MainScreen
  import opened AltScreen
  import opened AltPrinting

  // ------------------------------------------------------------ where the cursor goes

  /** The whole number in the range that is nearest to the one aimed at. */
  ghost predicate Nearest(v: nat, aim: int, size: nat) {
    v < size && forall x: nat | x < size :: Distance(v, aim) <= Distance(x, aim)
  }

  function Distance(v: nat, aim: int): nat {
    if v <= aim then aim - v else v - aim
  }

  /** The row and column a movement aims at, counted from 0, on the screen or off it. */
  function Aim(s: Screen, call: Call): Option<(int, int)> {
    var (row, col) := (s.cursor.line, s.cursor.col);
    match call
    case MoveCursorUp(n) => Some((row - n, col))
    case MoveCursorDown(n) => Some((row + n, col))
    case MoveCursorRight(n) => Some((row, col + n))
    case MoveCursorLeft(n) => Some((row, col - n))
    case MoveCursorToPosition(r, c) => Some((r - 1, c - 1))
    case MoveCursorToColumn(c) => Some((row, c - 1))
    case MoveCursorToRow(r) => Some((r - 1, col))
    case MoveCursorToLineStart => Some((row, 0))
    case MoveCursorToLineEnd => Some((row, s.cols - 1))
    case CarriageReturn => Some((row, 0))
    case RestoreCursor => Some((s.saved.line, s.saved.col))
    case _ => None
  }

  /** A movement goes as near to where it is aimed as the grid allows, forgets a wrap that was put off, and
      changes nothing else. */
  lemma MovesToItsAim(s: Screen, call: Call, width: CodePoint -> nat)
    requires s.Valid() && ParserSupplied(call) && Aim(s, call).Some?
    ensures var t, aim := Applied(s, call, width), Aim(s, call).value;
            && t == s.(pendingWrap := false, cursor := t.cursor)
            && Nearest(t.cursor.line, aim.0, s.rows) && Nearest(t.cursor.col, aim.1, s.cols)
  {}

  /** There is only one such place. */
  lemma NearestIsUnique(v: nat, w: nat, aim: int, size: nat)
    requires Nearest(v, aim, size) && Nearest(w, aim, size)
    ensures v == w
  {
    assert Distance(v, aim) <= Distance(w, aim) && Distance(w, aim) <= Distance(v, aim);
    if v < w { BetweenIsNearer(v, w, aim); }
    if w < v { BetweenIsNearer(w, v, aim); }
  }

  lemma BetweenIsNearer(v: nat, w: nat, aim: int)
    requires v < w && Distance(v, aim) == Distance(w, aim)
    ensures v + 1 < w && Distance(v + 1, aim) < Distance(v, aim)
  {}

  /** The margins asked for, counted from 1; what is out of range, or the wrong way round, stands for the edge of the
      screen. The cursor goes to the top of the region. */
  lemma MarginsAsAsked(s: Screen, top: int, bot: int, width: CodePoint -> nat)
    requires s.Valid()
    ensures var t := Applied(s, SetScrollRegion(top, bot), width);
            && t == s.(top := t.top, bot := t.bot, cursor := CursorPos(t.top, 0), pendingWrap := false)
            && (if 1 <= top <= s.rows then t.top == top - 1 else t.top == 0)
            && (if t.top < bot <= s.rows then t.bot == bot - 1 else t.bot == s.rows - 1)
  {}

  lemma {:induction false} SavedStays(s: Screen, calls: seq<Call>, width: CodePoint -> nat)
    requires s.Valid() && AllSupplied(calls) && SaveCursor !in calls && ResetTerminal !in calls
    ensures Played(s, calls, width).saved == s.saved
    decreases |calls|
  {
    if calls != [] {
      CallKeepsValid(s, calls[0], width);
      if calls[0].AppendRun? { RunKeepsSaved(s, calls[0].run, width); }
      SavedStays(Applied(s, calls[0], width), calls[1..], width);
    }
  }

  lemma {:induction false} RunKeepsSaved(s: Screen, run: seq<CodePoint>, width: CodePoint -> nat)
    requires s.Valid()
    ensures RunAppended(s, run, width).saved == s.saved
    decreases |run|
  {
    if run != [] {
      RunKeepsValid(s, [run[0]], width);
      RunKeepsSaved(CharAppended(s, run[0], width), run[1..], width);
    }
  }

  /** The cursor comes back to where it was saved, whatever happens in between. */
  lemma SavedCursorComesBack(s: Screen, calls: seq<Call>, width: CodePoint -> nat)
    requires s.Valid() && AllSupplied(calls) && SaveCursor !in calls && ResetTerminal !in calls
    ensures AllSupplied([SaveCursor] + calls + [RestoreCursor])
    ensures Played(s, [SaveCursor] + calls + [RestoreCursor], width).cursor == s.cursor
  {
    var saved := Applied(s, SaveCursor, width);
    PlayedOne(s, SaveCursor, width);
    PlayedAppends(s, [SaveCursor], calls, width);
    SavedStays(saved, calls, width);
    PlayedOne(Played(saved, calls, width), RestoreCursor, width);
    PlayedAppends(s, [SaveCursor] + calls, [RestoreCursor], width);
  }

  /** A reset leaves nothing of what there was but the size; a new size leaves the cursor as near as it gets, the modes,
      the style and the saved position. Either way nothing is shown and the whole screen is the region. */
  lemma ResetAndResizeBlank(s: Screen, width: CodePoint -> nat, rows: nat, cols: nat)
    requires s.Valid() && rows > 0 && cols > 0
    ensures var t := Applied(s, ResetTerminal, width);
            && AllBlank(t, s.rows, s.cols) && t.cursor == t.saved == CursorPos(0, 0)
            && !t.pendingWrap && !t.insertMode && t.style == DEFAULT_STYLE
    ensures var t := Resized(s, rows, cols);
            && AllBlank(t, rows, cols) && Nearest(t.cursor.line, s.cursor.line, rows) && Nearest(t.cursor.col, s.cursor.col, cols)
            && !t.pendingWrap && t.insertMode == s.insertMode && t.style == s.style && t.saved == s.saved
  {
    BlankLine();
  }

  ghost predicate AllBlank(t: Screen, rows: nat, cols: nat) {
    && t.rows == rows == |t.lines| && t.cols == cols && t.top == 0 && t.bot == rows - 1 && TidyScreen(t)
    && forall row: nat, c: nat :: Shown(t, row, c) == BLANK
  }

  // ------------------------------------------------------------- what is shown after it

  /** The edits that keep the rows where they are. */
  predicate EditsRow(call: Call) {
    call.EraseInLine? || call.EraseChar? || call.DeleteChar? || call.InsertChar?
  }

  /** What is shown in the cursor's row after an edit of it. */
  function RowCellAfter(s: Screen, call: Call, c: nat): Cell
    requires s.Valid() && ParserSupplied(call) && EditsRow(call)
  {
    var was, col := CellAt(s.lines[s.cursor.line], c), s.cursor.col;
    match call
    case EraseInLine(mode) =>
      if (mode == 0 && c >= col) || mode == 2 then BLANK else if mode == 1 && c <= col then (SPACE, was.1) else was
    case EraseChar(n) => if col <= c < col + n && c < s.cols then (SPACE, [s.style]) else was
    case DeleteChar(n) => if c < col then was else CellAt(s.lines[s.cursor.line], c + n)
    case InsertChar(n) => if c >= s.cols then BLANK else ShownAfter(s.lines[s.cursor.line], col, n, (SPACE, [s.style]), c)
  }

  /** Blanks may be put into the line. */
  predicate Editable(s: Screen, call: Call)
    requires s.Valid()
  {
    call.InsertChar? ==> MayInsert(CursorLine(s), s.cursor.col)
  }

  lemma BlankStartShows(line: Line, n: nat)
    requires Tidy(line)
    ensures var now := BlankStart(line, n);
            Tidy(now) && forall c: nat :: CellAt(now, c) == if c < n then (SPACE, CellAt(line, c).1) else CellAt(line, c)
  {}

  lemma {:induction false} SpacesShow(line: Line, from: nat, upto: nat, style: Style)
    requires Tidy(line) && from <= upto
    ensures var now := Spaces(line, from, upto, style);
            Tidy(now) && forall c: nat :: CellAt(now, c) == if from <= c < upto then (SPACE, [style]) else CellAt(line, c)
    decreases upto - from
  {
    if from < upto {
      SpacesShow(line, from, upto - 1, style);
      WriteShows(Spaces(line, from, upto - 1, style), upto - 1, SPACE, style);
    }
  }

  lemma InsertedLineShows(s: Screen, n: nat)
    requires s.Valid() && Tidy(CursorLine(s)) && Editable(s, InsertChar(n))
    ensures var now := CursorLine(CharsInserted(s, n));
            && Tidy(now)
            && forall c: nat :: CellAt(now, c) ==
                 if c >= s.cols then BLANK else ShownAfter(CursorLine(s), s.cursor.col, n, (SPACE, [s.style]), c)
  {
    var line := CursorLine(s);
    var more := InsertMany(line, s.cursor.col, n, SPACE, s.style);
    InsertManyShows(line, s.cursor.col, n, SPACE, s.style);
    if |more.text| > s.cols {
      DeleteShows(more, s.cols, |more.text| - s.cols);
    }
  }

  /** Other rows stay, and so do the cursor and everything else. */
  predicate OnlyRow(s: Screen, t: Screen)
    requires s.Valid()
  {
    t == s.(lines := t.lines) && |t.lines| == s.rows && t.lines == s.lines[s.cursor.line := t.lines[s.cursor.line]]
  }

  /** The row is shown as it should be, and nothing else has changed. */
  ghost predicate RowEdited(s: Screen, call: Call, t: Screen)
    requires s.Valid() && ParserSupplied(call) && EditsRow(call)
  {
    OnlyRow(s, t) && TidyScreen(t) && forall c: nat :: Shown(t, s.cursor.line, c) == RowCellAfter(s, call, c)
  }

  lemma LineEraseShows(s: Screen, mode: int)
    requires s.Valid() && TidyScreen(s)
    ensures RowEdited(s, EraseInLine(mode), LineErased(s, mode))
  {
    TruncateShows(CursorLine(s), s.cursor.col);
    BlankStartShows(CursorLine(s), s.cursor.col + 1);
  }

  lemma CharEraseShows(s: Screen, n: nat)
    requires s.Valid() && TidyScreen(s)
    ensures RowEdited(s, EraseChar(n), CharsErased(s, n))
  {
    SpacesShow(CursorLine(s), s.cursor.col, Min(s.cursor.col + n, s.cols), s.style);
  }

  lemma CharDeleteShows(s: Screen, n: nat)
    requires s.Valid() && TidyScreen(s)
    ensures RowEdited(s, DeleteChar(n), WithCursorLine(s, Delete(CursorLine(s), s.cursor.col, n)))
  {
    DeleteShows(CursorLine(s), s.cursor.col, n);
  }

  lemma CharInsertShows(s: Screen, n: nat)
    requires s.Valid() && TidyScreen(s) && Editable(s, InsertChar(n))
    ensures RowEdited(s, InsertChar(n), CharsInserted(s, n))
  {
    InsertedLineShows(s, n);
  }

  /** Erasing, deleting and inserting cells edit the cursor's row, cell by cell, and nothing else. */
  lemma RowEditShows(s: Screen, call: Call, width: CodePoint -> nat)
    requires s.Valid() && TidyScreen(s) && ParserSupplied(call) && EditsRow(call) && Editable(s, call)
    ensures RowEdited(s, call, Applied(s, call, width))
  {
    match call
    case EraseInLine(mode) => LineEraseShows(s, mode);
    case EraseChar(n) => CharEraseShows(s, n);
    case DeleteChar(n) => CharDeleteShows(s, n);
    case InsertChar(n) => CharInsertShows(s, n);
  }

  // ------------------------------------------------------------------- whole rows

  /** What is shown after erasing in the display. */
  function DisplayCellAfter(s: Screen, mode: int, row: nat, c: nat): Cell {
    var (line, col) := (s.cursor.line, s.cursor.col);
    var after, before := row > line || (row == line && c >= col), row < line || (row == line && c <= col);
    if mode == 2 || mode == 3 || (mode == 0 && after) || (mode == 1 && row < line) then BLANK
    else if mode == 1 && before then (SPACE, Shown(s, row, c).1)
    else Shown(s, row, c)
  }

  /** Erasing in the display blanks what lies behind the cursor, before it, or everything; in the last case the
      cursor goes home. Before it in its own row, the styles stay. */
  lemma DisplayEraseShows(s: Screen, mode: int, width: CodePoint -> nat)
    requires s.Valid() && TidyScreen(s)
    ensures var t := Applied(s, EraseInDisplay(mode), width);
            && TidyScreen(t) && |t.lines| == s.rows
            && t == (if mode == 2 || mode == 3 then s.(lines := t.lines, cursor := CursorPos(0, 0), pendingWrap := false)
                     else s.(lines := t.lines))
            && forall row: nat, c: nat | row < s.rows :: Shown(t, row, c) == DisplayCellAfter(s, mode, row, c)
  {
    TruncateShows(CursorLine(s), s.cursor.col);
    BlankStartShows(CursorLine(s), s.cursor.col + 1);
    var t := Applied(s, EraseInDisplay(mode), width);
    forall row | 0 <= row < s.rows
      ensures t.lines[row] ==
                if mode == 2 || mode == 3 || (mode == 0 && row > s.cursor.line) || (mode == 1 && row < s.cursor.line) then EMPTY_LINE
                else if mode == 0 && row == s.cursor.line then Truncate(CursorLine(s), s.cursor.col)
                else if mode == 1 && row == s.cursor.line then BlankStart(CursorLine(s), s.cursor.col + 1)
                else s.lines[row]
    {}
  }

  /** The row whose line is shown in a row when the rows from `lo` to the bottom margin move up by `n`, or down by `-n`;
      none if a blank line comes in. */
  function Source(s: Screen, lo: nat, n: int, row: nat): Option<nat> {
    if row < lo || row > s.bot then Some(row) else if lo <= row + n <= s.bot then Some(row + n) else None
  }

  function LineFrom(s: Screen, from: Option<nat>): Line {
    if from.Some? && from.value < |s.lines| then s.lines[from.value] else EMPTY_LINE
  }

  ghost predicate Rolled(s: Screen, lo: nat, n: int, t: Screen) {
    && t.lines == seq(|s.lines|, row requires 0 <= row => LineFrom(s, Source(s, lo, n, row)))
  }

  /** The rows that inserting and deleting lines and the two feeds move: from the first one on that may move, and by
      how many upwards. */
  function Roll(s: Screen, call: Call): Option<(nat, int)> {
    var line := s.cursor.line;
    match call
    case NewLine => if line == s.bot then Some((s.top, 1)) else None
    case ReverseIndex => if line <= s.top then Some((s.top, -1)) else None
    case InsertLines(n) => if s.top <= line <= s.bot then Some((line, -n)) else None
    case DeleteLines(n) => if s.top <= line <= s.bot then Some((line, n)) else None
    case _ => None
  }

  lemma ShiftsRoll(s: Screen, lo: nat, n: nat)
    requires s.Valid() && lo <= s.bot
    ensures var k := Min(n, s.bot - lo + 1);
            && Rolled(s, lo, n, s.(lines := ShiftUp(s.lines, lo, s.bot, k)))
            && Rolled(s, lo, 0 - n, s.(lines := ShiftDown(s.lines, lo, s.bot, k)))
  {
    var k := Min(n, s.bot - lo + 1);
    var up, down := ShiftUp(s.lines, lo, s.bot, k), ShiftDown(s.lines, lo, s.bot, k);
    forall row | 0 <= row < s.rows ensures up[row] == LineFrom(s, Source(s, lo, n, row)) {}
    forall row | 0 <= row < s.rows ensures down[row] == LineFrom(s, Source(s, lo, 0 - n, row)) {}
  }

  /** Where these calls leave the cursor: a line feed at the start of the next row, if there is one and the margin is not
      in between; a reverse index one row up, unless it is at or above the top margin; the others where it was. */
  function CursorAfter(s: Screen, call: Call): CursorPos {
    var at := s.cursor;
    match call
    case NewLine => CursorPos(if at.line == s.bot || at.line + 1 == s.rows then at.line else at.line + 1, 0)
    case ReverseIndex => if at.line > s.top then CursorPos(at.line - 1, at.col) else at
    case _ => at
  }

  ghost predicate RollsAs(s: Screen, call: Call, t: Screen) {
    var roll := Roll(s, call);
    && (if roll.Some? then Rolled(s, roll.value.0, roll.value.1, t) else t.lines == s.lines)
    && t == s.(lines := t.lines, cursor := CursorAfter(s, call), pendingWrap := !call.NewLine? && s.pendingWrap)
  }

  lemma FeedsRoll(s: Screen)
    requires s.Valid()
    ensures RollsAs(s, NewLine, LineFeed(s)) && RollsAs(s, ReverseIndex, ReverseFeed(s))
  {
    ShiftsRoll(s, s.top, 1);
  }

  lemma LineEditsRoll(s: Screen, n: nat)
    requires s.Valid()
    ensures RollsAs(s, InsertLines(n), LinesInserted(s, n)) && RollsAs(s, DeleteLines(n), LinesDeleted(s, n))
  {
    if InRegion(s) { ShiftsRoll(s, s.cursor.line, n); }
  }

  predicate Rolls(call: Call) {
    call.NewLine? || call.ReverseIndex? || call.InsertLines? || call.DeleteLines?
  }

  /** These four calls roll rows inside the margins and leave every other row alone. */
  lemma RollsRows(s: Screen, call: Call, width: CodePoint -> nat)
    requires s.Valid() && ParserSupplied(call) && Rolls(call)
    ensures RollsAs(s, call, Applied(s, call, width))
  {
    match call
    case NewLine => FeedsRoll(s);
    case ReverseIndex => FeedsRoll(s);
    case InsertLines(n) => LineEditsRoll(s, n);
    case DeleteLines(n) => LineEditsRoll(s, n);
  }

  // ---------------------------------------------------------------- tidy screens stay so

  lemma RolledIsTidy(s: Screen, lo: nat, n: int, t: Screen)
    requires TidyScreen(s) && Rolled(s, lo, n, t)
    ensures TidyScreen(t)
  {
    BlankLine();
  }

  lemma {:induction false} RunIsTidy(s: Screen, run: seq<CodePoint>, width: CodePoint -> nat)
    requires s.Valid() && TidyScreen(s) && !s.insertMode
    ensures TidyScreen(RunAppended(s, run, width))
    decreases |run|
  {
    if run != [] {
      CharIsPutDown(s, run[0], width);
      RunIsTidy(CharAppended(s, run[0], width), run[1..], width);
    }
  }

  /** Every call keeps one style to each cell, but for an insertion in front of a later run. */
  lemma TidyIsKept(s: Screen, call: Call, width: CodePoint -> nat)
    requires s.Valid() && TidyScreen(s) && ParserSupplied(call) && Editable(s, call) && (call.AppendRun? ==> !s.insertMode)
    ensures TidyScreen(Applied(s, call, width))
  {
    if EditsRow(call) { RowEditShows(s, call, width); return; }
    if Aim(s, call).Some? { MovesToItsAim(s, call, width); return; }
    if call.EraseInDisplay? { DisplayEraseShows(s, call.mode, width); return; }
    if call.AppendRun? { RunIsTidy(s, call.run, width); return; }
    if Rolls(call) {
      RollsRows(s, call, width);
      if Roll(s, call).Some? { RolledIsTidy(s, Roll(s, call).value.0, Roll(s, call).value.1, Applied(s, call, width)); }
    }
  }
}
