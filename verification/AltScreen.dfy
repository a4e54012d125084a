/** The alternate screen: a fixed grid with scroll margins (src/document/Document.cpp:840-1303).

    `Screen` is the state as a value, with one function per operation; the class edits it in place.
    Change notifications and the title are left out.
  */
module AltScreen {
  import opened Style
  import opened Lines
  import opened Parser
  import opened MainScreen

  datatype Screen = Screen(lines: seq<Line>, rows: nat, cols: nat, top: nat, bot: nat, cursor: CursorPos,
                           saved: CursorPos, pendingWrap: bool, insertMode: bool, style: Style)
  {
    predicate Valid() {
      && rows > 0 && cols > 0 && |lines| == rows
      && cursor.line < rows && cursor.col < cols
      && top <= bot < rows
    }
  }

  function BlankScreen(rows: nat, cols: nat): Screen
    requires rows > 0
  {
    Screen(Fill(rows, EMPTY_LINE), rows, cols, 0, rows - 1, CursorPos(0, 0), CursorPos(0, 0), false, false, DEFAULT_STYLE)
  }

  function ClampedTo(s: Screen, line: nat, col: nat): CursorPos
    requires s.Valid()
  {
    CursorPos(Min(line, s.rows - 1), Min(col, s.cols - 1))
  }

  /** Any cursor movement drops a deferred wrap. */
  function At(s: Screen, line: nat, col: nat): Screen
    requires s.Valid()
  {
    s.(pendingWrap := false, cursor := ClampedTo(s, line, col))
  }

  function CursorLine(s: Screen): Line
    requires s.Valid()
  {
    s.lines[s.cursor.line]
  }

  function WithCursorLine(s: Screen, line: Line): Screen
    requires s.Valid()
  {
    s.(lines := s.lines[s.cursor.line := line])
  }

  // ------------------------------------------------------------- scrolling

  /** Lines `[lo, hi]` moved up by `n`, blank lines behind them. */
  function ShiftUp(lines: seq<Line>, lo: nat, hi: nat, n: nat): seq<Line>
    requires lo + n <= hi + 1 <= |lines|
  {
    lines[..lo] + lines[lo + n..hi + 1] + Fill(n, EMPTY_LINE) + lines[hi + 1..]
  }

  /** Lines `[lo, hi]` moved down by `n`, blank lines before them. */
  function ShiftDown(lines: seq<Line>, lo: nat, hi: nat, n: nat): seq<Line>
    requires lo + n <= hi + 1 <= |lines|
  {
    lines[..lo] + Fill(n, EMPTY_LINE) + lines[lo..hi + 1 - n] + lines[hi + 1..]
  }

  function LineFeed(s: Screen): Screen
    requires s.Valid()
  {
    var s := s.(pendingWrap := false);
    if s.cursor.line < s.bot then s.(cursor := CursorPos(s.cursor.line + 1, 0))
    else if s.cursor.line == s.bot then
      s.(lines := ShiftUp(s.lines, s.top, s.bot, 1), cursor := CursorPos(s.cursor.line, 0))
    else s.(cursor := CursorPos(Min(s.cursor.line + 1, s.rows - 1), 0))
  }

  /** At or above the top margin the region scrolls down; the cursor stays. */
  function ReverseFeed(s: Screen): Screen
    requires s.Valid()
  {
    if s.cursor.line > s.top then s.(cursor := CursorPos(s.cursor.line - 1, s.cursor.col))
    else s.(lines := ShiftDown(s.lines, s.top, s.bot, 1))
  }

  function Margins(s: Screen, top: int, bot: int): Screen
    requires s.Valid()
  {
    var t := if top <= 0 then 0 else top - 1;
    var b := if bot <= 0 || bot > s.rows then s.rows - 1 else bot - 1;
    var t' := if t >= s.rows then 0 else t;
    var b' := if b < t' then s.rows - 1 else b;
    s.(top := t', bot := b', pendingWrap := false, cursor := CursorPos(t', 0))
  }

  function InRegion(s: Screen): bool {
    s.top <= s.cursor.line <= s.bot
  }

  function LinesInserted(s: Screen, count: nat): Screen
    requires s.Valid()
  {
    if !InRegion(s) then s
    else s.(lines := ShiftDown(s.lines, s.cursor.line, s.bot, Min(count, s.bot - s.cursor.line + 1)))
  }

  function LinesDeleted(s: Screen, count: nat): Screen
    requires s.Valid()
  {
    if !InRegion(s) then s
    else s.(lines := ShiftUp(s.lines, s.cursor.line, s.bot, Min(count, s.bot - s.cursor.line + 1)))
  }

  // ---------------------------------------------------------------- writing

  function CharPut(s: Screen, ch: CodePoint, width: CodePoint -> nat): Screen
    requires s.Valid()
  {
    var at := s.cursor;
    var one := Put(CursorLine(s), at.col, ch, s.style, s.insertMode);
    var line := if width(ch) == 2 && at.col + 1 < s.cols then Put(one, at.col + 1, WIDE_FILLER, s.style, s.insertMode)
                else one;
    var s := WithCursorLine(s, line);
    if at.col + width(ch) >= s.cols then s.(pendingWrap := true)
    else s.(cursor := CursorPos(at.line, at.col + width(ch)))
  }

  /** A deferred wrap is taken first. */
  function CharAppended(s: Screen, ch: CodePoint, width: CodePoint -> nat): Screen
    requires s.Valid()
  {
    CharPut(if s.pendingWrap then LineFeed(s) else s, ch, width)
  }

  function RunAppended(s: Screen, run: seq<CodePoint>, width: CodePoint -> nat): Screen
    requires s.Valid()
    decreases |run|
  {
    if run == [] then s else RunAppended(CharAppended(s, run[0], width), run[1..], width)
  }

  /** The first `n` characters of the text replaced by spaces; the styles stay. */
  function BlankStart(line: Line, n: nat): Line {
    var n := Min(n, |line.text|);
    Line(Fill(n, SPACE) + line.text[n..], line.styles)
  }

  function Spaces(line: Line, from: nat, upto: nat, style: Style): Line
    requires from <= upto
    decreases upto - from
  {
    if from == upto then line else Write(Spaces(line, from, upto - 1, style), upto - 1, SPACE, style)
  }

  function LineErased(s: Screen, mode: int): Screen
    requires s.Valid()
  {
    var line := CursorLine(s);
    if mode == 0 then WithCursorLine(s, Truncate(line, s.cursor.col))
    else if mode == 1 then WithCursorLine(s, BlankStart(line, s.cursor.col + 1))
    else if mode == 2 then WithCursorLine(s, EMPTY_LINE)
    else s
  }

  function CharsErased(s: Screen, count: nat): Screen
    requires s.Valid()
  {
    WithCursorLine(s, Spaces(CursorLine(s), s.cursor.col, Min(s.cursor.col + count, s.cols), s.style))
  }

  function CharsInserted(s: Screen, count: nat): Screen
    requires s.Valid()
  {
    var line := InsertMany(CursorLine(s), s.cursor.col, count, SPACE, s.style);
    WithCursorLine(s, if |line.text| > s.cols then Delete(line, s.cols, |line.text| - s.cols) else line)
  }

  function DisplayErased(s: Screen, mode: int): Screen
    requires s.Valid()
  {
    var at := s.cursor;
    if mode == 0 then
      s.(lines := s.lines[..at.line] + [Truncate(CursorLine(s), at.col)] + Fill(s.rows - at.line - 1, EMPTY_LINE))
    else if mode == 1 then
      s.(lines := Fill(at.line, EMPTY_LINE) + [BlankStart(CursorLine(s), at.col + 1)] + s.lines[at.line + 1..])
    else if mode == 2 || mode == 3 then
      s.(lines := Fill(s.rows, EMPTY_LINE), pendingWrap := false, cursor := CursorPos(0, 0))
    else s
  }

  function Resized(s: Screen, rows: nat, cols: nat): Screen
    requires rows > 0 && cols > 0
  {
    s.(lines := Fill(rows, EMPTY_LINE), rows := rows, cols := cols, top := 0, bot := rows - 1, pendingWrap := false,
       cursor := CursorPos(Min(s.cursor.line, rows - 1), Min(s.cursor.col, cols - 1)))
  }

  // ------------------------------------------------------ the parser's calls

  /** What the parser guarantees about the counts it passes. */
  predicate ParserSupplied(call: Call) {
    match call
    case MoveCursorUp(n) => n >= 0
    case MoveCursorDown(n) => n >= 0
    case MoveCursorLeft(n) => n >= 0
    case MoveCursorRight(n) => n >= 0
    case EraseChar(n) => n >= 0
    case InsertChar(n) => n >= 0
    case DeleteChar(n) => n >= 0
    case InsertLines(n) => n >= 0
    case DeleteLines(n) => n >= 0
    case _ => true
  }

  /** The effect of one call. On `ResetTerminal` the session resets the screen whether it is shown or not; other
      calls meant for the session do not touch it. */
  function Applied(s: Screen, call: Call, width: CodePoint -> nat): Screen
    requires s.Valid() && ParserSupplied(call)
  {
    var at := s.cursor;
    match call
    case AppendRun(run) => RunAppended(s, run, width)
    case NewLine => LineFeed(s)
    case CarriageReturn => At(s, at.line, 0)
    case ReverseIndex => ReverseFeed(s)
    case SaveCursor => s.(saved := at)
    case RestoreCursor => At(s, s.saved.line, s.saved.col)
    case MoveCursorUp(n) => At(s, if at.line >= n then at.line - n else 0, at.col)
    case MoveCursorDown(n) => At(s, at.line + n, at.col)
    case MoveCursorRight(n) => At(s, at.line, at.col + n)
    case MoveCursorLeft(n) => At(s, at.line, if at.col >= n then at.col - n else 0)
    case MoveCursorToPosition(row, col) => At(s, OneBased(row) - 1, OneBased(col) - 1)
    case MoveCursorToColumn(col) => At(s, at.line, OneBased(col) - 1)
    case MoveCursorToRow(row) => At(s, OneBased(row) - 1, at.col)
    case MoveCursorToLineStart => At(s, at.line, 0)
    case MoveCursorToLineEnd => At(s, at.line, s.cols - 1)
    case EraseInLine(mode) => LineErased(s, mode)
    case EraseInDisplay(mode) => DisplayErased(s, mode)
    case EraseChar(n) => CharsErased(s, n)
    case InsertChar(n) => CharsInserted(s, n)
    case DeleteChar(n) => WithCursorLine(s, Delete(CursorLine(s), at.col, n))
    case InsertLines(n) => LinesInserted(s, n)
    case DeleteLines(n) => LinesDeleted(s, n)
    case SetScrollRegion(top, bot) => Margins(s, top, bot)
    case SetInsertMode(on) => s.(insertMode := on)
    case SetCurrentStyle(style) => s.(style := style)
    case ResetTerminal => BlankScreen(s.rows, s.cols)
    case _ => s
  }

  lemma {:induction false} RunKeepsValid(s: Screen, run: seq<CodePoint>, width: CodePoint -> nat)
    requires s.Valid()
    ensures var after := RunAppended(s, run, width);
            after.Valid() && after.rows == s.rows && after.cols == s.cols && after.top == s.top && after.bot == s.bot
    decreases |run|
  {
    if run != [] { RunKeepsValid(CharAppended(s, run[0], width), run[1..], width); }
  }

  /** A valid screen of the same size. */
  predicate SameGrid(s: Screen, t: Screen) {
    t.Valid() && t.rows == s.rows && t.cols == s.cols
  }

  lemma FeedsKeepTheGrid(s: Screen)
    requires s.Valid()
    ensures SameGrid(s, LineFeed(s)) && SameGrid(s, ReverseFeed(s))
  {}

  lemma ErasesKeepTheGrid(s: Screen, mode: int)
    requires s.Valid()
    ensures SameGrid(s, LineErased(s, mode)) && SameGrid(s, DisplayErased(s, mode))
  {}

  predicate IsEdit(call: Call) {
    call.AppendRun? || call.NewLine? || call.ReverseIndex? || call.EraseInLine? || call.EraseInDisplay?
    || call.InsertLines? || call.DeleteLines? || call.SetScrollRegion?
  }

  lemma OtherCallKeepsValid(s: Screen, call: Call, width: CodePoint -> nat)
    requires s.Valid() && ParserSupplied(call) && !IsEdit(call)
    ensures SameGrid(s, Applied(s, call, width))
  {}

  /** Every call keeps the grid's size, the cursor inside it and the margins in order. */
  lemma CallKeepsValid(s: Screen, call: Call, width: CodePoint -> nat)
    requires s.Valid() && ParserSupplied(call)
    ensures SameGrid(s, Applied(s, call, width))
  {
    if IsEdit(call) {
      match call
      case AppendRun(run) => RunKeepsValid(s, run, width);
      case NewLine => FeedsKeepTheGrid(s);
      case ReverseIndex => FeedsKeepTheGrid(s);
      case EraseInLine(mode) => ErasesKeepTheGrid(s, mode);
      case EraseInDisplay(mode) => ErasesKeepTheGrid(s, mode);
      case _ =>
    } else {
      OtherCallKeepsValid(s, call, width);
    }
  }

  predicate AllSupplied(calls: seq<Call>) {
    forall c | c in calls :: ParserSupplied(c)
  }

  function Played(s: Screen, calls: seq<Call>, width: CodePoint -> nat): (after: Screen)
    requires s.Valid() && AllSupplied(calls)
    ensures after.Valid() && after.rows == s.rows && after.cols == s.cols
    decreases |calls|
  {
    if calls == [] then s
    else
      CallKeepsValid(s, calls[0], width);
      Played(Applied(s, calls[0], width), calls[1..], width)
  }

  lemma CsiCallsAreSupplied(b: Byte, ps: seq<Byte>)
    ensures AllSupplied(CsiFinalCalls(b, ps))
  {}

  lemma OscCallsAreSupplied(payload: seq<Byte>)
    ensures AllSupplied(OscCalls(payload))
  {}

  lemma EscapeCallsAreSupplied(k: Control, b: Byte)
    ensures AllSupplied(EscapeNext(k, b).1)
  {}

  lemma StepCallsAreSupplied(k: Control, b: Byte)
    ensures AllSupplied(Advance(k, b).1)
  {
    DeliverIsSupplied(Decode(k, b).1);
    OscCallsAreSupplied(k.osc);
    EscapeCallsAreSupplied(k.(mode := Escape), b);
    CsiCallsAreSupplied(b, k.params);
  }

  lemma {:induction false} DeliverIsSupplied(cps: seq<CodePoint>)
    ensures AllSupplied(Deliver(cps))
    decreases |cps|
  {
    if cps != [] { DeliverIsSupplied(cps[1..]); }
  }

  lemma {:induction false} ParserCallsAreSupplied(k: Control, data: seq<Byte>)
    ensures AllSupplied(CallsFor(k, data))
    decreases |data|
  {
    if data != [] {
      StepCallsAreSupplied(k, data[0]);
      ParserCallsAreSupplied(Advance(k, data[0]).0, data[1..]);
    }
  }

  // --------------------------------------------------------- what the parser sends

  lemma {:induction false} SuppliedWhenFlat(calls: seq<Call>)
    requires AllSupplied(Flat(calls))
    ensures AllSupplied(calls)
    decreases |calls|
  {
    if calls != [] {
      var head := if calls[0].AppendRun? then Deliver(calls[0].run) else [calls[0]];
      assert forall c | c in Flat(calls[1..]) :: c in Flat(calls);
      SuppliedWhenFlat(calls[1..]);
      assert !calls[0].AppendRun? ==> calls[0] in head && calls[0] in Flat(calls);
    }
  }

  lemma {:induction false} PlayedAppends(s: Screen, a: seq<Call>, b: seq<Call>, width: CodePoint -> nat)
    requires s.Valid() && AllSupplied(a) && AllSupplied(b)
    ensures AllSupplied(a + b) && Played(s, a + b, width) == Played(Played(s, a, width), b, width)
    decreases |a|
  {
    if a == [] {
      assert a + b == b;
    } else {
      assert (a + b)[1..] == a[1..] + b;
      CallKeepsValid(s, a[0], width);
      PlayedAppends(Applied(s, a[0], width), a[1..], b, width);
    }
  }

  lemma {:induction false} RunIsPlayed(s: Screen, run: seq<CodePoint>, width: CodePoint -> nat)
    requires s.Valid()
    ensures AllSupplied(Deliver(run)) && Played(s, Deliver(run), width) == RunAppended(s, run, width)
    decreases |run|
  {
    DeliverIsSupplied(run);
    if run != [] {
      RunKeepsValid(s, [run[0]], width);
      assert [run[0]][1..] == [];
      assert Applied(s, AppendRun([run[0]]), width) == CharAppended(s, run[0], width);
      RunIsPlayed(CharAppended(s, run[0], width), run[1..], width);
    }
  }

  /** Batching characters into runs makes no difference to the screen. */
  lemma {:induction false} PlayedFlat(s: Screen, calls: seq<Call>, width: CodePoint -> nat)
    requires s.Valid() && AllSupplied(Flat(calls))
    ensures AllSupplied(calls) && Played(s, calls, width) == Played(s, Flat(calls), width)
    decreases |calls|
  {
    SuppliedWhenFlat(calls);
    if calls != [] {
      var head := if calls[0].AppendRun? then Deliver(calls[0].run) else [calls[0]];
      assert forall c | c in Flat(calls[1..]) :: c in Flat(calls);
      CallKeepsValid(s, calls[0], width);
      PlayedFlat(Applied(s, calls[0], width), calls[1..], width);
      if calls[0].AppendRun? { RunIsPlayed(s, calls[0].run, width); } else { PlayedOne(s, calls[0], width); }
      PlayedAppends(s, head, Flat(calls[1..]), width);
    }
  }

  lemma PlayedOne(s: Screen, call: Call, width: CodePoint -> nat)
    requires s.Valid() && ParserSupplied(call)
    ensures AllSupplied([call]) && Played(s, [call], width) == Applied(s, call, width)
  {
    assert [call][1..] == [];
    CallKeepsValid(s, call, width);
  }

  /** Whatever bytes arrive, and in whatever mode they find the parser, what one chunk makes it send leaves a
      valid screen of the same size: the one its calls would leave unbatched. */
  lemma AnyInputKeepsTheGrid(s: Screen, m: Machine, data: seq<Byte>, width: CodePoint -> nat)
    requires s.Valid() && m.calls == [] && RunOnlyInNormal(m)
    ensures var sent, single := Processed(m, data).calls, Deliver(m.run) + CallsFor(m.control, data);
            && AllSupplied(sent) && AllSupplied(single)
            && var after := Played(s, sent, width);
               && after == Played(s, single, width)
               && |after.lines| == s.rows && after.rows == s.rows && after.cols == s.cols
               && after.cursor.line < s.rows && after.cursor.col < s.cols
               && after.top <= after.bot < s.rows
  {
    SentIsFlat(m, data);
    PlayedFlat(s, Processed(m, data).calls, width);
  }

  lemma SentIsFlat(m: Machine, data: seq<Byte>)
    requires m.calls == [] && RunOnlyInNormal(m)
    ensures var single := Deliver(m.run) + CallsFor(m.control, data);
            AllSupplied(single) && Flat(Processed(m, data).calls) == single
  {
    ParserCallsAreSupplied(m.control, data);
    DeliverIsSupplied(m.run);
    ProcessSends(m, data);
  }

  // ----------------------------------------------- what scrolling leaves alone

  predicate SameOutside(was: seq<Line>, now: seq<Line>, lo: nat, hi: nat)
    requires lo <= hi < |was| == |now|
  {
    was[..lo] == now[..lo] && was[hi + 1..] == now[hi + 1..]
  }

  /** Same size and margins, and the lines outside them untouched. */
  predicate StaysInside(s: Screen, t: Screen)
    requires s.Valid()
  {
    SameGrid(s, t) && t.top == s.top && t.bot == s.bot && SameOutside(s.lines, t.lines, s.top, s.bot)
  }

  lemma FeedsStayInside(s: Screen)
    requires s.Valid()
    ensures StaysInside(s, LineFeed(s)) && StaysInside(s, ReverseFeed(s))
  {
    ShiftsStayInside(s.lines, s.top, s.bot, 1, s.top);
  }

  lemma LineEditsStayInside(s: Screen, n: nat)
    requires s.Valid()
    ensures StaysInside(s, LinesInserted(s, n)) && StaysInside(s, LinesDeleted(s, n))
  {
    if InRegion(s) { ShiftsStayInside(s.lines, s.cursor.line, s.bot, Min(n, s.bot - s.cursor.line + 1), s.top); }
  }

  /** Line feed, reverse index, insert line and delete line never touch a line outside the margins. */
  lemma ScrollingStaysInMargins(s: Screen, call: Call, width: CodePoint -> nat)
    requires s.Valid() && ParserSupplied(call)
    requires call.NewLine? || call.ReverseIndex? || call.InsertLines? || call.DeleteLines?
    ensures StaysInside(s, Applied(s, call, width))
  {
    match call
    case NewLine => FeedsStayInside(s);
    case ReverseIndex => FeedsStayInside(s);
    case InsertLines(n) => LineEditsStayInside(s, n);
    case DeleteLines(n) => LineEditsStayInside(s, n);
  }

  lemma ShiftsStayInside(lines: seq<Line>, lo: nat, hi: nat, n: nat, top: nat)
    requires top <= lo <= hi < |lines| && lo + n <= hi + 1
    ensures SameOutside(lines, ShiftUp(lines, lo, hi, n), top, hi)
    ensures SameOutside(lines, ShiftDown(lines, lo, hi, n), top, hi)
  {}

  lemma ShiftUpUndoesShiftDown(lines: seq<Line>, lo: nat, hi: nat, n: nat)
    requires lo + n <= hi + 1 <= |lines|
    ensures ShiftUp(ShiftDown(lines, lo, hi, n), lo, hi, n) == lines[..hi + 1 - n] + Fill(n, EMPTY_LINE) + lines[hi + 1..]
  {
    var down := ShiftDown(lines, lo, hi, n);
    assert down[..lo] == lines[..lo];
    assert down[lo + n..hi + 1] == lines[lo..hi + 1 - n];
    assert down[hi + 1..] == lines[hi + 1..];
    assert lines[..lo] + lines[lo..hi + 1 - n] == lines[..hi + 1 - n];
  }

  /** Inserting and then deleting lines restores everything but the lines pushed off the region. */
  lemma DeleteUndoesInsert(s: Screen, count: nat)
    requires s.Valid() && InRegion(s)
    ensures var k := Min(count, s.bot - s.cursor.line + 1);
            LinesDeleted(LinesInserted(s, count), count).lines ==
            s.lines[..s.bot + 1 - k] + Fill(k, EMPTY_LINE) + s.lines[s.bot + 1..]
  {
    ShiftUpUndoesShiftDown(s.lines, s.cursor.line, s.bot, Min(count, s.bot - s.cursor.line + 1));
  }

  /** A line feed at the bottom margin and a reverse index at the top one cancel, but for the line
      that scrolled off the top. */
  lemma ReverseFeedUndoesLineFeed(s: Screen)
    requires s.Valid() && s.cursor.line == s.bot
    ensures var fed := LineFeed(s);
            ReverseFeed(At(fed, s.top, 0)).lines == s.lines[s.top := EMPTY_LINE]
  {
    var up := ShiftUp(s.lines, s.top, s.bot, 1);
    assert LineFeed(s).lines == up;
    assert up[..s.top] == s.lines[..s.top];
    assert up[s.top..s.bot] == s.lines[s.top + 1..s.bot + 1];
    assert up[s.bot + 1..] == s.lines[s.bot + 1..];
  }

  // --------------------------------------------------------------- in place

  /** The loop filling a text with spaces up to and including `col`. */
  method SpacesThrough(was: seq<CodePoint>, col: nat) returns (text: seq<CodePoint>)
    ensures var n := Min(col + 1, |was|); text == Fill(n, SPACE) + was[n..]
  {
    text := was;
    var i := 0;
    while i <= col && i < |text|
      invariant 0 <= i <= |was| == |text| && i <= col + 1
      invariant forall j | 0 <= j < i :: text[j] == SPACE
      invariant forall j | i <= j < |was| :: text[j] == was[j]
    {
      text := text[i := SPACE];
      i := i + 1;
    }
  }

  /** The blanking loop that ends both scrolls. */
  method Blank(was: seq<Line>, lo: nat, hi: nat) returns (lines: seq<Line>)
    requires lo <= hi <= |was|
    ensures lines == was[..lo] + Fill(hi - lo, EMPTY_LINE) + was[hi..]
  {
    lines := was;
    for i := lo to hi
      invariant |lines| == |was|
      invariant forall j | 0 <= j < lo || i <= j < |was| :: lines[j] == was[j]
      invariant forall j | lo <= j < i :: lines[j] == EMPTY_LINE
    {
      lines := lines[i := EMPTY_LINE];
    }
  }

  /** The loops of `InsertLines`: copy from the bottom up, then blank. */
  method CopyDown(was: seq<Line>, cur: nat, bot: nat, n: nat) returns (lines: seq<Line>)
    requires cur + n <= bot + 1 <= |was|
    ensures lines == ShiftDown(was, cur, bot, n)
  {
    lines := was;
    for i := bot + 1 downto cur + n
      invariant |lines| == |was|
      invariant forall j | 0 <= j < i || bot < j < |was| :: lines[j] == was[j]
      invariant forall j | i <= j <= bot :: lines[j] == was[j - n]
    {
      lines := lines[i := lines[i - n]];
    }
    MovedDown(was, lines, cur, bot, n);
    lines := Blank(lines, cur, cur + n);
    ConcatAssoc(was[..cur] + Fill(n, EMPTY_LINE), was[cur..bot + 1 - n], was[bot + 1..]);
  }

  lemma MovedDown(was: seq<Line>, now: seq<Line>, cur: nat, bot: nat, n: nat)
    requires cur + n <= bot + 1 <= |was| == |now|
    requires forall j | 0 <= j < cur || bot < j < |was| :: now[j] == was[j]
    requires forall j | cur + n <= j <= bot :: now[j] == was[j - n]
    ensures now[..cur] == was[..cur] && now[cur + n..] == was[cur..bot + 1 - n] + was[bot + 1..]
  {
    var right := was[cur..bot + 1 - n] + was[bot + 1..];
    forall k | 0 <= k < |right| ensures now[cur + n + k] == right[k] {
      if cur + n + k <= bot {
        assert right[k] == was[cur + k] == was[(cur + n + k) - n];
      } else {
        assert right[k] == was[cur + n + k];
      }
    }
    assert |now[cur + n..]| == |right|;
  }

  /** The loops of `DeleteLines`: copy from the top down, then blank. */
  method CopyUp(was: seq<Line>, cur: nat, bot: nat, n: nat) returns (lines: seq<Line>)
    requires cur + n <= bot + 1 <= |was|
    ensures lines == ShiftUp(was, cur, bot, n)
  {
    lines := was;
    for i := cur to bot + 1 - n
      invariant |lines| == |was|
      invariant forall j | cur <= j < i :: lines[j] == was[j + n]
      invariant forall j | 0 <= j < cur || i <= j < |was| :: lines[j] == was[j]
    {
      lines := lines[i := lines[i + n]];
    }
    assert lines[..bot + 1 - n] == was[..cur] + was[cur + n..bot + 1];
    assert lines[bot + 1..] == was[bot + 1..];
    lines := Blank(lines, Max(cur, bot + 1 - n), bot + 1);
  }

  /** Erasing the top line of a region and inserting a blank one at its foot. */
  lemma RollIsShiftUp(was: seq<Line>, lo: nat, hi: nat)
    requires lo <= hi < |was|
    ensures var rest := was[..lo] + was[lo + 1..]; rest[..hi] + [EMPTY_LINE] + rest[hi..] == ShiftUp(was, lo, hi, 1)
  {
    var rest := was[..lo] + was[lo + 1..];
    assert rest[..hi] == was[..lo] + was[lo + 1..hi + 1];
    assert rest[hi..] == was[hi + 1..];
    assert Fill(1, EMPTY_LINE) == [EMPTY_LINE];
  }

  class AltScreenDocument {
    var lines: seq<Line>
    var rows: nat
    var cols: nat
    var scrollTop: nat
    var scrollBot: nat
    var cursor: CursorPos
    var savedCursor: CursorPos
    var pendingWrap: bool
    var insertMode: bool
    var currentStyle: Style
    const width: CodePoint -> nat

    constructor (rows: nat, cols: nat, width: CodePoint -> nat)
      requires rows > 0 && cols > 0
      ensures Value() == BlankScreen(rows, cols) && Value().Valid() && this.width == width
    {
      lines := Fill(rows, EMPTY_LINE);
      this.rows, this.cols, this.width := rows, cols, width;
      scrollTop, scrollBot := 0, rows - 1;
      cursor, savedCursor := CursorPos(0, 0), CursorPos(0, 0);
      pendingWrap, insertMode, currentStyle := false, false, DEFAULT_STYLE;
    }

    function Value(): Screen
      reads this
    {
      Screen(lines, rows, cols, scrollTop, scrollBot, cursor, savedCursor, pendingWrap, insertMode, currentStyle)
    }

    method Resize(rows: nat, cols: nat)
      requires rows > 0 && cols > 0
      modifies this
      ensures Value() == Resized(old(Value()), rows, cols) && Value().Valid()
    {
      lines := Fill(rows, EMPTY_LINE);
      this.rows, this.cols := rows, cols;
      scrollTop, scrollBot := 0, rows - 1;
      pendingWrap := false;
      cursor := CursorPos(Min(cursor.line, rows - 1), Min(cursor.col, cols - 1));
    }

    method AppendRun(run: seq<CodePoint>)
      requires Value().Valid()
      modifies this
      ensures Value() == RunAppended(old(Value()), run, width) && Value().Valid()
    {
      assert run[0..] == run;
      for i := 0 to |run|
        invariant Value().Valid()
        invariant RunAppended(Value(), run[i..], width) == RunAppended(old(Value()), run, width)
      {
        assert run[i..][1..] == run[i + 1..];
        AppendInsertChar(run[i]);
      }
    }

    method AppendInsertChar(ch: CodePoint)
      requires Value().Valid()
      modifies this
      ensures Value() == CharAppended(old(Value()), ch, width) && Value().Valid()
    {
      if pendingWrap {
        pendingWrap := false;
        NewLine();
      }
      PutAndAdvance(ch);
    }

    method PutAndAdvance(ch: CodePoint)
      requires Value().Valid()
      modifies this`lines, this`cursor, this`pendingWrap
      ensures Value() == CharPut(old(Value()), ch, width) && Value().Valid()
    {
      var w := width(ch);
      var newCol := cursor.col + w;
      PutCells(ch, w == 2 && cursor.col + 1 < cols);
      if newCol >= cols {
        pendingWrap := true;
      } else {
        cursor := CursorPos(cursor.line, newCol);
      }
    }

    /** The character's cell and, for a wide one that fits, its filler. */
    method PutCells(ch: CodePoint, filler: bool)
      requires cursor.line < |lines|
      modifies this`lines
      ensures var one := Put(old(lines)[cursor.line], cursor.col, ch, currentStyle, insertMode);
              var two := Put(one, cursor.col + 1, WIDE_FILLER, currentStyle, insertMode);
              lines == old(lines)[cursor.line := if filler then two else one]
    {
      var line := new DocLine(lines[cursor.line]);
      if insertMode {
        line.InsertAt(cursor.col, ch, currentStyle);
        if filler { line.InsertAt(cursor.col + 1, WIDE_FILLER, currentStyle); }
      } else {
        line.WriteAt(cursor.col, ch, currentStyle);
        if filler { line.WriteAt(cursor.col + 1, WIDE_FILLER, currentStyle); }
      }
      lines := lines[cursor.line := line.Value()];
    }

    method NewLine()
      requires Value().Valid()
      modifies this`pendingWrap, this`cursor, this`lines
      ensures Value() == LineFeed(old(Value())) && Value().Valid()
    {
      pendingWrap := false;
      if cursor.line < scrollBot {
        cursor := CursorPos(cursor.line + 1, 0);
      } else if cursor.line == scrollBot {
        RollIsShiftUp(lines, scrollTop, scrollBot);
        lines := lines[..scrollTop] + lines[scrollTop + 1..];
        lines := lines[..scrollBot] + [EMPTY_LINE] + lines[scrollBot..];
        cursor := CursorPos(cursor.line, 0);
      } else {
        cursor := CursorPos(Min(cursor.line + 1, rows - 1), 0);
      }
    }

    method ReverseIndex()
      requires Value().Valid()
      modifies this`cursor, this`lines
      ensures Value() == ReverseFeed(old(Value())) && Value().Valid()
    {
      if cursor.line > scrollTop {
        cursor := CursorPos(cursor.line - 1, cursor.col);
      } else {
        lines := lines[..scrollTop] + [EMPTY_LINE] + lines[scrollTop..];
        lines := lines[..scrollBot + 1] + lines[scrollBot + 2..];
        assert Fill(1, EMPTY_LINE) == [EMPTY_LINE];
      }
    }

    method SetScrollRegion(top: int, bot: int)
      requires Value().Valid()
      modifies this
      ensures Value() == Margins(old(Value()), top, bot) && Value().Valid()
    {
      scrollTop := if top <= 0 then 0 else top - 1;
      scrollBot := if bot <= 0 || bot > rows then rows - 1 else bot - 1;
      if scrollTop >= rows { scrollTop := 0; }
      if scrollBot < scrollTop { scrollBot := rows - 1; }
      pendingWrap := false;
      cursor := CursorPos(scrollTop, 0);
    }

    method InsertLines(count: nat)
      requires Value().Valid()
      modifies this`lines
      ensures Value() == LinesInserted(old(Value()), count) && Value().Valid()
    {
      if cursor.line < scrollTop || cursor.line > scrollBot { return; }
      var n := Min(count, scrollBot - cursor.line + 1);
      lines := CopyDown(lines, cursor.line, scrollBot, n);
    }

    method DeleteLines(count: nat)
      requires Value().Valid()
      modifies this`lines
      ensures Value() == LinesDeleted(old(Value()), count) && Value().Valid()
    {
      if cursor.line < scrollTop || cursor.line > scrollBot { return; }
      var n := Min(count, scrollBot - cursor.line + 1);
      lines := CopyUp(lines, cursor.line, scrollBot, n);
    }

    /** The single assignments the cursor movements share, clamped to the grid. */
    method MoveTo(line: nat, col: nat)
      requires Value().Valid()
      modifies this`pendingWrap, this`cursor
      ensures Value() == At(old(Value()), line, col) && Value().Valid()
    {
      pendingWrap := false;
      cursor := CursorPos(Min(line, rows - 1), Min(col, cols - 1));
    }

    method EraseInLine(mode: int)
      requires Value().Valid()
      modifies this`lines
      ensures Value() == LineErased(old(Value()), mode) && Value().Valid()
    {
      var line := new DocLine(lines[cursor.line]);
      if mode == 0 {
        line.TruncateFrom(cursor.col);
      } else if mode == 1 {
        BlankThrough(line, cursor.col);
      } else if mode == 2 {
        line.Clear();
      }
      lines := lines[cursor.line := line.Value()];
    }

    method BlankThrough(line: DocLine, col: nat)
      modifies line
      ensures line.Value() == BlankStart(old(line.Value()), col + 1)
    {
      line.text := SpacesThrough(line.text, col);
    }

    method EraseChar(count: nat)
      requires Value().Valid()
      modifies this`lines
      ensures Value() == CharsErased(old(Value()), count) && Value().Valid()
    {
      var end := Min(cursor.col + count, cols);
      var line := new DocLine(lines[cursor.line]);
      ghost var was := line.Value();
      for i := cursor.col to end
        modifies line
        invariant line.Value() == Spaces(was, cursor.col, i, currentStyle)
      {
        line.WriteAt(i, SPACE, currentStyle);
      }
      lines := lines[cursor.line := line.Value()];
    }

    method DeleteChar(count: nat)
      requires Value().Valid()
      modifies this`lines
      ensures Value() == WithCursorLine(old(Value()), Delete(CursorLine(old(Value())), cursor.col, count)) && Value().Valid()
    {
      var line := new DocLine(lines[cursor.line]);
      line.DeleteAt(cursor.col, count);
      lines := lines[cursor.line := line.Value()];
    }

    method InsertChar(count: nat)
      requires Value().Valid()
      modifies this`lines
      ensures Value() == CharsInserted(old(Value()), count) && Value().Valid()
    {
      var line := new DocLine(lines[cursor.line]);
      ghost var was := line.Value();
      for i := 0 to count
        modifies line
        invariant line.Value() == InsertMany(was, cursor.col, i, SPACE, currentStyle)
      {
        line.InsertAt(cursor.col, SPACE, currentStyle);
      }
      if |line.text| > cols {
        line.DeleteAt(cols, |line.text| - cols);
      }
      lines := lines[cursor.line := line.Value()];
    }

    /** The session resets its alternate screen too when the remote asks for a reset. */
    method FullReset()
      requires Value().Valid()
      modifies this
      ensures Value() == BlankScreen(old(rows), old(cols)) && Value().Valid()
    {
      scrollTop, scrollBot := 0, rows - 1;
      savedCursor, insertMode, pendingWrap, currentStyle := CursorPos(0, 0), false, false, DEFAULT_STYLE;
      cursor := CursorPos(0, 0);
      ClearLines(0, |lines|);
    }

    method EraseInDisplay(mode: int)
      requires Value().Valid()
      modifies this
      ensures Value() == DisplayErased(old(Value()), mode) && Value().Valid()
    {
      if mode == 0 {
        EraseInLine(0);
        ClearLines(cursor.line + 1, |lines|);
      } else if mode == 1 {
        ClearLines(0, cursor.line);
        EraseInLine(1);
      } else if mode == 2 || mode == 3 {
        ClearLines(0, |lines|);
        pendingWrap := false;
        cursor := CursorPos(0, 0);
      }
    }

    /** The loops clearing whole lines. */
    method ClearLines(from: nat, upto: nat)
      requires from <= upto <= |lines|
      modifies this`lines
      ensures lines == old(lines)[..from] + Fill(upto - from, EMPTY_LINE) + old(lines)[upto..]
    {
      ghost var was := lines;
      for i := from to upto
        invariant lines == was[..from] + Fill(i - from, EMPTY_LINE) + was[i..]
      {
        lines := lines[i := EMPTY_LINE];
      }
    }
  }
}
