/** The unbounded main screen (src/document/Document.cpp:302-348, 594-641): appending printable text,
    and translating a canvas-relative terminal position into a document position.

    The width of a code point is any function into 0, 1 and 2.
  */
module MainScreen {
  import opened Style
  import opened Lines
  import opened Parser

  datatype CursorPos = CursorPos(line: nat, col: nat)

  datatype RawDoc = RawDoc(lines: seq<Line>, cursor: CursorPos, insertMode: bool, style: Style,
                           newLineWasPhantom: bool, newLineCRPhantom: bool)

  /** The source indexes `lines` by the cursor's line. */
  type Doc = d: RawDoc | d.cursor.line < |d.lines|
    witness RawDoc([EMPTY_LINE], CursorPos(0, 0), false, DEFAULT_STYLE, false, false)

  function Put(line: Line, col: nat, ch: CodePoint, style: Style, insertMode: bool): Line {
    if insertMode then Insert(line, col, ch, style) else Write(line, col, ch, style)
  }

  /** One character cell, and the filler behind a wide one. */
  function PutChar(line: Line, col: nat, ch: CodePoint, style: Style, insertMode: bool, width: nat): Line {
    var line := Put(line, col, ch, style, insertMode);
    if width == 2 then Put(line, col + 1, WIDE_FILLER, style, insertMode) else line
  }

  function AppendChar(d: Doc, ch: CodePoint, width: CodePoint -> nat): Doc {
    var at := d.cursor;
    d.(lines := d.lines[at.line := PutChar(d.lines[at.line], at.col, ch, d.style, d.insertMode, width(ch))],
       cursor := CursorPos(at.line, at.col + width(ch)),
       newLineWasPhantom := false, newLineCRPhantom := false)
  }

  function AppendChars(d: Doc, run: seq<CodePoint>, width: CodePoint -> nat): Doc
    decreases |run|
  {
    if run == [] then d else AppendChars(AppendChar(d, run[0], width), run[1..], width)
  }

  /** `count` lines gone from `at` on, or as many as there are. */
  function WithoutLines(lines: seq<Line>, at: nat, count: int): seq<Line>
    requires at <= |lines|
  {
    lines[..at] + lines[at + if count < 0 then 0 else Min(count, |lines| - at)..]
  }

  /** The visual rows of one line when it wraps at `cols`. */
  function Rows(line: Line, cols: nat): (rows: nat)
    requires cols > 0
    ensures rows >= 1
  {
    if |line.text| == 0 then 1
    else
      RoundingUp(|line.text|, cols);
      (|line.text| + cols - 1) / cols
  }

  lemma RoundingUp(n: nat, cols: nat)
    requires n > 0 && cols > 0
    ensures (n + cols - 1) / cols >= 1
  {
    DivideSum(cols, 1, n - 1);
  }

  lemma {:induction false} DivideSum(d: nat, q: nat, r: nat)
    requires d > 0
    ensures (q * d + r) / d == q + r / d && (q * d + r) % d == r % d
    decreases q
  {
    if q > 0 {
      DivideSum(d, q - 1, r);
      assert q * d + r == (q - 1) * d + r + d;
      DivideStep(d, (q - 1) * d + r);
    } else {
      assert q * d == 0;
    }
  }

  lemma DivideStep(d: nat, n: nat)
    requires d > 0
    ensures (n + d) / d == n / d + 1 && (n + d) % d == n % d
  {
    var q, r := n / d, n % d;
    assert n + d == (q + 1) * d + r;
    QuotientUnique(n + d, d, q + 1, r);
  }

  lemma QuotientUnique(n: nat, d: nat, q: nat, r: nat)
    requires d > 0 && r < d && n == q * d + r
    ensures n / d == q && n % d == r
  {
    var q', r' := n / d, n % d;
    assert n == q' * d + r' && r' < d;
    if q < q' {
      MulAtLeast(q' - q, d);
    } else if q' < q {
      MulAtLeast(q - q', d);
    }
  }

  lemma MulMonotone(a: nat, b: nat, d: nat)
    requires a <= b
    ensures a * d <= b * d
  {}

  lemma MulAtLeast(k: nat, d: nat)
    requires k >= 1
    ensures k * d >= d
  {}

  /** Rows of the lines `[from, upto)`. */
  function RowsBetween(lines: seq<Line>, from: nat, upto: nat, cols: nat): nat
    requires from <= upto <= |lines| && cols > 0
    decreases upto
  {
    if from == upto then 0 else RowsBetween(lines, from, upto - 1, cols) + Rows(lines[upto - 1], cols)
  }

  /** The 1-based canvas row a position is shown on. */
  function CanvasRow(lines: seq<Line>, origin: nat, cols: nat, pos: CursorPos): nat
    requires origin <= pos.line < |lines| && cols > 0
  {
    RowsBetween(lines, origin, pos.line, cols) + pos.col / cols + 1
  }

  /** A position of the wrapped canvas: its sub-row belongs to its own line. */
  predicate OnCanvas(lines: seq<Line>, origin: nat, cols: nat, pos: CursorPos)
    requires cols > 0
  {
    origin <= pos.line < |lines| && pos.col / cols < Rows(lines[pos.line], cols)
  }

  /** 1-based arguments below 1 mean 1. */
  function OneBased(n: int): nat { if n < 1 then 1 else n }

  class MainScreenDocument {
    var lines: seq<Line>
    var cursor: CursorPos
    var insertMode: bool
    var style: Style
    var newLineWasPhantom: bool
    var newLineCRPhantom: bool
    var cols: nat
    var virtualDocStart: nat
    const width: CodePoint -> nat

    predicate Valid()
      reads this
    {
      cursor.line < |lines| && virtualDocStart <= |lines| && cols > 0
    }

    constructor (width: CodePoint -> nat, cols: nat)
      requires cols > 0
      ensures Valid() && this.width == width && this.cols == cols && virtualDocStart == 0
      ensures Value() == RawDoc([EMPTY_LINE], CursorPos(0, 0), false, DEFAULT_STYLE, false, false)
    {
      lines, cursor := [EMPTY_LINE], CursorPos(0, 0);
      insertMode, style, newLineWasPhantom, newLineCRPhantom := false, DEFAULT_STYLE, false, false;
      this.cols, virtualDocStart, this.width := cols, 0, width;
    }

    function Value(): Doc
      requires cursor.line < |lines|
      reads this
    {
      RawDoc(lines, cursor, insertMode, style, newLineWasPhantom, newLineCRPhantom)
    }

    method AppendInsertChar(ch: CodePoint)
      requires Valid()
      modifies this`lines, this`cursor, this`newLineWasPhantom, this`newLineCRPhantom
      ensures Valid() && Value() == AppendChar(old(Value()), ch, width)
    {
      newLineWasPhantom, newLineCRPhantom := false, false;
      PutOne(ch);
    }

    /** The cell loop body shared by the single and the batched append. */
    method PutOne(ch: CodePoint)
      requires Valid()
      modifies this`lines, this`cursor
      ensures Valid()
      ensures Value().(newLineWasPhantom := false, newLineCRPhantom := false) == AppendChar(old(Value()), ch, width)
    {
      var w := width(ch);
      var line := new DocLine(lines[cursor.line]);
      if insertMode {
        line.InsertAt(cursor.col, ch, style);
        if w == 2 { line.InsertAt(cursor.col + 1, WIDE_FILLER, style); }
      } else {
        line.WriteAt(cursor.col, ch, style);
        if w == 2 { line.WriteAt(cursor.col + 1, WIDE_FILLER, style); }
      }
      lines := lines[cursor.line := line.Value()];
      cursor := CursorPos(cursor.line, cursor.col + w);
    }

    /** The batched append is the fold of the single one. */
    method AppendRun(run: seq<CodePoint>)
      requires Valid()
      modifies this`lines, this`cursor, this`newLineWasPhantom, this`newLineCRPhantom
      ensures Valid() && Value() == AppendChars(old(Value()), run, width)
    {
      if run == [] { return; }
      newLineWasPhantom, newLineCRPhantom := false, false;
      assert run[0..] == run;
      AppendClearsFlags(old(Value()), run, width);
      for i := 0 to |run|
        invariant Valid() && !newLineWasPhantom && !newLineCRPhantom
        invariant AppendChars(Value(), run[i..], width) == AppendChars(old(Value()), run, width)
      {
        ghost var before := Value();
        assert run[i..][0] == run[i] && run[i..][1..] == run[i + 1..];
        PutOne(run[i]);
        assert Value() == AppendChar(before, run[i], width);
      }
      assert run[|run|..] == [];
    }

    /** Blank lines are appended on demand; the position is the one at the requested row and column,
        and the row is right exactly when the column lies within the terminal's width. */
    method PtyToDoc(ptyRow: int, ptyCol: int) returns (pos: CursorPos)
      requires Valid()
      modifies this`lines
      ensures Valid() && old(lines) <= lines
      ensures forall i | |old(lines)| <= i < |lines| :: lines[i] == EMPTY_LINE
      ensures |lines| == |old(lines)| || pos.line == |lines| - 1
      ensures virtualDocStart <= pos.line < |lines|
      ensures CanvasRow(lines, virtualDocStart, cols, pos) == OneBased(ptyRow) <==> OneBased(ptyCol) <= cols
      ensures OneBased(ptyCol) <= cols ==>
                OnCanvas(lines, virtualDocStart, cols, pos) && pos.col % cols + 1 == OneBased(ptyCol)
    {
      var remaining := OneBased(ptyRow) - 1;
      var docLine := virtualDocStart;
      var lineRows;
      while true
        invariant Valid() && virtualDocStart <= docLine <= |lines| && old(lines) <= lines
        invariant forall i | |old(lines)| <= i < |lines| :: lines[i] == EMPTY_LINE
        invariant |lines| > |old(lines)| ==> docLine == |lines|
        invariant remaining >= 0 && RowsBetween(lines, virtualDocStart, docLine, cols) + remaining + 1 == OneBased(ptyRow)
        decreases remaining
      {
        if docLine >= |lines| {
          RowsOfPrefix(lines, [EMPTY_LINE], virtualDocStart, docLine, cols);
          lines := lines + [EMPTY_LINE];
        }
        lineRows := Rows(lines[docLine], cols);
        if remaining < lineRows { break; }
        remaining := remaining - lineRows;
        docLine := docLine + 1;
      }
      DivideSum(cols, remaining, OneBased(ptyCol) - 1);
      SmallQuotient(OneBased(ptyCol) - 1, cols);
      pos := CursorPos(docLine, remaining * cols + (OneBased(ptyCol) - 1));
    }

    /** Lines are erased from the cursor's on; the cursor does not move, so it stays on a line exactly
        when some line below the erased ones is left. */
    method DeleteLines(count: int)
      requires Valid()
      modifies this`lines
      ensures lines == WithoutLines(old(lines), cursor.line, count)
      ensures cursor.line < |lines| <==> count < |old(lines)| - cursor.line
    {
      var k := if count <= |lines| - cursor.line then count else |lines| - cursor.line;
      var i := 0;
      while i < k
        invariant i == 0 || i <= k
        invariant k <= |old(lines)| - cursor.line
        invariant |lines| == |old(lines)| - i && lines == old(lines)[..cursor.line] + old(lines)[cursor.line + i..]
      {
        lines := lines[..cursor.line] + lines[cursor.line + 1..];
        i := i + 1;
      }
    }

    method MoveCursorToPosition(row: int, col: int)
      requires Valid()
      modifies this`lines, this`cursor
      ensures Valid() && old(lines) <= lines && virtualDocStart <= cursor.line
      ensures 1 <= col <= cols ==>
                && CanvasRow(lines, virtualDocStart, cols, cursor) == OneBased(row)
                && cursor.col % cols + 1 == col
    {
      cursor := PtyToDoc(row, col);
    }

    /** The column within the terminal's row survives a change of row. */
    method MoveCursorToRow(row: int)
      requires Valid()
      modifies this`lines, this`cursor
      ensures Valid() && old(lines) <= lines && virtualDocStart <= cursor.line
      ensures CanvasRow(lines, virtualDocStart, cols, cursor) == OneBased(row)
      ensures cursor.col % cols == old(cursor).col % cols
    {
      cursor := PtyToDoc(row, cursor.col % cols + 1);
    }
  }

  lemma SmallQuotient(n: nat, d: nat)
    requires d > 0
    ensures n / d == 0 <==> n < d
    ensures n < d ==> n % d == n
  {
    if n < d { QuotientUnique(n, d, 0, n); }
  }

  lemma {:induction false} RowsOfPrefix(lines: seq<Line>, more: seq<Line>, from: nat, upto: nat, cols: nat)
    requires from <= upto <= |lines| && cols > 0
    ensures RowsBetween(lines + more, from, upto, cols) == RowsBetween(lines, from, upto, cols)
    decreases upto
  {
    if from < upto { RowsOfPrefix(lines, more, from, upto - 1, cols); }
  }

  lemma {:induction false} RowsAreAdditive(lines: seq<Line>, a: nat, b: nat, c: nat, cols: nat)
    requires a <= b <= c <= |lines| && cols > 0
    ensures RowsBetween(lines, a, c, cols) == RowsBetween(lines, a, b, cols) + RowsBetween(lines, b, c, cols)
    decreases c
  {
    if b < c { RowsAreAdditive(lines, a, b, c - 1, cols); }
  }

  /** At most one position of the canvas shows a given row and column. */
  lemma PositionIsUnique(lines: seq<Line>, origin: nat, cols: nat, p: CursorPos, q: CursorPos)
    requires cols > 0 && OnCanvas(lines, origin, cols, p) && OnCanvas(lines, origin, cols, q)
    requires CanvasRow(lines, origin, cols, p) == CanvasRow(lines, origin, cols, q)
    requires p.col % cols == q.col % cols
    ensures p == q
  {
    SubRowsDecide(lines, origin, cols, p.line, p.col / cols, q.line, q.col / cols);
    DivisionTheorem(p.col, cols);
    DivisionTheorem(q.col, cols);
  }

  lemma DivisionTheorem(n: nat, d: nat)
    requires d > 0
    ensures n == n / d * d + n % d
  {}

  lemma SubRowsDecide(lines: seq<Line>, origin: nat, cols: nat, line: nat, subRow: nat, line': nat, subRow': nat)
    requires cols > 0 && origin <= line < |lines| && origin <= line' < |lines|
    requires subRow < Rows(lines[line], cols) && subRow' < Rows(lines[line'], cols)
    requires RowsBetween(lines, origin, line, cols) + subRow == RowsBetween(lines, origin, line', cols) + subRow'
    ensures line == line' && subRow == subRow'
  {
    if line < line' {
      EarlierLineEarlierRow(lines, origin, cols, line, subRow, line');
    } else if line' < line {
      EarlierLineEarlierRow(lines, origin, cols, line', subRow', line);
    }
  }

  lemma EarlierLineEarlierRow(lines: seq<Line>, origin: nat, cols: nat, line: nat, subRow: nat, later: nat)
    requires cols > 0 && origin <= line < later < |lines| && subRow < Rows(lines[line], cols)
    ensures RowsBetween(lines, origin, line, cols) + subRow < RowsBetween(lines, origin, later, cols)
  {
    RowsAreAdditive(lines, origin, line + 1, later, cols);
    assert RowsBetween(lines, origin, line + 1, cols) == RowsBetween(lines, origin, line, cols) + Rows(lines[line], cols);
  }

  // ----------------------------------------------------- chunking and the document

  lemma {:induction false} AppendClearsFlags(d: Doc, run: seq<CodePoint>, width: CodePoint -> nat)
    requires run != []
    ensures AppendChars(d.(newLineWasPhantom := false, newLineCRPhantom := false), run, width) == AppendChars(d, run, width)
  {}

  /** A document and everything else the other calls read and write (the origin, the saved cursor, the width,
      the pending clears, and what is no document's at all); `None` once a run was appended with the
      cursor past the last line, where the code is undefined. */
  type Target<E> = Option<(RawDoc, E)>

  /** The effect of a call: runs are appended and touch nothing else; any other call acts by `other`, which may
      do anything to both and leave the cursor anywhere. */
  function Effect<E>(width: CodePoint -> nat, other: ((RawDoc, E), Call) -> (RawDoc, E)): (Target<E>, Call) -> Target<E> {
    (t: Target<E>, call: Call) =>
      if t.None? then t
      else if !call.AppendRun? then Some(other(t.value, call))
      else if call.run == [] then t
      else if t.value.0.cursor.line < |t.value.0.lines| then Some((AppendChars(t.value.0, call.run, width), t.value.1))
      else None
  }

  lemma {:induction false} LostStaysLost<E>(run: seq<CodePoint>, width: CodePoint -> nat, other: ((RawDoc, E), Call) -> (RawDoc, E))
    ensures Play(None, Deliver(run), Effect(width, other)) == None
    decreases |run|
  {
    if run != [] {
      assert Deliver(run)[1..] == Deliver(run[1..]);
      LostStaysLost(run[1..], width, other);
    }
  }

  lemma {:induction false} AppendIsPlay<E>(d: Doc, e: E, run: seq<CodePoint>, width: CodePoint -> nat,
                                           other: ((RawDoc, E), Call) -> (RawDoc, E))
    ensures Play<Target<E>>(Some((d, e)), Deliver(run), Effect(width, other)) == Some((AppendChars(d, run, width), e))
    decreases |run|
  {
    if run != [] {
      var next := AppendChar(d, run[0], width);
      AppendIsPlay(next, e, run[1..], width, other);
      assert [run[0]][1..] == [] && AppendChars(next, [], width) == next;
      assert AppendChars(d, [run[0]], width) == AppendChars(next, [run[0]][1..], width);
      assert Effect(width, other)(Some((d, e)), AppendRun([run[0]])) == Some((next, e));
      assert Deliver(run)[1..] == Deliver(run[1..]);
    }
  }

  lemma RunIsFold<E>(t: Target<E>, run: seq<CodePoint>, width: CodePoint -> nat, other: ((RawDoc, E), Call) -> (RawDoc, E))
    ensures Effect(width, other)(t, AppendRun(run)) == Play(t, Deliver(run), Effect(width, other))
  {
    if run == [] { return; }
    if t.None? { LostStaysLost(run, width, other); return; }
    if t.value.0.cursor.line < |t.value.0.lines| { AppendIsPlay(t.value.0, t.value.1, run, width, other); return; }
    assert Deliver(run)[1..] == Deliver(run[1..]);
    assert Effect(width, other)(t, Deliver(run)[0]) == None;
    LostStaysLost(run[1..], width, other);
  }

  /** However the bytes are split into chunks, whatever the other calls do to the document and to anything else,
      the final state is the same, and so is whether a run was ever appended past the last line. */
  lemma ChunksDoNotMatterToDocument<E(!new)>(t: Target<E>, m: Machine, chunks: seq<seq<Byte>>, width: CodePoint -> nat,
                                             other: ((RawDoc, E), Call) -> (RawDoc, E))
    requires m.run == []
    ensures Play(t, ProcessedChunks(m, chunks).calls, Effect(width, other)) ==
            Play(t, Processed(m, Concat(chunks)).calls, Effect(width, other))
  {
    var apply := Effect(width, other);
    forall d: Target<E>, run: seq<CodePoint> ensures apply(d, AppendRun(run)) == Play(d, Deliver(run), apply) {
      RunIsFold(d, run, width, other);
    }
    ChunksDoNotMatterToTarget(t, m, chunks, apply);
  }
}
