/** One document line: text and the style runs over it (src/document/Document.cpp:48-243).

    A line means a sequence of cells, each a code point with the styles of the runs covering it.
    A tidy line has exactly one style per column and none past its end. The edits are proved to be
    edits of the cell sequence; all but `InsertAt` are so for any runs at all.
  */
module Lines {
  import opened Style

  datatype Line = Line(text: seq<CodePoint>, styles: seq<StyleRun>)

  const EMPTY_LINE := Line([], [])

  type Cell = (CodePoint, seq<Style>)

  function Cells(line: Line): seq<Cell> {
    seq(|line.text|, c requires 0 <= c < |line.text| => (line.text[c], StylesAt(line.styles, c)))
  }

  /** Every column of the text has exactly one style, and nothing is styled past it. */
  ghost predicate Tidy(line: Line) {
    forall c: nat :: |StylesAt(line.styles, c)| == if c < |line.text| then 1 else 0
  }

  function Min(a: nat, b: nat): nat { if a <= b then a else b }
  function Max(a: nat, b: nat): nat { if a >= b then a else b }

  // ------------------------------------------------ the edits, on line values

  /** Grow the last run over `[start, start + n)` when it ends there in that style, else add a run. */
  function ExtendRuns(runs: seq<StyleRun>, start: nat, n: nat, style: Style): seq<StyleRun> {
    if runs != [] && runs[|runs| - 1].style == style && runs[|runs| - 1].End() == start then
      runs[|runs| - 1 := runs[|runs| - 1].(length := runs[|runs| - 1].length + n)]
    else runs + [StyleRun(start, n, style)]
  }

  function Piece(start: nat, length: nat, style: Style): seq<StyleRun> {
    if length > 0 then [StyleRun(start, length, style)] else []
  }

  /** Restyle the first run covering `col` there, splitting it; a new run when none covers it. */
  function OverwriteRuns(runs: seq<StyleRun>, col: nat, style: Style): seq<StyleRun> {
    if runs == [] then [StyleRun(col, 1, style)]
    else
      var r := runs[0];
      if !r.Covers(col) then [r] + OverwriteRuns(runs[1..], col, style)
      else if r.style == style then runs
      else
        Piece(r.start, col - r.start, r.style) + [StyleRun(col, 1, style)]
        + Piece(col + 1, r.End() - col - 1, r.style) + runs[1..]
  }

  function Padded(line: Line, col: nat): Line {
    if col > |line.text| then
      Line(line.text + Fill(col - |line.text|, SPACE),
           ExtendRuns(line.styles, |line.text|, col - |line.text|, DEFAULT_STYLE))
    else line
  }

  function Write(line: Line, col: nat, ch: CodePoint, style: Style): Line {
    var line := Padded(line, col);
    if col == |line.text| then Line(line.text + [ch], ExtendRuns(line.styles, col, 1, style))
    else Line(line.text[col := ch], OverwriteRuns(line.styles, col, style))
  }

  /** What erasing columns `[col, col + count)` leaves of one run. */
  function ShrinkRun(r: StyleRun, col: nat, count: nat): seq<StyleRun> {
    if r.start >= col + count then [r.(start := r.start - count)]
    else if r.End() <= col then [r]
    else
      var deleted := Min(r.End(), col + count) - Max(r.start, col);
      Piece(Min(r.start, col), r.length - deleted, r.style)
  }

  function ShrinkRuns(runs: seq<StyleRun>, col: nat, count: nat): seq<StyleRun> {
    if runs == [] then [] else ShrinkRun(runs[0], col, count) + ShrinkRuns(runs[1..], col, count)
  }

  function Delete(line: Line, col: nat, count: nat): Line {
    if col >= |line.text| || count == 0 then line
    else
      var count := Min(count, |line.text| - col);
      Line(line.text[..col] + line.text[col + count..], ShrinkRuns(line.styles, col, count))
  }

  function ErasePrevious(line: Line, cursorCol: nat): Line {
    if cursorCol == 0 || cursorCol > |line.text| then line
    else Line(line.text[..cursorCol - 1] + line.text[cursorCol..], BackspaceRuns(line.styles, cursorCol - 1))
  }

  function BackspaceRun(r: StyleRun, pos: nat): seq<StyleRun> {
    if r.start > pos then [r.(start := r.start - 1)]
    else if r.End() > pos then Piece(r.start, r.length - 1, r.style)
    else [r]
  }

  function BackspaceRuns(runs: seq<StyleRun>, pos: nat): seq<StyleRun> {
    if runs == [] then [] else BackspaceRun(runs[0], pos) + BackspaceRuns(runs[1..], pos)
  }

  function CutRun(r: StyleRun, col: nat): seq<StyleRun> {
    if r.start >= col then []
    else if r.End() > col then [r.(length := col - r.start)]
    else [r]
  }

  function CutRuns(runs: seq<StyleRun>, col: nat): seq<StyleRun> {
    if runs == [] then [] else CutRun(runs[0], col) + CutRuns(runs[1..], col)
  }

  function Truncate(line: Line, col: nat): Line {
    if col >= |line.text| then line else Line(line.text[..col], CutRuns(line.styles, col))
  }

  function ShiftRun(r: StyleRun, col: nat): StyleRun {
    if r.start >= col then r.(start := r.start + 1) else r
  }

  function SplitRun(r: StyleRun, col: nat, style: Style): seq<StyleRun>
    requires r.Straddles(col)
  {
    [StyleRun(r.start, col - r.start, r.style), StyleRun(col, 1, style), StyleRun(col + 1, r.End() - col, r.style)]
  }

  /** The run loop of `InsertAt`: it stops at the first run that straddles `col`. */
  function InsertRuns(runs: seq<StyleRun>, col: nat, style: Style): seq<StyleRun> {
    if runs == [] then [StyleRun(col, 1, style)]
    else if runs[0].Straddles(col) then SplitRun(runs[0], col, style) + runs[1..]
    else [ShiftRun(runs[0], col)] + InsertRuns(runs[1..], col, style)
  }

  function Insert(line: Line, col: nat, ch: CodePoint, style: Style): Line {
    if col >= |line.text| then Write(line, col, ch, style)
    else Line(line.text[..col] + [ch] + line.text[col..], InsertRuns(line.styles, col, style))
  }

  function InsertMany(line: Line, col: nat, n: nat, ch: CodePoint, style: Style): Line
    decreases n
  {
    if n == 0 then line else Insert(InsertMany(line, col, n - 1, ch, style), col, ch, style)
  }

  function DeleteClamped(line: Line, col: nat, count: nat, boundary: nat, padStyle: Style): Line {
    if col >= |line.text| || col >= boundary || count == 0 then line
    else
      var eff := Min(count, boundary - col);
      if |line.text| <= boundary then Delete(line, col, Min(eff, |line.text| - col))
      else InsertMany(Delete(line, col, eff), boundary - eff, eff, SPACE, padStyle)
  }

  // ------------------------------------------------------- the edits, in place

  class DocLine {
    var text: seq<CodePoint>
    var styles: seq<StyleRun>

    constructor (line: Line)
      ensures Value() == line
    {
      text, styles := line.text, line.styles;
    }

    function Value(): Line
      reads this
    {
      Line(text, styles)
    }

    method WriteAt(col: nat, ch: CodePoint, style: Style)
      modifies this
      ensures Value() == Write(old(Value()), col, ch, style)
    {
      if col > |text| {
        var padStart := |text|;
        var padCount := col - padStart;
        text := text + Fill(padCount, SPACE);
        if styles != [] && styles[|styles| - 1].style == DEFAULT_STYLE && styles[|styles| - 1].End() == padStart {
          styles := styles[|styles| - 1 := styles[|styles| - 1].(length := styles[|styles| - 1].length + padCount)];
        } else {
          styles := styles + [StyleRun(padStart, padCount, DEFAULT_STYLE)];
        }
      }
      if col == |text| {
        text := text + [ch];
        if styles != [] && styles[|styles| - 1].style == style && styles[|styles| - 1].End() == col {
          styles := styles[|styles| - 1 := styles[|styles| - 1].(length := styles[|styles| - 1].length + 1)];
        } else {
          styles := styles + [StyleRun(col, 1, style)];
        }
        return;
      }
      text := text[col := ch];
      Overwrite(col, style);
    }

    /** Replace run `i` by `piece`: the loops' erase and insert at an index. */
    method Splice(i: nat, piece: seq<StyleRun>)
      requires i < |styles|
      modifies this`styles
      ensures styles == old(styles)[..i] + piece + old(styles)[i + 1..]
    {
      styles := styles[..i] + piece + styles[i + 1..];
    }

    /** The run loop of the overwrite case. */
    method Overwrite(col: nat, style: Style)
      modifies this`styles
      ensures styles == OverwriteRuns(old(styles), col, style)
    {
      ghost var was, rest := styles, styles;
      var i := 0;
      while i < |styles|
        invariant i <= |styles| && styles == was && rest == was[i..]
        invariant OverwriteRuns(was, col, style) == was[..i] + OverwriteRuns(rest, col, style)
      {
        var r := styles[i];
        assert rest[0] == r && rest[1..] == was[i + 1..];
        if !r.Covers(col) {
          assert was[..i] + [r] == was[..i + 1];
          ConcatAssoc(was[..i], [r], OverwriteRuns(rest[1..], col, style));
          rest := rest[1..];
          i := i + 1;
          continue;
        }
        if r.style == style {
          assert was[..i] + was[i..] == was;
          return;
        }
        var piece := Piece(r.start, col - r.start, r.style) + [StyleRun(col, 1, style)]
        + Piece(col + 1, r.End() - col - 1, r.style);
        ConcatAssoc(was[..i], piece, was[i + 1..]);
        Splice(i, piece);
        return;
      }
      assert was[..i] == was;
      styles := styles + [StyleRun(col, 1, style)];
    }

    method Clear()
      modifies this
      ensures Value() == EMPTY_LINE
    {
      text, styles := [], [];
    }

    method DeletePreviousChar(cursorCol: nat)
      modifies this
      ensures Value() == ErasePrevious(old(Value()), cursorCol)
    {
      if cursorCol == 0 || text == [] { return; }
      var erasePos := cursorCol - 1;
      if erasePos >= |text| { return; }
      text := text[..erasePos] + text[erasePos + 1..];
      ghost var was, done, rest := styles, [], styles;
      var i := 0;
      while i < |styles|
        invariant styles == done + rest && i == |done|
        invariant text == old(text)[..erasePos] + old(text)[erasePos + 1..]
        invariant BackspaceRuns(was, erasePos) == done + BackspaceRuns(rest, erasePos)
        decreases |rest|
      {
        var piece := BackspaceRun(styles[i], erasePos);
        ConcatAssoc(done, piece, BackspaceRuns(rest[1..], erasePos));
        SpliceConcat(done, rest, piece);
        Splice(i, piece);
        done, rest := done + piece, rest[1..];
        i := i + |piece|;
      }
    }

    method DeleteAt(col: nat, count: nat)
      modifies this
      ensures Value() == Delete(old(Value()), col, count)
    {
      if col >= |text| || count == 0 { return; }
      var n := if count <= |text| - col then count else |text| - col;
      text := text[..col] + text[col + n..];
      ghost var was, done, rest := styles, [], styles;
      var i := 0;
      while i < |styles|
        invariant styles == done + rest && i == |done|
        invariant text == old(text)[..col] + old(text)[col + n..]
        invariant ShrinkRuns(was, col, n) == done + ShrinkRuns(rest, col, n)
        decreases |rest|
      {
        assert styles[i] == rest[0];
        var piece := ShrinkRun(styles[i], col, n);
        ghost var tail := rest[1..];
        assert ShrinkRuns(was, col, n) == done + piece + ShrinkRuns(tail, col, n) by {
          ConcatAssoc(done, piece, ShrinkRuns(tail, col, n));
        }
        SpliceConcat(done, rest, piece);
        Splice(i, piece);
        done, rest := done + piece, tail;
        i := i + |piece|;
      }
    }

    method DeleteAtClamped(col: nat, count: nat, boundary: nat, padStyle: Style)
      modifies this
      ensures Value() == DeleteClamped(old(Value()), col, count, boundary, padStyle)
    {
      if col >= |text| || col >= boundary || count == 0 { return; }
      var eff := if count <= boundary - col then count else boundary - col;
      if |text| <= boundary {
        DeleteAt(col, if eff <= |text| - col then eff else |text| - col);
        return;
      }
      DeleteAt(col, eff);
      InsertCopies(boundary - eff, eff, SPACE, padStyle);
    }

    /** The refilling loop of `DeleteAtClamped`. */
    method InsertCopies(col: nat, count: nat, ch: CodePoint, style: Style)
      modifies this
      ensures Value() == InsertMany(old(Value()), col, count, ch, style)
    {
      for i := 0 to count
        invariant Value() == InsertMany(old(Value()), col, i, ch, style)
      {
        InsertAt(col, ch, style);
      }
    }

    method InsertAt(col: nat, ch: CodePoint, style: Style)
      modifies this
      ensures Value() == Insert(old(Value()), col, ch, style)
    {
      if col >= |text| {
        WriteAt(col, ch, style);
        return;
      }
      text := text[..col] + [ch] + text[col..];
      ShiftOrSplit(col, style);
    }

    /** The run loop of `InsertAt`. */
    method ShiftOrSplit(col: nat, style: Style)
      modifies this`styles
      ensures styles == InsertRuns(old(styles), col, style)
    {
      ghost var was, done, rest := styles, [], styles;
      var i := 0;
      while i < |styles|
        invariant styles == done + rest && i == |done|
        invariant InsertRuns(was, col, style) == done + InsertRuns(rest, col, style)
        decreases |rest|
      {
        var r := styles[i];
        assert r == rest[0];
        if r.Straddles(col) {
          var piece := SplitRun(r, col, style);
          ConcatAssoc(done, piece, rest[1..]);
          SpliceConcat(done, rest, piece);
          Splice(i, piece);
          return;
        }
        var piece := [ShiftRun(r, col)];
        ConcatAssoc(done, piece, InsertRuns(rest[1..], col, style));
        SpliceConcat(done, rest, piece);
        Splice(i, piece);
        done, rest := done + piece, rest[1..];
        i := i + 1;
      }
      styles := styles + [StyleRun(col, 1, style)];
    }

    method TruncateFrom(col: nat)
      modifies this
      ensures Value() == Truncate(old(Value()), col)
    {
      if col >= |text| { return; }
      text := text[..col];
      ghost var was, done, rest := styles, [], styles;
      var i := 0;
      while i < |styles|
        invariant styles == done + rest && i == |done|
        invariant text == old(text)[..col]
        invariant CutRuns(was, col) == done + CutRuns(rest, col)
        decreases |rest|
      {
        var piece := CutRun(styles[i], col);
        ConcatAssoc(done, piece, CutRuns(rest[1..], col));
        SpliceConcat(done, rest, piece);
        Splice(i, piece);
        done, rest := done + piece, rest[1..];
        i := i + |piece|;
      }
    }
  }

  lemma SpliceConcat<T>(done: seq<T>, rest: seq<T>, piece: seq<T>)
    requires rest != []
    ensures var s := done + rest; s[..|done|] + piece + s[|done| + 1..] == done + piece + rest[1..]
  {}
}
