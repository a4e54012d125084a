/** What a line shows: its cells, and blank ones behind its text (src/document/Document.cpp:48-243). */
module ShownCells {
  import opened Style
  import opened Lines
  import opened CellEdits

  const BLANK: Cell := (SPACE, [DEFAULT_STYLE])

  function CellAt(line: Line, c: nat): Cell {
    if c < |line.text| then (line.text[c], StylesAt(line.styles, c)) else BLANK
  }

  lemma BlankLine()
    ensures Tidy(EMPTY_LINE) && forall c: nat :: CellAt(EMPTY_LINE, c) == BLANK
  {}

  /** One cell is written, wherever it is; nothing else changes, whether the line has to be padded or not. */
  lemma WriteShows(line: Line, col: nat, ch: CodePoint, style: Style)
    requires Tidy(line)
    ensures var now := Write(line, col, ch, style);
            Tidy(now) && forall c: nat :: CellAt(now, c) == if c == col then (ch, [style]) else CellAt(line, c)
  {
    var now, pad := Write(line, col, ch, style), Padded(line, col);
    WriteEditsCells(line, col, ch, style);
    PadEditsCells(line, col);
    forall c: nat ensures CellAt(now, c) == if c == col then (ch, [style]) else CellAt(line, c) {
      if c < |now.text| { assert Cells(now)[c] == CellAt(now, c); }
      if c < |pad.text| { assert Cells(pad)[c] == CellAt(pad, c); }
      if c < |line.text| { assert Cells(line)[c] == CellAt(line, c); }
    }
  }

  lemma DeleteShows(line: Line, col: nat, count: nat)
    requires Tidy(line)
    ensures var now := Delete(line, col, count);
            Tidy(now) && forall c: nat :: CellAt(now, c) == CellAt(line, if c < col then c else c + count)
  {
    var now := Delete(line, col, count);
    if col < |line.text| && count > 0 {
      var n := Min(count, |line.text| - col);
      DeleteEditsCells(line, col, count);
      forall c: nat ensures CellAt(now, c) == CellAt(line, if c < col then c else c + count) {
        if c < |now.text| { assert Cells(now)[c] == CellAt(now, c); }
        if c < |line.text| { assert Cells(line)[c] == CellAt(line, c); }
        if c + n < |line.text| { assert Cells(line)[c + n] == CellAt(line, c + n); }
      }
    }
  }

  lemma TruncateShows(line: Line, col: nat)
    requires Tidy(line)
    ensures var now := Truncate(line, col);
            Tidy(now) && forall c: nat :: CellAt(now, c) == if c < col then CellAt(line, c) else BLANK
  {
    var now := Truncate(line, col);
    if col < |line.text| {
      TruncateEditsCells(line, col);
      forall c: nat | c < col ensures CellAt(now, c) == CellAt(line, c) {
        assert Cells(now)[c] == CellAt(now, c) && Cells(line)[c] == CellAt(line, c);
      }
    }
  }

  // -------------------------------------------------------------------- insertion

  /** Nothing is inserted in front of a later run, or there is nothing to move. */
  predicate MayInsert(line: Line, col: nat) {
    col >= |line.text| || InsertSafe(line.styles, col)
  }

  /** The last cell of a line may be inserted in front of. */
  lemma LastIsSafe(line: Line, col: nat)
    requires Tidy(line) && |line.text| == col + 1
    ensures InsertSafe(line.styles, col)
  {
    forall i, j | 0 <= i < j < |line.styles| && line.styles[i].Straddles(col) && line.styles[j].length > 0
      ensures line.styles[j].start < col
    {
      var r := line.styles[j];
      assert line.styles[i].Covers(col);
      OneCovers(line, col, i, j);
      if r.start > col {
        CoveredBySome(line.styles, r.start);
        assert r.Covers(r.start);
      }
    }
  }

  /** What is shown at a column once `n` such cells are in front of the ones from `col` on. */
  function ShownAfter(line: Line, col: nat, n: nat, cell: Cell, c: nat): Cell {
    if c < col then CellAt(line, c) else if c < col + n then cell else CellAt(line, c - n)
  }

  lemma InsertedShow(line: Line, col: nat, n: nat, ch: CodePoint, style: Style, now: Line)
    requires col < |line.text| && Cells(now) == Cells(line)[..col] + Fill(n, (ch, [style])) + Cells(line)[col..]
    ensures forall c: nat :: CellAt(now, c) == ShownAfter(line, col, n, (ch, [style]), c)
  {
    forall c: nat ensures CellAt(now, c) == ShownAfter(line, col, n, (ch, [style]), c) {
      assert |now.text| == |Cells(now)| == |line.text| + n;
      if c < |now.text| { assert Cells(now)[c] == CellAt(now, c); }
      if c < |line.text| { assert Cells(line)[c] == CellAt(line, c); }
      if 0 <= c - n < |line.text| { assert Cells(line)[c - n] == CellAt(line, c - n); }
    }
  }

  /** `n` cells put in at a column move what is behind them by `n`. */
  lemma InsertManyShows(line: Line, col: nat, n: nat, ch: CodePoint, style: Style)
    requires Tidy(line) && MayInsert(line, col)
    ensures var now := InsertMany(line, col, n, ch, style);
            Tidy(now) && forall c: nat :: CellAt(now, c) == ShownAfter(line, col, n, (ch, [style]), c)
  {
    if n == 0 { return; }
    var now := InsertMany(line, col, n, ch, style);
    if col < |line.text| {
      InsertManyExactlyWhenSafe(line, col, n, ch, style);
      InsertedShow(line, col, n, ch, style, now);
      return;
    }
    var one := Write(line, col, ch, style);
    WriteShows(line, col, ch, style);
    InsertManyFromInner(line, col, n, ch, style);
    if n > 1 {
      assert |one.text| == col + 1;
      LastIsSafe(one, col);
      InsertManyExactlyWhenSafe(one, col, n - 1, ch, style);
      InsertedShow(one, col, n - 1, ch, style, now);
    }
  }
}
