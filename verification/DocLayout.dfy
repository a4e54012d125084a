/** The viewport over a document (src/layout/DocLayout.cpp:45-94, 131-161, 214-255, 759-783).

    A visual row is a document line, or one slice of it when wrapping. `FlatRow` numbers the visual
    rows from the top of the document; walking the viewport anchor is clamped addition on that number.
    Search, selection and link overlays are left out of the rendered rows.
  */
module DocLayout {
  import opened Style
  import opened Lines
  import MainScreen

  type CursorPos = MainScreen.CursorPos

  /** What the layout sees of the document, and its own geometry. */
  datatype View = View(lines: seq<Line>, cursor: CursorPos, wrap: bool, cols: nat, leftCol: nat)

  datatype Anchor = Anchor(docLine: nat, subRow: nat)

  function VisualCount(v: View, line: Line): (n: nat)
    ensures n >= 1
  {
    if !v.wrap || v.cols == 0 then 1 else MainScreen.Rows(line, v.cols)
  }

  /** The cursor waits past a line that fills its last row: it is shown on an extra, empty row. */
  predicate PendingWrapRow(v: View, docLine: nat)
    requires docLine < |v.lines|
  {
    var n := |v.lines[docLine].text|;
    v.wrap && v.cols > 0 && v.cursor.line == docLine && n > 0 && n % v.cols == 0 && v.cursor.col == n
  }

  function EffectiveCount(v: View, docLine: nat): (n: nat)
    requires docLine < |v.lines|
    ensures n >= 1
  {
    VisualCount(v, v.lines[docLine]) + if PendingWrapRow(v, docLine) then 1 else 0
  }

  /** Visual rows above document line `docLine`. */
  function RowsAbove(v: View, docLine: nat): nat
    requires docLine <= |v.lines|
  {
    if docLine == 0 then 0 else RowsAbove(v, docLine - 1) + EffectiveCount(v, docLine - 1)
  }

  function TotalRows(v: View): nat {
    RowsAbove(v, |v.lines|)
  }

  /** A visual row of the document, or the position just past its last one. */
  predicate InRange(v: View, a: Anchor) {
    if a.docLine < |v.lines| then a.subRow < EffectiveCount(v, a.docLine)
    else a.docLine == |v.lines| && a.subRow == 0
  }

  function FlatRow(v: View, a: Anchor): nat
    requires InRange(v, a)
  {
    RowsAbove(v, a.docLine) + a.subRow
  }

  function Clamp(n: int, hi: nat): nat {
    if n < 0 then 0 else if n > hi then hi else n
  }

  lemma {:induction false} RowsAboveGrow(v: View, i: nat, j: nat)
    requires i <= j <= |v.lines|
    ensures RowsAbove(v, i) + (j - i) <= RowsAbove(v, j)
    decreases j
  {
    if i < j { RowsAboveGrow(v, i, j - 1); }
  }

  lemma FlatRowIsBounded(v: View, a: Anchor)
    requires InRange(v, a)
    ensures FlatRow(v, a) <= TotalRows(v)
    ensures FlatRow(v, a) == TotalRows(v) <==> a.docLine == |v.lines|
  {
    if a.docLine < |v.lines| { RowsAboveGrow(v, a.docLine + 1, |v.lines|); }
  }

  /** Distinct anchors are distinct visual rows. */
  lemma FlatRowIsInjective(v: View, a: Anchor, b: Anchor)
    requires InRange(v, a) && InRange(v, b) && FlatRow(v, a) == FlatRow(v, b)
    ensures a == b
  {
    if a.docLine < b.docLine {
      RowsAboveGrow(v, a.docLine + 1, b.docLine);
    } else if b.docLine < a.docLine {
      RowsAboveGrow(v, b.docLine + 1, a.docLine);
    }
  }

  /** `b` is the anchor `delta` rows from `a`, clamped to the document. */
  predicate IsWalk(v: View, a: Anchor, delta: int, b: Anchor)
    requires InRange(v, a)
  {
    InRange(v, b) && FlatRow(v, b) == Clamp(FlatRow(v, a) + delta, TotalRows(v))
  }

  method WalkAnchorBy(v: View, from: Anchor, rows: int) returns (a: Anchor)
    requires InRange(v, from)
    ensures IsWalk(v, from, rows, a)
  {
    a := from;
    var delta := rows;
    FlatRowIsBounded(v, a);
    while delta > 0 && a.docLine < |v.lines|
      invariant InRange(v, a)
      invariant rows <= 0 ==> delta == rows && a == from
      invariant rows > 0 ==> delta >= 0 && FlatRow(v, a) + delta == FlatRow(v, from) + rows
      decreases |v.lines| - a.docLine
    {
      FlatRowIsBounded(v, a);
      var remaining := EffectiveCount(v, a.docLine) - a.subRow - 1;
      if delta <= remaining {
        a := a.(subRow := a.subRow + delta);
        FlatRowIsBounded(v, a);
        return;
      }
      delta := delta - (remaining + 1);
      a := Anchor(a.docLine + 1, 0);
    }
    FlatRowIsBounded(v, a);
    while delta < 0
      invariant InRange(v, a)
      invariant rows >= 0 ==> delta >= 0
      invariant delta <= 0 ==> FlatRow(v, a) + delta == FlatRow(v, from) + rows && FlatRow(v, a) <= TotalRows(v)
      invariant delta > 0 ==> a.docLine == |v.lines| && FlatRow(v, a) + delta == FlatRow(v, from) + rows
      decreases a.docLine
    {
      FlatRowIsBounded(v, a);
      if a.subRow >= -delta {
        a := a.(subRow := a.subRow + delta);
        return;
      }
      delta := delta + a.subRow + 1;
      if a.docLine == 0 {
        a := a.(subRow := 0);
        return;
      }
      a := Anchor(a.docLine - 1, EffectiveCount(v, a.docLine - 1) - 1);
    }
  }

  /** The flat row a batch starting `first` rows from `top` has reached after `k` single steps. */
  function BatchRow(top: nat, first: int, k: nat, total: nat): nat {
    Clamp(Clamp(top + first, total) + k, total)
  }

  predicate BatchAgrees(top: nat, first: int, k: nat, total: nat) {
    BatchRow(top, first, k, total) == Clamp(top + first + k, total)
  }

  /** A batch of `n` rows walked step by step reaches the rows asked for one by one exactly when it
      does not start above the document, or is too short to tell. */
  lemma BatchAgreesIff(top: nat, first: int, n: nat, total: nat)
    ensures (forall k: nat | k < n :: BatchAgrees(top, first, k, total)) <==> top + first >= 0 || n <= 1 || total == 0
  {
    if top + first < 0 && n > 1 && total > 0 { assert !BatchAgrees(top, first, 1, total); }
  }

  // -------------------------------------------------------------- rendered rows

  datatype RenderedLine = RenderedLine(text: seq<CodePoint>, attrs: seq<Style>, hasCursor: bool, cursorCol: int)

  const BLANK_ROW := RenderedLine([], [], false, 0)

  function StartCol(v: View, pos: Anchor): nat {
    if v.wrap then pos.subRow * v.cols else v.leftCol
  }

  /** How much of the line the row shows. */
  function SliceLength(v: View, line: Line, start: nat): nat {
    if |line.text| > start then Min(v.cols, |line.text| - start) else 0
  }

  /** The window of at most `cols` characters starting at `start`. */
  function Window(text: seq<CodePoint>, start: nat, cols: nat): seq<CodePoint> {
    if |text| > start then text[start..start + Min(cols, |text| - start)] else []
  }

  function LastStyle(styles: seq<Style>): Style {
    if styles == [] then DEFAULT_STYLE else styles[|styles| - 1]
  }

  function ShowsCursor(v: View, pos: Anchor): bool {
    && v.cursor.line == pos.docLine
    && if v.wrap then (if v.cols > 0 then v.cursor.col / v.cols else 0) == pos.subRow
       else v.leftCol <= v.cursor.col < v.leftCol + v.cols
  }

  /** The row a position draws: the slice of text, for each cell the style of the last run over it,
      and the cursor if it stands there. */
  function Rendered(v: View, pos: Anchor): RenderedLine {
    if pos.docLine >= |v.lines| then BLANK_ROW
    else
      var line := v.lines[pos.docLine];
      var start := StartCol(v, pos);
      var n := SliceLength(v, line, start);
      var shown := ShowsCursor(v, pos);
      RenderedLine(Window(line.text, start, v.cols),
                   seq(n, c requires c >= 0 => LastStyle(StylesAt(line.styles, start + c))),
                   shown, if shown then v.cursor.col - start else 0)
  }

  method BuildRenderedLine(v: View, pos: Anchor) returns (row: RenderedLine)
    ensures row == Rendered(v, pos)
  {
    if pos.docLine >= |v.lines| { return BLANK_ROW; }
    var dline := v.lines[pos.docLine];
    var startCol := StartCol(v, pos);
    var len := SliceLength(v, dline, startCol);
    var text := if len > 0 then dline.text[startCol..startCol + len] else [];
    var attrs := ExpandRuns(dline.styles, startCol, len);
    var shown := ShowsCursor(v, pos);
    row := RenderedLine(text, attrs, shown, if shown then v.cursor.col - startCol else 0);
    assert row.attrs == Rendered(v, pos).attrs;
  }

  /** The loops expanding the runs over the visible window: later runs overwrite earlier ones. */
  method ExpandRuns(styles: seq<StyleRun>, startCol: nat, len: nat) returns (attrs: seq<Style>)
    ensures |attrs| == len
    ensures forall c | 0 <= c < len :: attrs[c] == LastStyle(StylesAt(styles, startCol + c))
  {
    attrs := Fill(len, DEFAULT_STYLE);
    for i := 0 to |styles|
      invariant |attrs| == len
      invariant forall c | 0 <= c < len :: attrs[c] == LastStyle(StylesAt(styles[..i], startCol + c))
    {
      var sr := styles[i];
      ghost var was := attrs;
      var sliceEnd := startCol + len;
      if sr.start < sliceEnd && sr.End() > startCol {
        var overlapStart := Max(sr.start, startCol);
        var overlapEnd := Min(sr.End(), sliceEnd);
        for c := overlapStart to overlapEnd
          invariant |attrs| == len
          invariant forall k | 0 <= k < len ::
                      attrs[k] == if overlapStart <= startCol + k < c then sr.style else was[k]
        {
          attrs := attrs[c - startCol := sr.style];
        }
      }
      forall c | 0 <= c < len ensures attrs[c] == LastStyle(StylesAt(styles[..i + 1], startCol + c)) {
        assert styles[..i + 1] == styles[..i] + [sr];
        StylesAtAppend(styles[..i], [sr], startCol + c);
        assert attrs[c] == if sr.Covers(startCol + c) then sr.style else was[c];
      }
    }
    assert styles[..|styles|] == styles;
  }

  /** On a tidy line a row's attributes are its cells' styles. */
  lemma TidyRowShowsCells(v: View, pos: Anchor, c: nat)
    requires pos.docLine < |v.lines| && Tidy(v.lines[pos.docLine]) && c < |Rendered(v, pos).text|
    ensures var line, row := v.lines[pos.docLine], Rendered(v, pos);
            StartCol(v, pos) + c < |line.text| && |row.attrs| == |row.text| &&
            Cells(line)[StartCol(v, pos) + c] == (row.text[c], [row.attrs[c]])
  {
    var line, row, x := v.lines[pos.docLine], Rendered(v, pos), StartCol(v, pos) + c;
    var styles := StylesAt(line.styles, x);
    assert |styles| == 1 && styles == [styles[0]];
    assert row.attrs[c] == LastStyle(styles) && row.text[c] == line.text[x];
    assert Cells(line)[x] == (line.text[x], styles) && styles == [row.attrs[c]];
  }

  /** The first `n` rows of a line, put one after the other. */
  function RowsText(v: View, docLine: nat, n: nat): seq<CodePoint> {
    if n == 0 then [] else RowsText(v, docLine, n - 1) + Rendered(v, Anchor(docLine, n - 1)).text
  }

  function Windows(text: seq<CodePoint>, cols: nat, n: nat): seq<CodePoint> {
    if n == 0 then [] else Windows(text, cols, n - 1) + Window(text, (n - 1) * cols, cols)
  }

  lemma {:induction false} WindowsArePrefix(text: seq<CodePoint>, cols: nat, n: nat)
    ensures Windows(text, cols, n) == text[..Min(n * cols, |text|)]
    decreases n
  {
    if n > 0 {
      WindowsArePrefix(text, cols, n - 1);
      NextMultiple(n, cols);
      NextSlice(text, (n - 1) * cols, cols);
    }
  }

  lemma {:induction false} RowsAreWindows(v: View, docLine: nat, n: nat)
    requires v.wrap && docLine < |v.lines|
    ensures RowsText(v, docLine, n) == Windows(v.lines[docLine].text, v.cols, n)
    decreases n
  {
    if n > 0 { RowsAreWindows(v, docLine, n - 1); }
  }

  lemma NextMultiple(n: nat, d: nat)
    requires n > 0
    ensures n * d == (n - 1) * d + d
  {}

  lemma NextSlice(text: seq<CodePoint>, start: nat, n: nat)
    ensures text[..Min(start, |text|)] + Window(text, start, n) == text[..Min(start + n, |text|)]
  {}

  /** When wrapping, the rows of a line show its whole text, nothing twice and nothing lost. */
  lemma WrappedRowsShowTheLine(v: View, docLine: nat)
    requires v.wrap && v.cols > 0 && docLine < |v.lines|
    ensures RowsText(v, docLine, EffectiveCount(v, docLine)) == v.lines[docLine].text
  {
    var text := v.lines[docLine].text;
    var n := EffectiveCount(v, docLine);
    RowsAreWindows(v, docLine, n);
    WindowsArePrefix(text, v.cols, n);
    RowsCoverText(|text|, v.cols, VisualCount(v, v.lines[docLine]), n);
    assert text[..|text|] == text;
  }

  lemma RowsCoverText(len: nat, cols: nat, count: nat, n: nat)
    requires cols > 0 && n >= count && count == if len == 0 then 1 else (len + cols - 1) / cols
    ensures n * cols >= len
  {
    assert len > 0 ==> count * cols + (len + cols - 1) % cols == len + cols - 1;
    MainScreen.MulMonotone(count, n, cols);
  }

  lemma RowOfColumn(n: nat, cols: nat, col: nat)
    requires cols > 0 && n > 0 && col <= n
    ensures col / cols < (n + cols - 1) / cols + if n % cols == 0 && col == n then 1 else 0
  {
    var q, r := n / cols, n % cols;
    MainScreen.DivisionTheorem(n, cols);
    MainScreen.DivideSum(cols, q, r + cols - 1);
    if r > 0 { MainScreen.DivideSum(cols, 1, r - 1); } else { MainScreen.SmallQuotient(cols - 1, cols); }
    if col / cols > q { BelowQuotient(col, cols, q + 1, n); }
    if r == 0 && col / cols >= q && col < n { BelowQuotient(col, cols, q, n); }
    MainScreen.SmallQuotient(r, cols);
    if r > 0 { MainScreen.SmallQuotient(r - 1, cols); }
  }

  lemma BelowQuotient(col: nat, cols: nat, q: nat, n: nat)
    requires cols > 0 && col / cols >= q
    ensures col >= q * cols
  {
    MainScreen.DivisionTheorem(col, cols);
    MainScreen.MulMonotone(q, col / cols, cols);
  }

  /** When wrapping, a cursor on or just past the text is drawn on exactly one visual row, inside it and at the
      cursor's own column of the line: the pending-wrap row is what makes this so at the end of a full row. */
  lemma CursorIsDrawnOnce(v: View, pos: Anchor)
    requires v.wrap && v.cols > 0 && v.cursor.line < |v.lines| && v.cursor.col <= |v.lines[v.cursor.line].text|
    requires InRange(v, pos)
    ensures InRange(v, Anchor(v.cursor.line, v.cursor.col / v.cols))
    ensures var row := Rendered(v, pos);
            && (row.hasCursor <==> pos == Anchor(v.cursor.line, v.cursor.col / v.cols))
            && (row.hasCursor ==> row.cursorCol < v.cols && pos.subRow * v.cols + row.cursorCol == v.cursor.col)
  {
    var n := |v.lines[v.cursor.line].text|;
    if n > 0 { RowOfColumn(n, v.cols, v.cursor.col); } else { MainScreen.SmallQuotient(0, v.cols); }
    MainScreen.DivisionTheorem(v.cursor.col, v.cols);
  }

  /** When not, it is drawn exactly on its own line while that column is in the window, at that column of it. */
  lemma CursorIsDrawnInWindow(v: View, pos: Anchor)
    requires !v.wrap && pos.docLine < |v.lines|
    ensures var row := Rendered(v, pos);
            && (row.hasCursor <==> pos.docLine == v.cursor.line && v.leftCol <= v.cursor.col < v.leftCol + v.cols)
            && (row.hasCursor ==> row.cursorCol < v.cols && v.leftCol + row.cursorCol == v.cursor.col)
  {}

  /** When not wrapping, a row shows the part of the line that is in the window. */
  lemma WindowShowsTheLine(v: View, pos: Anchor)
    requires !v.wrap && pos.docLine < |v.lines|
    ensures var row, text := Rendered(v, pos), v.lines[pos.docLine].text;
            && |row.text| <= v.cols && |row.attrs| == |row.text|
            && forall c: nat | c < v.cols :: (c < |row.text| <==> v.leftCol + c < |text|) && (c < |row.text| ==> row.text[c] == text[v.leftCol + c])
  {}

  // -------------------------------------------------------------- the viewport

  class DocLayout {
    var view: View
    var rows: nat
    var topAnchor: Anchor
    var viewDirtyRows: seq<bool>

    predicate Valid()
      reads this
    {
      InRange(view, topAnchor)
    }

    constructor (view: View, rows: nat)
      ensures Valid() && this.view == view && this.rows == rows && topAnchor == Anchor(0, 0)
    {
      this.view, this.rows, topAnchor, viewDirtyRows := view, rows, Anchor(0, 0), [];
    }

    method ScrollByVisualDelta(delta: int)
      requires Valid()
      modifies this`topAnchor
      ensures Valid() && IsWalk(view, old(topAnchor), delta, topAnchor)
    {
      topAnchor := WalkAnchorBy(view, topAnchor, delta);
    }

    method GetRenderedLine(r: int) returns (row: RenderedLine)
      requires Valid()
      ensures exists pos :: IsWalk(view, topAnchor, r, pos) && row == Rendered(view, pos)
    {
      var pos := WalkAnchorBy(view, topAnchor, r);
      row := BuildRenderedLine(view, pos);
    }

    /** The incremental walk draws the rows from the first one on; they are what the single-row query
        draws exactly when `BatchAgreesIff` says so. */
    method GetRenderedLines(first: int, last: int) returns (out: seq<RenderedLine>)
      requires Valid() && first <= last
      ensures |out| == last - first
      ensures forall k, pos | 0 <= k < |out| && InRange(view, pos)
            && FlatRow(view, pos) == BatchRow(FlatRow(view, topAnchor), first, k, TotalRows(view)) ::
                out[k] == Rendered(view, pos)
      ensures FlatRow(view, topAnchor) + first >= 0 ==>
                forall k, pos | 0 <= k < |out| && IsWalk(view, topAnchor, first + k, pos) :: out[k] == Rendered(view, pos)
    {
      out := [];
      var start := WalkAnchorBy(view, topAnchor, first);
      var pos := start;
      ghost var top, total := FlatRow(view, topAnchor), TotalRows(view);
      for r := first to last
        invariant |out| == r - first && InRange(view, pos)
        invariant FlatRow(view, pos) == BatchRow(top, first, r - first, total)
        invariant forall k, p | 0 <= k < |out| && InRange(view, p) && FlatRow(view, p) == BatchRow(top, first, k, total) ::
                    out[k] == Rendered(view, p)
      {
        var row := BuildRenderedLine(view, pos);
        forall p | InRange(view, p) && FlatRow(view, p) == FlatRow(view,
              pos) ensures p == pos { FlatRowIsInjective(view, p, pos); }
        out := out + [row];
        pos := WalkAnchorBy(view, pos, 1);
      }
    }

    /** Viewport row `r` draws document line `docLine`. */
    predicate Draws(r: nat, docLine: nat)
      requires Valid()
      reads this
    {
      docLine < |view.lines| &&
      RowsAbove(view, docLine) <= FlatRow(view, topAnchor) + r < RowsAbove(view, docLine + 1)
    }

    /** Exactly the viewport rows that draw an existing line are flagged; no other flag changes. */
    method MarkDocLineDirty(docLine: nat)
      requires Valid()
      modifies this`viewDirtyRows
      ensures |viewDirtyRows| == rows
      ensures docLine < |view.lines| ==>
                forall r | 0 <= r < rows ::
                  viewDirtyRows[r] == (Draws(r, docLine) || (|old(viewDirtyRows)| == rows && old(viewDirtyRows)[r]))
    {
      if |viewDirtyRows| != rows { viewDirtyRows := Fill(rows, false); }
      if !view.wrap {
        var viewRow := docLine - topAnchor.docLine;
        if 0 <= viewRow < rows { viewDirtyRows := viewDirtyRows[viewRow := true]; }
        forall r: nat | docLine < |view.lines| ensures Draws(r, docLine) <==> r == viewRow {
          UnwrappedRowsAbove(view, topAnchor.docLine);
          UnwrappedRowsAbove(view, docLine);
          UnwrappedRowsAbove(view, docLine + 1);
        }
        return;
      }
      MarkWrapped(docLine);
    }

    /** The walk over the viewport when wrapping. */
    method MarkWrapped(docLine: nat)
      requires Valid() && |viewDirtyRows| == rows
      modifies this`viewDirtyRows
      ensures |viewDirtyRows| == rows
      ensures docLine < |view.lines| ==>
                forall r | 0 <= r < rows :: viewDirtyRows[r] == (Draws(r, docLine) || old(viewDirtyRows)[r])
    {
      ghost var was := viewDirtyRows;
      var pos := topAnchor;
      var r := 0;
      FlatRowIsBounded(view, topAnchor);
      while r < rows
        invariant 0 <= r <= rows && |viewDirtyRows| == rows
        invariant IsWalk(view, topAnchor, r, pos)
        invariant docLine < |view.lines| ==>
                    forall k | 0 <= k < rows :: viewDirtyRows[k] == (was[k] || (k < r && Draws(k, docLine)))
      {
        FlatRowIsBounded(view, pos);
        if pos.docLine >= |view.lines| || pos.docLine > docLine {
          if docLine < |view.lines| { RowsAboveGrow(view, docLine + 1, pos.docLine); }
          break;
        }
        AnchorIsWithinItsLine(view, pos, docLine);
        if pos.docLine == docLine { viewDirtyRows := viewDirtyRows[r := true]; }
        pos := WalkAnchorBy(view, pos, 1);
        r := r + 1;
      }
    }
  }

  lemma AnchorIsWithinItsLine(v: View, pos: Anchor, docLine: nat)
    requires InRange(v, pos) && pos.docLine < |v.lines|
    ensures docLine < |v.lines| ==>
              (pos.docLine == docLine <==> RowsAbove(v, docLine) <= FlatRow(v, pos) < RowsAbove(v, docLine + 1))
  {
    if pos.docLine < docLine < |v.lines| { RowsAboveGrow(v, pos.docLine + 1, docLine); }
    if docLine < pos.docLine { RowsAboveGrow(v, docLine + 1, pos.docLine); }
  }

  lemma {:induction false} UnwrappedRowsAbove(v: View, docLine: nat)
    requires !v.wrap && docLine <= |v.lines|
    ensures RowsAbove(v, docLine) == docLine
    decreases docLine
  {
    if docLine > 0 { UnwrappedRowsAbove(v, docLine - 1); }
  }
}
