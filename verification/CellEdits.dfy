/** What the line edits of `Lines` do to the cells of a line.

    Deleting, truncating and backspacing edit the cells of any line exactly as they edit its text.
    Writing does so on a tidy line. Inserting does so exactly when no run covers a column at or past
    the insertion point after a run that straddles it.
  */
module CellEdits {
  import opened Style
  import opened Lines

  // ----------------------------------------------------- runs, column by column

  lemma {:induction false} StylesAtShrink(runs: seq<StyleRun>, col: nat, count: nat, c: nat)
    ensures StylesAt(ShrinkRuns(runs, col, count), c) == StylesAt(runs, if c < col then c else c + count)
    decreases |runs|
  {
    if runs != [] {
      StylesAtShrink(runs[1..], col, count, c);
      StylesAtAppend(ShrinkRun(runs[0], col, count), ShrinkRuns(runs[1..], col, count), c);
    }
  }

  lemma {:induction false} StylesAtBackspace(runs: seq<StyleRun>, pos: nat, c: nat)
    ensures StylesAt(BackspaceRuns(runs, pos), c) == StylesAt(runs, if c < pos then c else c + 1)
    decreases |runs|
  {
    if runs != [] {
      StylesAtBackspace(runs[1..], pos, c);
      StylesAtAppend(BackspaceRun(runs[0], pos), BackspaceRuns(runs[1..], pos), c);
    }
  }

  lemma {:induction false} StylesAtCut(runs: seq<StyleRun>, col: nat, c: nat)
    ensures StylesAt(CutRuns(runs, col), c) == if c < col then StylesAt(runs, c) else []
    decreases |runs|
  {
    if runs != [] {
      StylesAtCut(runs[1..], col, c);
      StylesAtAppend(CutRun(runs[0], col), CutRuns(runs[1..], col), c);
    }
  }

  lemma StylesAtExtend(runs: seq<StyleRun>, start: nat, n: nat, style: Style, c: nat)
    ensures StylesAt(ExtendRuns(runs, start, n, style), c) ==
              StylesAt(runs, c) + if start <= c < start + n then [style] else []
  {
    if runs != [] {
      var front, last := runs[..|runs| - 1], runs[|runs| - 1];
      assert runs == front + [last];
      StylesAtAppend(front, [last], c);
      StylesAtAppend(front, [last.(length := last.length + n)], c);
      assert runs[|runs| - 1 := last.(length := last.length + n)] == front + [last.(length := last.length + n)];
    }
    StylesAtAppend(runs, [StyleRun(start, n, style)], c);
  }

  /** Only column `col` is restyled, and there only the first style, if any. */
  lemma {:induction false} StylesAtOverwrite(runs: seq<StyleRun>, col: nat, style: Style, c: nat)
    ensures var was := StylesAt(runs, c);
            StylesAt(OverwriteRuns(runs, col, style), c) ==
            if c != col then was else if was == [] then [style] else [style] + was[1..]
    decreases |runs|
  {
    if runs != [] {
      var r := runs[0];
      if !r.Covers(col) {
        StylesAtOverwrite(runs[1..], col, style, c);
      } else if r.style != style {
        var pre, post := Piece(r.start, col - r.start, r.style), Piece(col + 1, r.End() - col - 1, r.style);
        StylesAtAppend(pre + [StyleRun(col, 1, style)] + post, runs[1..], c);
        StylesAtAppend(pre + [StyleRun(col, 1, style)], post, c);
        StylesAtAppend(pre, [StyleRun(col, 1, style)], c);
      }
    }
  }

  predicate NoStraddle(runs: seq<StyleRun>, col: nat) {
    forall r | r in runs :: !r.Straddles(col)
  }

  /** The styles of `runs` with one column of `style` put in at `col`. */
  function ShiftedStyles(runs: seq<StyleRun>, col: nat, style: Style, c: nat): seq<Style> {
    if c < col then StylesAt(runs, c) else if c == col then [style] else StylesAt(runs, c - 1)
  }

  ghost predicate Shifts(now: seq<StyleRun>, was: seq<StyleRun>, col: nat, style: Style) {
    forall c: nat :: StylesAt(now, c) == ShiftedStyles(was, col, style, c)
  }

  lemma {:induction false} StylesAtInsertAtBoundary(runs: seq<StyleRun>, col: nat, style: Style, c: nat)
    requires NoStraddle(runs, col)
    ensures StylesAt(InsertRuns(runs, col, style), c) == ShiftedStyles(runs, col, style, c)
    decreases |runs|
  {
    if runs != [] {
      assert runs[0] in runs;
      StylesAtInsertAtBoundary(runs[1..], col, style, c);
    }
  }

  function FirstStraddle(runs: seq<StyleRun>, col: nat): (k: nat)
    requires !NoStraddle(runs, col)
    ensures k < |runs| && runs[k].Straddles(col) && NoStraddle(runs[..k], col)
  {
    if runs[0].Straddles(col) then 0
    else
      var k := 1 + FirstStraddle(runs[1..], col);
      assert runs[..k] == [runs[0]] + runs[1..][..k - 1];
      k
  }

  lemma StylesAtSplit(r: StyleRun, col: nat, style: Style, c: nat)
    requires r.Straddles(col)
    ensures StylesAt(SplitRun(r, col, style), c) == ShiftedStyles([r], col, style, c)
  {
    var pieces := SplitRun(r, col, style);
    assert pieces[1..] == [pieces[1], pieces[2]] && pieces[1..][1..] == [pieces[2]];
    assert forall s: seq<Style> :: s + [] == s;
    assert StylesAt(pieces[1..][1..], c) == if c > col && r.Covers(c - 1) then [r.style] else [];
    assert StylesAt(pieces[1..], c) == if c == col then [style] else if c > col && r.Covers(c - 1) then [r.style] else [];
    assert StylesAt([r], c) == if r.Covers(c) then [r.style] else [];
    assert c > 0 ==> StylesAt([r], c - 1) == if r.Covers(c - 1) then [r.style] else [];
  }

  /** The runs behind the first one that straddles `col`. */
  function Later(runs: seq<StyleRun>, col: nat): seq<StyleRun>
    requires !NoStraddle(runs, col)
  {
    runs[FirstStraddle(runs, col) + 1..]
  }

  ghost predicate NothingFrom(runs: seq<StyleRun>, col: nat) {
    forall c: nat | c >= col :: StylesAt(runs, c) == []
  }

  lemma StylesAtHalves(runs: seq<StyleRun>, k: nat, c: nat)
    requires k <= |runs|
    ensures StylesAt(runs, c) == StylesAt(runs[..k], c) + StylesAt(runs[k..], c)
  {
    StylesAtAppend(runs[..k], runs[k..], c);
    assert runs == runs[..k] + runs[k..];
  }

  lemma StylesAtInsertFirst(runs: seq<StyleRun>, col: nat, style: Style, c: nat)
    requires runs != [] && runs[0].Straddles(col)
    ensures StylesAt(InsertRuns(runs, col, style), c) == ShiftedStyles(runs[..1], col, style, c) + StylesAt(runs[1..], c)
  {
    StylesAtAppend(SplitRun(runs[0], col, style), runs[1..], c);
    StylesAtSplit(runs[0], col, style, c);
    assert runs[..1] == [runs[0]];
  }

  /** Past a straddling run the loop stops: the runs up to it shift, the later ones do not. */
  lemma {:induction false} StylesAtInsertInside(runs: seq<StyleRun>, col: nat, style: Style, c: nat)
    requires !NoStraddle(runs, col)
    ensures var k := FirstStraddle(runs, col) + 1;
            StylesAt(InsertRuns(runs, col, style), c) == ShiftedStyles(runs[..k], col, style, c) + StylesAt(runs[k..], c)
    decreases |runs|
  {
    var k := FirstStraddle(runs, col) + 1;
    if k == 1 {
      StylesAtInsertFirst(runs, col, style, c);
    } else {
      StylesAtInsertInside(runs[1..], col, style, c);
      assert runs[..k][1..] == runs[1..][..k - 1];
      assert runs[1..][k - 1..] == runs[k..];
    }
  }

  // ---------------------------------------------- edits that are always faithful

  lemma ShrunkStyles(runs: seq<StyleRun>, col: nat, n: nat)
    ensures forall c: nat :: StylesAt(ShrinkRuns(runs, col, n), c) == StylesAt(runs, if c < col then c else c + n)
  {
    forall c: nat ensures StylesAt(ShrinkRuns(runs, col, n), c) == StylesAt(runs, if c < col then c else c + n) {
      StylesAtShrink(runs, col, n, c);
    }
  }

  lemma DeleteEditsCells(line: Line, col: nat, count: nat)
    requires col < |line.text|
    ensures var n := Min(count, |line.text| - col);
            Cells(Delete(line, col, count)) == Cells(line)[..col] + Cells(line)[col + n..]
    ensures Tidy(line) ==> Tidy(Delete(line, col, count))
  {
    var n := Min(count, |line.text| - col);
    if n > 0 {
      var now := Line(line.text[..col] + line.text[col + n..], ShrinkRuns(line.styles, col, n));
      assert Delete(line, col, count) == now;
      ShrunkStyles(line.styles, col, n);
      CellsWithoutStretch(line, now, col, n);
    }
  }

  lemma CellsWithoutStretch(line: Line, now: Line, col: nat, n: nat)
    requires col + n <= |line.text| && now.text == line.text[..col] + line.text[col + n..]
    requires forall c: nat :: StylesAt(now.styles, c) == StylesAt(line.styles, if c < col then c else c + n)
    ensures Cells(now) == Cells(line)[..col] + Cells(line)[col + n..]
    ensures Tidy(line) ==> Tidy(now)
  {}

  lemma BackspaceEditsCells(line: Line, cursorCol: nat)
    requires 0 < cursorCol <= |line.text|
    ensures Cells(ErasePrevious(line, cursorCol)) == Cells(line)[..cursorCol - 1] + Cells(line)[cursorCol..]
    ensures Tidy(line) ==> Tidy(ErasePrevious(line, cursorCol))
  {
    var pos := cursorCol - 1;
    var now := ErasePrevious(line, cursorCol);
    forall c: nat ensures StylesAt(now.styles, c) == StylesAt(line.styles, if c < pos then c else c + 1) {
      StylesAtBackspace(line.styles, pos, c);
    }
  }

  lemma TruncateEditsCells(line: Line, col: nat)
    requires col < |line.text|
    ensures Cells(Truncate(line, col)) == Cells(line)[..col]
    ensures Tidy(line) ==> Tidy(Truncate(line, col))
  {
    forall c: nat
      ensures StylesAt(Truncate(line, col).styles, c) == if c < col then StylesAt(line.styles, c) else []
    {
      StylesAtCut(line.styles, col, c);
    }
  }

  // -------------------------------------------------------- writing a character

  lemma PadEditsCells(line: Line, col: nat)
    requires Tidy(line)
    ensures Tidy(Padded(line, col))
    ensures Cells(Padded(line, col)) ==
              Cells(line) + Fill(if col > |line.text| then col - |line.text| else 0, (SPACE, [DEFAULT_STYLE]))
  {
    if col > |line.text| {
      var n := col - |line.text|;
      forall c: nat
        ensures StylesAt(Padded(line, col).styles, c)
             == StylesAt(line.styles, c) + if |line.text| <= c < col then [DEFAULT_STYLE] else []
      {
        StylesAtExtend(line.styles, |line.text|, n, DEFAULT_STYLE, c);
      }
      var target := Cells(line) + Fill(n, (SPACE, [DEFAULT_STYLE]));
      forall c: nat | c < col ensures Cells(Padded(line, col))[c] == target[c] {
        assert |StylesAt(line.styles, c)| == if c < |line.text| then 1 else 0;
        assert c >= |line.text| ==> StylesAt(line.styles, c) + [DEFAULT_STYLE] == [DEFAULT_STYLE];
        assert StylesAt(line.styles, c) + [] == StylesAt(line.styles, c);
      }
    }
  }

  /** Writing pads with default-styled spaces up to the column and then sets that one cell. */
  lemma WriteEditsCells(line: Line, col: nat, ch: CodePoint, style: Style)
    requires Tidy(line)
    ensures Tidy(Write(line, col, ch, style))
    ensures var was := Cells(Padded(line, col));
            Cells(Write(line, col, ch, style)) ==
            if col == |was| then was + [(ch, [style])] else was[col := (ch, [style])]
  {
    PadEditsCells(line, col);
    var pad := Padded(line, col);
    var now := Write(line, col, ch, style);
    if col == |pad.text| {
      forall c: nat
        ensures StylesAt(now.styles, c) == StylesAt(pad.styles, c) + if c == col then [style] else []
      {
        StylesAtExtend(pad.styles, col, 1, style, c);
      }
      assert |StylesAt(pad.styles, col)| == 0;
      assert StylesAt(now.styles, col) == StylesAt(pad.styles, col) + [style] == [style];
      forall c: nat | c < col ensures Cells(now)[c] == Cells(pad)[c] {
        assert StylesAt(now.styles, c) == StylesAt(pad.styles, c) + [] == StylesAt(pad.styles, c);
      }
    } else {
      assert |StylesAt(pad.styles, col)| == 1;
      forall c: nat
        ensures StylesAt(now.styles, c) == if c == col then [style] else StylesAt(pad.styles, c)
      {
        StylesAtOverwrite(pad.styles, col, style, c);
      }
      forall c: nat | c < |pad.text| ensures Cells(now)[c] == Cells(pad)[col := (ch, [style])][c] {
        assert StylesAt(now.styles, c) == if c == col then [style] else StylesAt(pad.styles, c);
      }
    }
  }

  // ------------------------------------------------------ inserting a character

  /** No run that covers a column at or past `col` stands behind a run that straddles `col`. */
  predicate InsertSafe(runs: seq<StyleRun>, col: nat) {
    forall i, j | 0 <= i < j < |runs| && runs[i].Straddles(col) && runs[j].length > 0 :: runs[j].start < col
  }

  ghost predicate IsInsertion(line: Line, col: nat, ch: CodePoint, style: Style, now: Line)
    requires col <= |line.text|
  {
    Tidy(now) && Cells(now) == Cells(line)[..col] + [(ch, [style])] + Cells(line)[col..]
  }

  /** The column a shifted one was at, and how many runs cover it there. */
  lemma ColumnShifts(now: Line, line: Line, col: nat, style: Style, c: nat)
    requires Shifts(now.styles, line.styles, col, style) && c != col
    ensures StylesAt(now.styles, c) == StylesAt(line.styles, if c < col then c else c - 1)
  {
    assert StylesAt(now.styles, c) == ShiftedStyles(line.styles, col, style, c);
  }

  lemma ColumnInserted(now: Line, line: Line, col: nat, style: Style)
    requires Shifts(now.styles, line.styles, col, style)
    ensures StylesAt(now.styles, col) == [style]
  {
    assert StylesAt(now.styles, col) == ShiftedStyles(line.styles, col, style, col);
  }

  lemma ShiftedCells(line: Line, col: nat, ch: CodePoint, style: Style, now: Line)
    requires col <= |line.text| && now.text == line.text[..col] + [ch] + line.text[col..]
    requires Shifts(now.styles, line.styles, col, style)
    ensures Cells(now) == Cells(line)[..col] + [(ch, [style])] + Cells(line)[col..]
  {
    var target := Cells(line)[..col] + [(ch, [style])] + Cells(line)[col..];
    forall c | 0 <= c < |now.text| ensures Cells(now)[c] == target[c] {
      if c == col { ColumnInserted(now, line, col, style); } else { ColumnShifts(now, line, col, style, c); }
    }
  }

  lemma TidyBeforeShift(line: Line, col: nat, style: Style, now: Line)
    requires col <= |line.text| && |now.text| == |line.text| + 1 && Shifts(now.styles, line.styles, col, style) && Tidy(now)
    ensures Tidy(line)
  {
    forall c: nat ensures |StylesAt(line.styles, c)| == if c < |line.text| then 1 else 0 {
      ColumnShifts(now, line, col, style, if c < col then c else c + 1);
    }
  }

  lemma TidyAfterShift(line: Line, col: nat, style: Style, now: Line)
    requires col <= |line.text| && |now.text| == |line.text| + 1 && Shifts(now.styles, line.styles, col, style) && Tidy(line)
    ensures Tidy(now)
  {
    forall c: nat ensures |StylesAt(now.styles, c)| == if c < |now.text| then 1 else 0 {
      if c == col { ColumnInserted(now, line, col, style); } else { ColumnShifts(now, line, col, style, c); }
    }
  }

  /** Styles that shift by one column past `col` make an insertion of the cells. */
  lemma ShiftedStylesInsertCell(line: Line, col: nat, ch: CodePoint, style: Style, now: Line)
    requires col <= |line.text| && now.text == line.text[..col] + [ch] + line.text[col..]
    requires Shifts(now.styles, line.styles, col, style)
    ensures Cells(now) == Cells(line)[..col] + [(ch, [style])] + Cells(line)[col..]
    ensures Tidy(now) <==> Tidy(line)
  {
    ShiftedCells(line, col, ch, style, now);
    if Tidy(now) { TidyBeforeShift(line, col, style, now); }
    if Tidy(line) { TidyAfterShift(line, col, style, now); }
  }

  lemma {:induction false} CoveredBySome(runs: seq<StyleRun>, c: nat)
    ensures StylesAt(runs, c) == [] <==> forall r | r in runs :: !r.Covers(c)
    decreases |runs|
  {
    if runs != [] { CoveredBySome(runs[1..], c); }
  }

  /** If the line stays tidy, the runs behind the straddling one cover nothing past `col`. */
  lemma {:induction false} NothingAfterStraddle(line: Line, col: nat, ch: CodePoint, style: Style, c: nat)
    requires Tidy(line) && !NoStraddle(line.styles, col) && col < |line.text| && col <= c
    requires Tidy(Insert(line, col, ch, style))
    ensures StylesAt(Later(line.styles, col), c) == []
    decreases c
  {
    var runs := line.styles;
    var k := FirstStraddle(runs, col) + 1;
    StylesAtInsertInside(runs, col, style, c);
    StylesAtHalves(runs, k, c);
    assert |StylesAt(runs, c)| == if c < |line.text| then 1 else 0;
    if c == col {
      CoveredBySome(runs[..k], col);
      assert runs[..k][k - 1].Covers(col);
    } else {
      NothingAfterStraddle(line, col, ch, style, c - 1);
      StylesAtHalves(runs, k, c - 1);
      assert |StylesAt(runs, c - 1)| == if c - 1 < |line.text| then 1 else 0;
      assert |StylesAt(InsertRuns(runs, col, style), c)| == if c < |line.text| + 1 then 1 else 0;
    }
  }

  lemma OneStraddle(line: Line, col: nat)
    requires Tidy(line) && !NoStraddle(line.styles, col)
    ensures NoStraddle(Later(line.styles, col), col)
  {
    var runs := line.styles;
    var k := FirstStraddle(runs, col) + 1;
    StylesAtAppend(runs[..k], runs[k..], col);
    assert runs == runs[..k] + runs[k..];
    CoveredBySome(runs[..k], col);
    CoveredBySome(runs[k..], col);
    assert runs[..k][k - 1].Covers(col);
    assert |StylesAt(runs, col)| <= 1;
  }

  lemma SafeMeansNothingLater(runs: seq<StyleRun>, col: nat)
    requires !NoStraddle(runs, col) && NoStraddle(Later(runs, col), col)
    ensures InsertSafe(runs, col) <==> NothingFrom(Later(runs, col), col)
  {
    var k := FirstStraddle(runs, col) + 1;
    var post := runs[k..];
    if InsertSafe(runs, col) {
      forall c: nat | c >= col ensures StylesAt(post, c) == [] {
        forall q | q in post ensures !q.Covers(c) {
          var j :| 0 <= j < |post| && post[j] == q;
          assert runs[k - 1].Straddles(col) && runs[k + j] == q;
        }
        CoveredBySome(post, c);
      }
    } else {
      var i, j :| 0 <= i < j < |runs| && runs[i].Straddles(col) && runs[j].length > 0 && runs[j].start >= col;
      assert i == k - 1;
      assert runs[j] in post && runs[j].Covers(runs[j].start);
      CoveredBySome(post, runs[j].start);
    }
  }

  /** Insertion is an insertion of one cell exactly when it is safe; when it is not, the line is no
      longer tidy. */
  lemma InsertExactlyWhenSafe(line: Line, col: nat, ch: CodePoint, style: Style)
    requires Tidy(line) && col < |line.text|
    ensures InsertSafe(line.styles, col) ==> IsInsertion(line, col, ch, style, Insert(line, col, ch, style))
    ensures !InsertSafe(line.styles, col) ==> !Tidy(Insert(line, col, ch, style))
  {
    if NoStraddle(line.styles, col) {
      InsertAtBoundary(line, col, ch, style);
    } else {
      OneStraddle(line, col);
      SafeMeansNothingLater(line.styles, col);
      if InsertSafe(line.styles, col) {
        SafeInsertShifts(line, col, style);
        ShiftedStylesInsertCell(line, col, ch, style, Insert(line, col, ch, style));
      } else if Tidy(Insert(line, col, ch, style)) {
        var later := Later(line.styles, col);
        forall c: nat | c >= col ensures StylesAt(later, c) == [] {
          NothingAfterStraddle(line, col, ch, style, c);
        }
      }
    }
  }

  lemma SafeInsertShifts(line: Line, col: nat, style: Style)
    requires Tidy(line) && !NoStraddle(line.styles, col)
    requires NothingFrom(Later(line.styles, col), col)
    ensures Shifts(InsertRuns(line.styles, col, style), line.styles, col, style)
  {
    var runs := line.styles;
    var k := FirstStraddle(runs, col) + 1;
    forall c: nat ensures StylesAt(InsertRuns(runs, col, style), c) == ShiftedStyles(runs, col, style, c) {
      StylesAtInsertInside(runs, col, style, c);
      StylesAtHalves(runs, k, c);
      if c > col { StylesAtHalves(runs, k, c - 1); }
    }
  }

  /** At a run boundary insertion is faithful whatever the runs are. */
  lemma InsertAtBoundary(line: Line, col: nat, ch: CodePoint, style: Style)
    requires col < |line.text| && NoStraddle(line.styles, col)
    ensures var now := Insert(line, col, ch, style);
            && Cells(now) == Cells(line)[..col] + [(ch, [style])] + Cells(line)[col..]
            && (Tidy(now) <==> Tidy(line))
            && NoStraddle(now.styles, col)
  {
    forall c: nat
      ensures StylesAt(InsertRuns(line.styles, col, style), c) == ShiftedStyles(line.styles, col, style, c)
    {
      StylesAtInsertAtBoundary(line.styles, col, style, c);
    }
    ShiftedStylesInsertCell(line, col, ch, style, Insert(line, col, ch, style));
    BoundaryAfterInsert(line.styles, col, style);
  }

  lemma {:induction false} BoundaryAfterInsert(runs: seq<StyleRun>, col: nat, style: Style)
    requires NoStraddle(runs, col)
    ensures NoStraddle(InsertRuns(runs, col, style), col)
    decreases |runs|
  {
    if runs != [] {
      assert runs[0] in runs;
      BoundaryAfterInsert(runs[1..], col, style);
    }
  }

  /** Two adjacent runs: inserting inside the first leaves the second where it was. */
  lemma InsertCounterexample()
    ensures var red := DEFAULT_STYLE.(fg := 1);
            var line := Line([0x61, 0x62, 0x63], [StyleRun(0, 2, DEFAULT_STYLE), StyleRun(2, 1, red)]);
            Tidy(line) && !Tidy(Insert(line, 1, 0x78, DEFAULT_STYLE))
  {
    var red := DEFAULT_STYLE.(fg := 1);
    var line := Line([0x61, 0x62, 0x63], [StyleRun(0, 2, DEFAULT_STYLE), StyleRun(2, 1, red)]);
    forall c: nat ensures |StylesAt(line.styles, c)| == if c < 3 then 1 else 0 {
      assert line.styles[1..] == [StyleRun(2, 1, red)];
      assert StylesAt(line.styles[1..], c) == if c == 2 then [red] else [];
    }
    assert line.styles[0].Straddles(1) && line.styles[1].start >= 1;
    InsertExactlyWhenSafe(line, 1, 0x78, DEFAULT_STYLE);
  }

  // -------------------------------------------------- deleting up to a boundary

  lemma {:induction false} InsertManyText(line: Line, col: nat, n: nat, ch: CodePoint, style: Style)
    requires col < |line.text|
    ensures InsertMany(line, col, n, ch, style).text == line.text[..col] + Fill(n, ch) + line.text[col..]
    decreases n
  {
    if n > 0 {
      InsertManyText(line, col, n - 1, ch, style);
      assert [ch] + Fill(n - 1, ch) == Fill(n, ch);
    }
  }

  /** Everything at or past the boundary stays where it is, whatever the runs are. */
  lemma DeleteClampedText(line: Line, col: nat, count: nat, boundary: nat, padStyle: Style)
    requires col < boundary < |line.text|
    ensures var n := Min(count, boundary - col);
            DeleteClamped(line, col, count, boundary, padStyle).text == Refilled(line.text, col, n, boundary, SPACE)
  {
    var n := Min(count, boundary - col);
    if n > 0 {
      var cut := Delete(line, col, n);
      DeleteClampedReinserts(line, col, count, boundary, padStyle);
      InsertManyText(cut, boundary - n, n, SPACE, padStyle);
      RefilledAfterCut(line.text, cut.text, col, n, boundary, SPACE);
    } else {
      RefilledWithNothing(line.text, col, boundary, SPACE);
    }
  }

  lemma RefilledWithNothing<T>(was: seq<T>, col: nat, boundary: nat, x: T)
    requires col <= boundary <= |was|
    ensures Refilled(was, col, 0, boundary, x) == was
  {
    assert was == was[..col] + was[col..boundary] + was[boundary..];
  }

  lemma {:induction false} InsertManyAtBoundary(line: Line, col: nat, n: nat, ch: CodePoint, style: Style)
    requires col < |line.text| && NoStraddle(line.styles, col)
    ensures var now := InsertMany(line, col, n, ch, style);
            && Cells(now) == Cells(line)[..col] + Fill(n, (ch, [style])) + Cells(line)[col..]
            && (Tidy(now) <==> Tidy(line))
            && NoStraddle(now.styles, col)
    decreases n
  {
    if n > 0 {
      InsertManyAtBoundary(line, col, n - 1, ch, style);
      InsertAtBoundary(InsertMany(line, col, n - 1, ch, style), col, ch, style);
      assert [(ch, [style])] + Fill(n - 1, (ch, [style])) == Fill(n, (ch, [style]));
    }
  }

  lemma {:induction false} InsertManyFromInner(line: Line, col: nat, n: nat, ch: CodePoint, style: Style)
    requires n > 0
    ensures InsertMany(line, col, n, ch, style) == InsertMany(Insert(line, col, ch, style), col, n - 1, ch, style)
    decreases n
  {
    if n > 1 { InsertManyFromInner(line, col, n - 1, ch, style); }
  }

  /** After the first insertion a run boundary stands at the insertion point of a tidy line. */
  lemma BoundaryAfterFirstInsert(line: Line, col: nat, ch: CodePoint, style: Style)
    requires Tidy(line) && col < |line.text|
    ensures NoStraddle(Insert(line, col, ch, style).styles, col)
  {
    if NoStraddle(line.styles, col) {
      BoundaryAfterInsert(line.styles, col, style);
    } else {
      FirstInsertSplits(line.styles, col, style);
    }
  }

  lemma {:induction false} FirstInsertSplits(runs: seq<StyleRun>, col: nat, style: Style)
    requires 0 < col && |StylesAt(runs, col)| <= 1
    ensures NoStraddle(InsertRuns(runs, col, style), col)
    decreases |runs|
  {
    if runs != [] {
      if runs[0].Straddles(col) {
        CoveredBySome(runs[1..], col);
      } else {
        FirstInsertSplits(runs[1..], col, style);
      }
    }
  }

  /** `n` elements gone at `col`, the stretch up to `boundary` moved up and filled with `x`. */
  function Refilled<T>(was: seq<T>, col: nat, n: nat, boundary: nat, x: T): seq<T>
    requires col + n <= boundary <= |was|
  {
    was[..col] + was[col + n..boundary] + Fill(n, x) + was[boundary..]
  }

  lemma DeleteClampedReinserts(line: Line, col: nat, count: nat, boundary: nat, padStyle: Style)
    requires col < boundary < |line.text| && count > 0
    ensures var n := Min(count, boundary - col);
            DeleteClamped(line, col, count, boundary, padStyle) ==
            InsertMany(Delete(line, col, n), boundary - n, n, SPACE, padStyle)
  {}

  /** A run that reaches from before `from` past `boundary`. */
  predicate Crosses(r: StyleRun, from: nat, boundary: nat) {
    r.start < from && boundary < r.End()
  }

  /** No run behind one that crosses the boundary stands at or past it. When everything up to the boundary is
      erased, crossing it takes a start before what is erased. */
  predicate RefillSafe(runs: seq<StyleRun>, col: nat, n: nat, boundary: nat) {
    forall i, j | 0 <= i < j < |runs| && runs[j].length > 0 && runs[j].start >= boundary ::
      !Crosses(runs[i], if col + n == boundary then col else boundary, boundary)
  }

  /** The run stands at or past the boundary once the erased columns are gone. */
  predicate EndsUpPast(r: StyleRun, col: nat, n: nat, boundary: nat) {
    || (r.length > 0 && r.start >= boundary)
    || (col + n == boundary && col <= r.start < boundary < r.End())
  }

  /** What one run becomes, as far as safety looks at it. */
  lemma ShrunkRun(r: StyleRun, col: nat, n: nat, boundary: nat)
    requires col + n <= boundary && n > 0
    ensures var was, b := ShrinkRun(r, col, n), boundary - n;
            && |was| <= 1
            && ((exists q :: q in was && q.Straddles(b)) <==> Crosses(r, if col + n == boundary then col else boundary, boundary))
            && ((exists q :: q in was && q.length > 0 && q.start >= b) <==> EndsUpPast(r, col, n, boundary))
  {
    var was := ShrinkRun(r, col, n);
    if was != [] { assert was[0] in was; }
  }

  predicate Any(runs: seq<StyleRun>, b: StyleRun -> bool) {
    runs != [] && (b(runs[0]) || Any(runs[1..], b))
  }

  /** Some run is of the first kind and a later one of the second. */
  predicate Clash(runs: seq<StyleRun>, a: StyleRun -> bool, b: StyleRun -> bool) {
    runs != [] && ((a(runs[0]) && Any(runs[1..], b)) || Clash(runs[1..], a, b))
  }

  lemma {:induction false} AnyExactly(runs: seq<StyleRun>, b: StyleRun -> bool)
    ensures Any(runs, b) <==> exists j :: 0 <= j < |runs| && b(runs[j])
    decreases |runs|
  {
    if runs == [] { return; }
    AnyExactly(runs[1..], b);
    if j :| 0 <= j < |runs| && b(runs[j]) {
      if j > 0 { assert runs[1..][j - 1] == runs[j]; }
    }
    if j :| 0 <= j < |runs[1..]| && b(runs[1..][j]) { assert runs[j + 1] == runs[1..][j]; }
  }

  lemma {:induction false} ClashExactly(runs: seq<StyleRun>, a: StyleRun -> bool, b: StyleRun -> bool)
    ensures Clash(runs, a, b) <==> exists i, j :: 0 <= i < j < |runs| && a(runs[i]) && b(runs[j])
    decreases |runs|
  {
    if runs == [] { return; }
    var tail := runs[1..];
    ClashExactly(tail, a, b);
    AnyExactly(tail, b);
    if i, j :| 0 <= i < j < |runs| && a(runs[i]) && b(runs[j]) {
      assert tail[j - 1] == runs[j];
      if i > 0 { assert tail[i - 1] == runs[i]; }
    }
    if i, j :| 0 <= i < j < |tail| && a(tail[i]) && b(tail[j]) { assert runs[i + 1] == tail[i] && runs[j + 1] == tail[j]; }
    if j :| 0 <= j < |tail| && b(tail[j]) { assert runs[j + 1] == tail[j]; }
  }

  function Straddling(b: nat): StyleRun -> bool { (r: StyleRun) => r.Straddles(b) }
  function Past(b: nat): StyleRun -> bool { (r: StyleRun) => r.length > 0 && r.start >= b }
  function Crossing(from: nat, boundary: nat): StyleRun -> bool { (r: StyleRun) => Crosses(r, from, boundary) }
  function Ending(col: nat, n: nat, boundary: nat): StyleRun -> bool { (r: StyleRun) => EndsUpPast(r, col, n, boundary) }

  lemma {:induction false} ShrunkClash(runs: seq<StyleRun>, col: nat, n: nat, boundary: nat)
    requires col + n <= boundary && n > 0
    ensures var from, b := if col + n == boundary then col else boundary, boundary - n;
            && (Any(ShrinkRuns(runs, col, n), Past(b)) <==> Any(runs, Ending(col, n, boundary)))
            && (Clash(ShrinkRuns(runs, col, n), Straddling(b), Past(b)) <==>
                Clash(runs, Crossing(from, boundary), Ending(col, n, boundary)))
    decreases |runs|
  {
    if runs == [] { return; }
    ShrunkRun(runs[0], col, n, boundary);
    ShrunkClash(runs[1..], col, n, boundary);
    var head := ShrinkRun(runs[0], col, n);
    if head == [] {
      assert head + ShrinkRuns(runs[1..], col, n) == ShrinkRuns(runs[1..], col, n);
    } else {
      assert head[0] in head && (head + ShrinkRuns(runs[1..], col, n))[1..] == ShrinkRuns(runs[1..], col, n);
    }
  }

  predicate ShrunkSafe(runs: seq<StyleRun>, col: nat, n: nat, boundary: nat) {
    forall i, j | 0 <= i < j < |runs| && EndsUpPast(runs[j], col, n, boundary) ::
      !Crosses(runs[i], if col + n == boundary then col else boundary, boundary)
  }

  lemma SafeIsNoClash(runs: seq<StyleRun>, b: nat)
    ensures InsertSafe(runs, b) <==> !Clash(runs, Straddling(b), Past(b))
  {
    ClashExactly(runs, Straddling(b), Past(b));
    var a, p := Straddling(b), Past(b);
    assert forall i, j | 0 <= i < j < |runs| :: a(runs[i]) && p(runs[j]) <==> runs[i].Straddles(b) && runs[j].length > 0 && runs[j].start >= b;
  }

  lemma ShrunkSafeIsNoClash(runs: seq<StyleRun>, col: nat, n: nat, boundary: nat)
    ensures ShrunkSafe(runs, col, n, boundary) <==>
              !Clash(runs, Crossing(if col + n == boundary then col else boundary, boundary), Ending(col, n, boundary))
  {
    var from := if col + n == boundary then col else boundary;
    var a, e := Crossing(from, boundary), Ending(col, n, boundary);
    ClashExactly(runs, a, e);
    assert forall i, j | 0 <= i < j < |runs| :: a(runs[i]) && e(runs[j]) <==> Crosses(runs[i], from, boundary) && EndsUpPast(runs[j], col, n, boundary);
  }

  lemma ShrunkSafeExactly(runs: seq<StyleRun>, col: nat, n: nat, boundary: nat)
    requires col + n <= boundary && n > 0
    ensures InsertSafe(ShrinkRuns(runs, col, n), boundary - n) <==> ShrunkSafe(runs, col, n, boundary)
  {
    ShrunkClash(runs, col, n, boundary);
    SafeIsNoClash(ShrinkRuns(runs, col, n), boundary - n);
    ShrunkSafeIsNoClash(runs, col, n, boundary);
  }

  /** On a tidy line no two runs cover the boundary. */
  lemma OneCovers(line: Line, c: nat, i: nat, j: nat)
    requires Tidy(line) && i < j < |line.styles| && line.styles[i].Covers(c)
    ensures !line.styles[j].Covers(c)
  {
    var runs := line.styles;
    assert runs == runs[..j] + runs[j..];
    StylesAtAppend(runs[..j], runs[j..], c);
    assert runs[..j][i].Covers(c) && runs[j..][0] == runs[j];
    CoveredBySome(runs[..j], c);
    CoveredBySome(runs[j..], c);
    assert |StylesAt(runs, c)| <= 1;
  }

  lemma RefillSafeExactly(line: Line, col: nat, n: nat, boundary: nat)
    requires Tidy(line) && col + n <= boundary < |line.text| && n > 0
    ensures InsertSafe(Delete(line, col, n).styles, boundary - n) <==> RefillSafe(line.styles, col, n, boundary)
  {
    var runs := line.styles;
    var from := if col + n == boundary then col else boundary;
    ShrunkSafeExactly(runs, col, n, boundary);
    if RefillSafe(runs, col, n, boundary) {
      forall i, j | 0 <= i < j < |runs| && EndsUpPast(runs[j], col, n, boundary) ensures !Crosses(runs[i], from, boundary) {
        if Crosses(runs[i], from, boundary) { OneCovers(line, boundary, i, j); }
      }
    }
  }

  /** The whole of `DeleteAtClamped` on a tidy line: its cells are the deleted, refilled and untouched ones
      exactly when no run behind one that crosses the boundary stands at or past it. */
  lemma DeleteClampedExactlyWhenSafe(line: Line, col: nat, count: nat, boundary: nat, padStyle: Style)
    requires Tidy(line) && col < boundary < |line.text| && count > 0
    ensures var n := Min(count, boundary - col);
            var now := DeleteClamped(line, col, count, boundary, padStyle);
            if RefillSafe(line.styles, col, n, boundary) then
              Tidy(now) && Cells(now) == Refilled(Cells(line), col, n, boundary, (SPACE, [padStyle]))
            else !Tidy(now)
  {
    var n := Min(count, boundary - col);
    DeleteEditsCells(line, col, n);
    DeleteClampedReinserts(line, col, count, boundary, padStyle);
    RefillSafeExactly(line, col, n, boundary);
    RefillCells(line, Delete(line, col, n), col, n, boundary, padStyle);
  }

  lemma RefillCells(line: Line, cut: Line, col: nat, n: nat, boundary: nat, padStyle: Style)
    requires Tidy(cut) && col + n <= boundary < |line.text| && n > 0
    requires Cells(cut) == Cells(line)[..col] + Cells(line)[col + n..]
    ensures var now := InsertMany(cut, boundary - n, n, SPACE, padStyle);
            if InsertSafe(cut.styles, boundary - n) then
              Tidy(now) && Cells(now) == Refilled(Cells(line), col, n, boundary, (SPACE, [padStyle]))
            else !Tidy(now)
  {
    assert |Cells(cut)| == |line.text| - n;
    InsertManyExactlyWhenSafe(cut, boundary - n, n, SPACE, padStyle);
    RefilledAfterCut(Cells(line), Cells(cut), col, n, boundary, (SPACE, [padStyle]));
  }

  lemma RefilledAfterCut<T>(was: seq<T>, cut: seq<T>, col: nat, n: nat, boundary: nat, x: T)
    requires col + n <= boundary <= |was| && cut == was[..col] + was[col + n..]
    ensures cut[..boundary - n] + Fill(n, x) + cut[boundary - n..] == Refilled(was, col, n, boundary, x)
  {
    assert cut[..boundary - n] == was[..col] + was[col + n..boundary];
    assert cut[boundary - n..] == was[boundary..];
  }

  lemma InsertManyExactlyWhenSafe(line: Line, col: nat, n: nat, ch: CodePoint, style: Style)
    requires Tidy(line) && col < |line.text| && n > 0
    ensures var now := InsertMany(line, col, n, ch, style);
            if InsertSafe(line.styles, col) then
              Tidy(now) && Cells(now) == Cells(line)[..col] + Fill(n, (ch, [style])) + Cells(line)[col..]
            else !Tidy(now)
  {
    var one := Insert(line, col, ch, style);
    var cell := (ch, [style]);
    InsertExactlyWhenSafe(line, col, ch, style);
    BoundaryAfterFirstInsert(line, col, ch, style);
    InsertManyFromInner(line, col, n, ch, style);
    InsertManyAtBoundary(one, col, n - 1, ch, style);
    if InsertSafe(line.styles, col) {
      assert Cells(one) == Cells(line)[..col] + [cell] + Cells(line)[col..];
      InsertedThenFilled(Cells(line), col, n, cell);
      return;
    }
  }

  lemma InsertedThenFilled<T>(was: seq<T>, col: nat, n: nat, x: T)
    requires col <= |was| && n > 0
    ensures var one := was[..col] + [x] + was[col..];
            one[..col] + Fill(n - 1, x) + one[col..] == was[..col] + Fill(n, x) + was[col..]
  {
    var one := was[..col] + [x] + was[col..];
    assert one[..col] == was[..col];
    assert one[col..] == [x] + was[col..];
    assert Fill(n - 1, x) + [x] == Fill(n, x);
  }
}
