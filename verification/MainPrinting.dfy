/** Where printed text goes on the main screen, whose lines are as long as they have to be
    (src/document/Document.cpp:302-348). */
module MainPrinting {
  import opened Style
  import opened Lines
  import opened CellEdits
  import opened ShownCells
  import opened MainScreen

  /** A wide character takes its own cell and a filler. */
  function CellsOf(run: seq<CodePoint>, width: CodePoint -> nat): seq<CodePoint> {
    if run == [] then []
    else (if width(run[0]) == 2 then [run[0], WIDE_FILLER] else [run[0]]) + CellsOf(run[1..], width)
  }

  /** What is shown in the cursor's line once the cells are in it: over what was there, or between. */
  function PrintedCell(d: Doc, cells: seq<CodePoint>, c: nat): Cell {
    var line, at := d.lines[d.cursor.line], d.cursor.col;
    if at <= c < at + |cells| then (cells[c - at], [d.style])
    else CellAt(line, if d.insertMode && c >= at then c - |cells| else c)
  }

  /** The cells are in the cursor's line, the cursor is behind them, and no other line has changed. */
  ghost predicate Printed(d: Doc, cells: seq<CodePoint>, t: Doc) {
    var at := d.cursor;
    && t == d.(lines := t.lines, cursor := CursorPos(at.line, at.col + |cells|), newLineWasPhantom := t.newLineWasPhantom,
                      newLineCRPhantom := t.newLineCRPhantom)
    && t.lines == d.lines[at.line := t.lines[at.line]] && Tidy(t.lines[at.line])
    && (d.insertMode ==> MayInsert(t.lines[at.line], at.col + |cells|))
    && forall c: nat :: CellAt(t.lines[at.line], c) == PrintedCell(d, cells, c)
  }

  lemma {:induction false} InsertedRunIsThere(runs: seq<StyleRun>, col: nat, style: Style)
    ensures StyleRun(col, 1, style) in InsertRuns(runs, col, style)
    decreases |runs|
  {
    if runs != [] {
      if runs[0].Straddles(col) { assert SplitRun(runs[0], col, style)[1] == StyleRun(col, 1, style); }
      else { InsertedRunIsThere(runs[1..], col, style); }
    }
  }

  /** Behind an inserted cell there is a run boundary. */
  lemma MayInsertBehind(line: Line, col: nat, ch: CodePoint, style: Style)
    requires Tidy(line) && MayInsert(line, col)
    ensures MayInsert(Insert(line, col, ch, style), col + 1)
  {
    var now := Insert(line, col, ch, style);
    if col < |line.text| {
      InsertExactlyWhenSafe(line, col, ch, style);
      InsertedRunIsThere(line.styles, col, style);
      var k :| 0 <= k < |now.styles| && now.styles[k] == StyleRun(col, 1, style);
      forall i | 0 <= i < |now.styles| ensures !now.styles[i].Straddles(col + 1) {
        if i < k { OneCoversEither(now, col, i, k); } else if k < i { OneCoversEither(now, col, k, i); }
      }
    }
  }

  lemma OneCoversEither(line: Line, c: nat, i: nat, j: nat)
    requires Tidy(line) && i < j < |line.styles|
    ensures !line.styles[i].Covers(c) || !line.styles[j].Covers(c)
  {
    if line.styles[i].Covers(c) { OneCovers(line, c, i, j); }
  }

  lemma PutShows(line: Line, col: nat, ch: CodePoint, style: Style, insertMode: bool)
    requires Tidy(line) && (insertMode ==> MayInsert(line, col))
    ensures var now := Put(line, col, ch, style, insertMode);
            && Tidy(now) && (insertMode ==> MayInsert(now, col + 1))
            && forall c: nat :: CellAt(now, c) ==
                 if c == col then (ch, [style]) else CellAt(line, if insertMode && c > col then c - 1 else c)
  {
    if insertMode {
      MayInsertBehind(line, col, ch, style);
      InsertManyShows(line, col, 1, ch, style);
      assert InsertMany(line, col, 1, ch, style) == Insert(InsertMany(line, col, 0, ch, style), col, ch, style);
      var now := Insert(line, col, ch, style);
      forall c: nat ensures CellAt(now, c) == if c == col then (ch, [style]) else CellAt(line, if c > col then c - 1 else c) {
        assert CellAt(now, c) == ShownAfter(line, col, 1, (ch, [style]), c);
      }
    } else {
      WriteShows(line, col, ch, style);
    }
  }

  /** The cells of one character, put down one after the other. */
  function OnePut(d: Doc, cell: CodePoint): Doc {
    var at := d.cursor;
    d.(lines := d.lines[at.line := Put(d.lines[at.line], at.col, cell, d.style, d.insertMode)],
       cursor := CursorPos(at.line, at.col + 1), newLineWasPhantom := false, newLineCRPhantom := false)
  }

  lemma OneMorePrinted(d: Doc, cells: seq<CodePoint>, t: Doc, cell: CodePoint)
    requires Printed(d, cells, t)
    ensures Printed(d, cells + [cell], OnePut(t, cell))
  {
    var at, line := t.cursor, t.lines[t.cursor.line];
    PutShows(line, at.col, cell, d.style, d.insertMode);
    var now := OnePut(t, cell).lines[at.line];
    forall c: nat ensures CellAt(now, c) == PrintedCell(d, cells + [cell], c) {
      if c != at.col {
        var from := if d.insertMode && c > at.col then c - 1 else c;
        assert CellAt(now, c) == CellAt(line, from) == PrintedCell(d, cells, from);
      }
    }
  }

  lemma {:induction false} MorePrinted(d: Doc, cells: seq<CodePoint>, t: Doc, run: seq<CodePoint>, width: CodePoint -> nat)
    requires Printed(d, cells, t) && forall ch | ch in run :: width(ch) == 1 || width(ch) == 2
    ensures Printed(d, cells + CellsOf(run, width), AppendChars(t, run, width))
    decreases |run|
  {
    if run == [] {
      assert cells + [] == cells;
      return;
    }
    var ch := run[0];
    OneMorePrinted(d, cells, t, ch);
    var next := if width(ch) == 2 then [ch, WIDE_FILLER] else [ch];
    if width(ch) == 2 {
      OneMorePrinted(d, cells + [ch], OnePut(t, ch), WIDE_FILLER);
      assert cells + [ch] + [WIDE_FILLER] == cells + next;
      assert OnePut(OnePut(t, ch), WIDE_FILLER) == AppendChar(t, ch, width);
    }
    assert cells + next + CellsOf(run[1..], width) == cells + CellsOf(run, width);
    MorePrinted(d, cells + next, AppendChar(t, ch, width), run[1..], width);
  }

  /** A run goes into the cursor's line from the cursor on, over what was there or, in insert mode, in front of it;
      each wide character with a filler behind it. */
  lemma RunIsPrinted(d: Doc, run: seq<CodePoint>, width: CodePoint -> nat)
    requires Tidy(d.lines[d.cursor.line]) && (d.insertMode ==> MayInsert(d.lines[d.cursor.line], d.cursor.col))
    requires forall ch | ch in run :: width(ch) == 1 || width(ch) == 2
    ensures Printed(d, CellsOf(run, width), AppendChars(d, run, width))
  {
    assert Printed(d, [], d);
    MorePrinted(d, [], d, run, width);
    assert [] + CellsOf(run, width) == CellsOf(run, width);
  }
}
