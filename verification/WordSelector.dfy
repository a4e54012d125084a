/** Transcoding a line to UTF-8 with a column map, and back (src/layout/WordSelector.cpp:13-80). */
module WordSelector {
  import opened Style
  import opened Parser

  /** One code point as section 3 of RFC 3629 lays it out; the lead byte keeps eight bits. */
  function Encode(cp: CodePoint): (bytes: seq<Byte>)
    ensures 1 <= |bytes| <= 4
  {
    if cp < 0x80 then [cp]
    else if cp < 0x800 then [0xC0 + cp / 0x40, 0x80 + cp % 0x40]
    else if cp < 0x1_0000 then [0xE0 + cp / 0x1000, 0x80 + cp / 0x40 % 0x40, 0x80 + cp % 0x40]
    else [0xF0 + cp / 0x4_0000 % 0x10, 0x80 + cp / 0x1000 % 0x40, 0x80 + cp / 0x40 % 0x40, 0x80 + cp % 0x40]
  }

  function Bytes(line: seq<CodePoint>): seq<Byte> {
    if line == [] then []
    else
      var last := line[|line| - 1];
      Bytes(line[..|line| - 1]) + if last == WIDE_FILLER then [] else Encode(last)
  }

  /** The byte offset of every column; a filler shares the offset of the column before it. */
  function Offsets(line: seq<CodePoint>): (r: seq<nat>)
    ensures |r| == |line|
  {
    if line == [] then []
    else
      var front := Offsets(line[..|line| - 1]);
      if line[|line| - 1] != WIDE_FILLER then front + [|Bytes(line[..|line| - 1])|]
      else front + [if front == [] then 0 else front[|front| - 1]]
  }

  function ColumnMap(line: seq<CodePoint>): seq<nat> {
    Offsets(line) + [|Bytes(line)|]
  }

  /** The encoding branch of the loop below. */
  method AppendUtf8(utf8: seq<Byte>, cp: CodePoint) returns (r: seq<Byte>)
    ensures r == utf8 + Encode(cp)
  {
    r := utf8;
    if cp < 0x80 {
      r := r + [cp];
    } else if cp < 0x800 {
      r := r + [0xC0 + cp / 0x40];
      r := r + [0x80 + cp % 0x40];
    } else if cp < 0x1_0000 {
      r := r + [0xE0 + cp / 0x1000];
      r := r + [0x80 + cp / 0x40 % 0x40];
      r := r + [0x80 + cp % 0x40];
    } else {
      r := r + [0xF0 + cp / 0x4_0000 % 0x10];
      r := r + [0x80 + cp / 0x1000 % 0x40];
      r := r + [0x80 + cp / 0x40 % 0x40];
      r := r + [0x80 + cp % 0x40];
    }
  }

  method BuildUtf8WithMap(line: seq<CodePoint>) returns (utf8: seq<Byte>, colToByteOffset: seq<nat>)
    ensures utf8 == Bytes(line) && colToByteOffset == ColumnMap(line)
  {
    utf8, colToByteOffset := [], [];
    for col := 0 to |line|
      invariant utf8 == Bytes(line[..col]) && colToByteOffset == Offsets(line[..col])
    {
      var cp := line[col];
      assert line[..col + 1][..col] == line[..col];
      if cp == WIDE_FILLER {
        var prev := if colToByteOffset == [] then 0 else colToByteOffset[|colToByteOffset| - 1];
        colToByteOffset := colToByteOffset + [prev];
        continue;
      }
      colToByteOffset := colToByteOffset + [|utf8|];
      utf8 := AppendUtf8(utf8, cp);
    }
    assert line[..|line|] == line;
    colToByteOffset := colToByteOffset + [|utf8|];
  }

  predicate Sorted(offsets: seq<nat>) {
    forall i, j | 0 <= i <= j < |offsets| :: offsets[i] <= offsets[j]
  }

  /** The last column that starts at or before the byte. */
  predicate LastColumnAt(offsets: seq<nat>, byteOffset: int, col: nat) {
    && col < |offsets|
    && (col > 0 ==> offsets[col] <= byteOffset)
    && (forall c | col < c < |offsets| :: offsets[c] > byteOffset)
  }

  method ByteOffsetToCol(colToByteOffset: seq<nat>, byteOffset: int) returns (col: nat)
    requires colToByteOffset != [] && Sorted(colToByteOffset)
    ensures LastColumnAt(colToByteOffset, byteOffset, col)
  {
    var lo, hi := 0, |colToByteOffset| - 1;
    while lo < hi
      invariant 0 <= lo <= hi < |colToByteOffset|
      invariant lo > 0 ==> colToByteOffset[lo] <= byteOffset
      invariant forall c | hi < c < |colToByteOffset| :: colToByteOffset[c] > byteOffset
    {
      var mid := lo + (hi - lo + 1) / 2;
      if colToByteOffset[mid] <= byteOffset {
        lo := mid;
      } else {
        hi := mid - 1;
      }
    }
    col := lo;
  }

  // ------------------------------------------------------- the column map

  lemma {:induction false} ColumnMapOfPrefix(line: seq<CodePoint>, n: nat)
    requires n <= |line|
    ensures Offsets(line)[..n] == Offsets(line[..n])
    ensures |Bytes(line[..n])| <= |Bytes(line)|
    decreases |line|
  {
    if n < |line| {
      var front := line[..|line| - 1];
      ColumnMapOfPrefix(front, n);
      assert front[..n] == line[..n];
    } else {
      assert line[..n] == line;
    }
  }

  lemma {:induction false} OffsetWithinBytes(line: seq<CodePoint>)
    ensures line != [] && line[0] != WIDE_FILLER ==> Offsets(line)[|line| - 1] < |Bytes(line)|
    decreases |line|
  {
    if line != [] && line[0] != WIDE_FILLER && line[|line| - 1] == WIDE_FILLER {
      OffsetWithinBytes(line[..|line| - 1]);
    }
  }

  /** On a line that does not begin with a filler the map grows at every column but a filler's. */
  lemma ColumnMapSteps(line: seq<CodePoint>, c: nat)
    requires c < |line| && line[0] != WIDE_FILLER
    ensures ColumnMap(line)[c] <= ColumnMap(line)[c + 1]
    ensures ColumnMap(line)[c] == ColumnMap(line)[c + 1] <==> c + 1 < |line| && line[c + 1] == WIDE_FILLER
  {
    var upto := line[..c + 1];
    OffsetWithinBytes(upto);
    ColumnMapOfPrefix(line, c + 1);
    assert Offsets(line)[c] == Offsets(line)[..c + 1][c] == Offsets(upto)[c];
    if c + 1 < |line| {
      var next := line[..c + 2];
      ColumnMapOfPrefix(line, c + 2);
      assert Offsets(line)[c + 1] == Offsets(line)[..c + 2][c + 1] == Offsets(next)[c + 1];
      assert next[..c + 1] == upto;
    } else {
      assert upto == line;
    }
  }

  lemma {:induction false} ColumnMapIsSorted(line: seq<CodePoint>, i: nat, j: nat)
    requires i <= j <= |line| && (line != [] ==> line[0] != WIDE_FILLER)
    ensures ColumnMap(line)[i] <= ColumnMap(line)[j]
    decreases j - i
  {
    if i < j {
      ColumnMapIsSorted(line, i, j - 1);
      ColumnMapSteps(line, j - 1);
    }
  }

  /** Looking a column's own offset up gives that column back exactly when no filler follows it. */
  lemma OffsetToColInvertsMap(line: seq<CodePoint>, c: nat, col: nat)
    requires c <= |line| && (line != [] ==> line[0] != WIDE_FILLER)
    requires LastColumnAt(ColumnMap(line), ColumnMap(line)[c], col)
    ensures col == c <==> !(c + 1 < |line| && line[c + 1] == WIDE_FILLER)
  {
    assert col >= c;
    if c < |line| { ColumnMapSteps(line, c); }
    if col > c { ColumnMapIsSorted(line, c + 1, col); }
  }

  // ------------------------------------------------------ UTF-8 round trip

  /** A code point the encoder can express and the parser does not act on. */
  predicate Printable(cp: CodePoint) {
    cp < 0x20_0000 && cp != ESC && cp != BEL && cp != BS && cp != DEL && cp != LF && cp != CR
  }

  lemma ThreeSextets(x: nat)
    ensures x / 0x1000 == x / 0x40 / 0x40 && x / 0x4_0000 == x / 0x40 / 0x40 / 0x40
  {}

  lemma FirstByte(k: Control, b: Byte, rest: seq<Byte>)
    ensures ControlAfter(k, [b] + rest) == ControlAfter(Advance(k, b).0, rest)
    ensures CallsFor(k, [b] + rest) == Advance(k, b).1 + CallsFor(Advance(k, b).0, rest)
  {
    assert ([b] + rest)[1..] == rest;
  }

  type Sextet = g: int | 0 <= g < 0x40

  function Continuations(groups: seq<Sextet>): seq<Byte> {
    if groups == [] then [] else [(0x80 + groups[0] as int) as Byte] + Continuations(groups[1..])
  }

  /** The number a code point's high bits and its remaining six-bit groups stand for. */
  function Spells(high: nat, groups: seq<Sextet>): (n: nat)
    ensures high <= n
    decreases |groups|
  {
    if groups == [] then high else Spells(high * 0x40 + groups[0], groups[1..])
  }

  /** Continuation bytes complete the code point they spell, and it is delivered. */
  lemma {:induction false} ContinuationBytes(k: Control, groups: seq<Sextet>, cp: CodePoint)
    requires k.mode == Normal && k.remaining == |groups| > 0
    requires Spells(k.codepoint, groups) == cp
    ensures ControlAfter(k, Continuations(groups)).mode == Normal
    ensures CallsFor(k, Continuations(groups)) == Deliver([cp])
    decreases |groups|
  {
    var b: Byte := 0x80 + groups[0] as int;
    FirstByte(k, b, Continuations(groups[1..]));
    if |groups| > 1 { ContinuationBytes(Advance(k, b).0, groups[1..], cp); }
  }

  lemma SpellOne(high: nat, a: Sextet)
    ensures Spells(high, [a]) == high * 0x40 + a && Continuations([a]) == [0x80 + a]
  {
    assert [a][1..] == [];
  }

  lemma SpellTwo(high: nat, a: Sextet, b: Sextet)
    ensures Spells(high, [a, b]) == (high * 0x40 + a) * 0x40 + b && Continuations([a, b]) == [0x80 + a, 0x80 + b]
  {
    assert [a, b][1..] == [b];
    SpellOne(high * 0x40 + a, b);
  }

  lemma SpellThree(high: nat, a: Sextet, b: Sextet, c: Sextet)
    ensures Spells(high, [a, b, c]) == ((high * 0x40 + a) * 0x40 + b) * 0x40 + c
    ensures Continuations([a, b, c]) == [0x80 + a, 0x80 + b, 0x80 + c]
  {
    assert [a, b, c][1..] == [b, c];
    SpellTwo(high * 0x40 + a, b, c);
  }

  /** A lead byte carrying the bits `high` and announcing `n` continuation bytes. */
  predicate IsLead(lead: Byte, high: nat, n: nat) {
    || (n == 1 && lead == 0xC0 + high && high < 0x20)
    || (n == 2 && lead == 0xE0 + high && high < 0x10)
    || (n == 3 && lead == 0xF0 + high && high < 0x08)
  }

  /** The bits of the lead byte, the groups behind it, and what they spell. */
  lemma EncodeInGroups(cp: CodePoint) returns (lead: Byte, high: nat, groups: seq<Sextet>)
    requires 0x80 <= cp < 0x20_0000
    ensures Encode(cp) == [lead] + Continuations(groups) && Spells(high, groups) == cp
    ensures IsLead(lead, high, |groups|)
  {
    ThreeSextets(cp);
    if cp < 0x800 {
      high, groups := cp / 0x40, [cp % 0x40];
      SpellOne(high, groups[0]);
    } else if cp < 0x1_0000 {
      high, groups := cp / 0x1000, [cp / 0x40 % 0x40, cp % 0x40];
      SpellTwo(high, groups[0], groups[1]);
    } else {
      high, groups := cp / 0x4_0000, [cp / 0x1000 % 0x40, cp / 0x40 % 0x40, cp % 0x40];
      SpellThree(high, groups[0], groups[1], groups[2]);
    }
    lead := Encode(cp)[0];
  }

  /** Parsing the bytes of one code point delivers it, whatever a previous sequence left behind. */
  lemma EncodedIsDelivered(k: Control, cp: CodePoint)
    requires k.mode == Normal && Printable(cp)
    ensures ControlAfter(k, Encode(cp)).mode == Normal
    ensures CallsFor(k, Encode(cp)) == Deliver([cp])
  {
    if cp < 0x80 {
      FirstByte(k, cp, []);
      assert Encode(cp) == [cp as Byte] + [];
    } else {
      var lead, high, groups := EncodeInGroups(cp);
      FirstByte(k, lead, Continuations(groups));
      LeadByte(k, lead, high, |groups|);
      ContinuationBytes(Advance(k, lead).0, groups, cp);
    }
  }

  lemma LeadByte(k: Control, lead: Byte, high: nat, n: nat)
    requires k.mode == Normal
    requires IsLead(lead, high, n)
    ensures Advance(k, lead) == (k.(codepoint := high, remaining := n), [])
  {}

  function WithoutFiller(line: seq<CodePoint>): seq<CodePoint> {
    if line == [] then []
    else
      var last := line[|line| - 1];
      WithoutFiller(line[..|line| - 1]) + if last == WIDE_FILLER then [] else [last]
  }

  /** Parsing what the encoder wrote delivers the line, fillers dropped, in order. */
  lemma {:induction false} RoundTrip(k: Control, line: seq<CodePoint>)
    requires k.mode == Normal && forall cp | cp in line :: Printable(cp)
    ensures ControlAfter(k, Bytes(line)).mode == Normal
    ensures CallsFor(k, Bytes(line)) == Deliver(WithoutFiller(line))
    decreases |line|
  {
    if line != [] {
      var front, last := line[..|line| - 1], line[|line| - 1];
      RoundTrip(k, front);
      if last == WIDE_FILLER {
        assert Bytes(front) + [] == Bytes(front);
        assert WithoutFiller(front) + [] == WithoutFiller(front);
      } else {
        CallsForAppends(k, Bytes(front), Encode(last));
        EncodedIsDelivered(ControlAfter(k, Bytes(front)), last);
        DeliverAppends(WithoutFiller(front), [last]);
      }
    }
  }

  /** The whole parser, batching included: one chunk of encoded text appends exactly that text. */
  lemma ProcessingEncodedText(m: Machine, line: seq<CodePoint>)
    requires m.control.mode == Normal && forall cp | cp in line :: Printable(cp)
    ensures Flat(Processed(m, Bytes(line)).calls) == Sent(m) + Deliver(WithoutFiller(line))
  {
    ProcessSends(m, Bytes(line));
    RoundTrip(m.control, line);
  }
}
