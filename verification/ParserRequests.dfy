/** What a program writes to ask for each call (src/parser/Parser.cpp:37-400), in the notation of ECMA-48 and of the
    terminals that extend it: the writing side, and what the parser makes of it. */
module ParserRequests {
  import opened Style
  import opened Parser

  // ------------------------------------------------------------------ how it is written

  function Ascii(c: char): Byte
    requires c < 128 as char
  {
    c as int
  }

  function Digits(n: nat): seq<Byte> {
    if n < 10 then [0x30 + n] else Digits(n / 10) + [0x30 + n % 10]
  }

  /** Parameters in decimal, those left out empty, with semicolons between them. */
  function Text(ps: seq<Option<nat>>): seq<Byte> {
    if ps == [] then []
    else (if ps[0].Some? then Digits(ps[0].value) else []) + (if |ps| == 1 then [] else [SEMICOLON] + Text(ps[1..]))
  }

  /** A control byte or a printable one, an escape, a control sequence, a single shift, a character set to be used, an
      operating system command ended in either way. */
  datatype Way =
    | Single(byte: Byte)
    | Esc(final: char)
    | Sequence(ps: seq<Option<nat>>, final: char)
    | Private(ps: seq<Option<nat>>, final: char)
    | Shift(final: char)
    | Charset(final: char, set_: Byte)
    | System(code: nat, payload: seq<Byte>, st: bool)

  predicate WellFormed(way: Way) {
    match way
    case Single(byte) => byte < 0x80 && byte != ESC
    case Esc(final) => final < 128 as char && final !in {'[', ']', 'O', '(', ')', 'c', 0x1B as char}
    case Sequence(_, final) => 0x40 as char <= final <= 0x7E as char && final != 'm'
    case Private(_, final) => 0x40 as char <= final <= 0x7E as char
    case Shift(final) => final < 128 as char
    case Charset(final, _) => final == '(' || final == ')'
    case System(_, payload, _) => BEL !in payload && ESC !in payload
  }

  function Bytes(way: Way): seq<Byte>
    requires WellFormed(way)
  {
    match way
    case Single(byte) => [byte]
    case Esc(final) => [ESC, Ascii(final)]
    case Sequence(ps, final) => [ESC, Ascii('[')] + Text(ps) + [Ascii(final)]
    case Private(ps, final) => [ESC, Ascii('['), Ascii('?')] + Text(ps) + [Ascii(final)]
    case Shift(final) => [ESC, Ascii('O'), Ascii(final)]
    case Charset(final, set_) => [ESC, Ascii(final), set_]
    case System(code, payload, st) => [ESC, Ascii(']')] + (Digits(code) + [SEMICOLON] + payload) + if st then [ESC, Ascii('\\')] else [BEL]
  }

  // --------------------------------------------------------------- what is asked for

  /** A parameter, 0 if it is left out or not there. */
  function Given(ps: seq<Option<nat>>, i: nat): nat {
    if i < |ps| && ps[i].Some? then ps[i].value else 0
  }

  /** A count that is not given, or given as 0, means 1. */
  predicate Counts(way: Way, final: char, i: nat, n: int) {
    way.Sequence? && way.final == final && (n == Given(way.ps, i) > 0 || (Given(way.ps, i) == 0 && n == 1))
  }

  predicate Selects(way: Way, final: char, n: int) {
    way.Sequence? && way.final == final && n == Given(way.ps, 0)
  }

  predicate Key(way: Way, codes: set<nat>) {
    way.Sequence? && way.final == '~' && Given(way.ps, 0) in codes
  }

  predicate Turns(way: Way, codes: set<nat>, on: bool) {
    way.Private? && way.final == (if on then 'h' else 'l') && Given(way.ps, 0) in codes
  }

  predicate Command(way: Way, codes: set<nat>) {
    way.System? && way.code in codes
  }

  /** A directory is told as a path, or as the URL of a file on some host. */
  ghost predicate Tells(payload: seq<Byte>, path: seq<Byte>) {
    || (path == payload != [] && !(FILE_SCHEME <= payload))
    || (exists host: seq<Byte> :: payload == FILE_SCHEME + host + path && SLASH !in host && path != [] && path[0] == SLASH)
    || (path == [SLASH] && FILE_SCHEME <= payload && SLASH !in payload[7..])
  }

  /** Which calls each way of writing asks for. */
  ghost predicate Asks(way: Way, call: Call) {
    match call
    case AppendRun(run) => way.Single? && !Handled(way.byte) && run == [way.byte]
    case NewLine => way == Single(LF)
    case CarriageReturn => way == Single(CR)
    case Bell => way == Single(BEL)
    case ReverseIndex => way == Esc('M')
    case SaveCursor => way == Esc('7') || (way.Sequence? && way.final == 's')
    case RestoreCursor => way == Esc('8') || (way.Sequence? && way.final == 'u')
    case MoveCursorUp(n) => Counts(way, 'A', 0, n) || (way == Shift('A') && n == 1)
    case MoveCursorDown(n) => Counts(way, 'B', 0, n) || (way == Shift('B') && n == 1)
    case MoveCursorRight(n) => Counts(way, 'C', 0, n) || (way == Shift('C') && n == 1)
    case MoveCursorLeft(n) => Counts(way, 'D', 0, n) || ((way == Shift('D') || way == Single(BS) || way == Single(DEL)) && n == 1)
    case MoveCursorToPosition(row, col) =>
      || (Counts(way, 'H', 0, row) && Counts(way, 'H', 1, col)) || (Counts(way, 'f', 0, row) && Counts(way, 'f', 1, col))
      || (way == Shift('H') && row == 1 && col == 1)
    case MoveCursorToColumn(col) => Counts(way, 'G', 0, col)
    case MoveCursorToRow(row) => Counts(way, 'd', 0, row)
    case MoveCursorToLineStart => Key(way, {1, 7})
    case MoveCursorToLineEnd => Key(way, {4, 8}) || (way.Sequence? && way.final == 'F') || way == Shift('F')
    case EraseInLine(mode) => Selects(way, 'K', mode)
    case EraseInDisplay(mode) => Selects(way, 'J', mode)
    case EraseChar(n) => Counts(way, 'X', 0, n)
    case InsertChar(n) => Counts(way, '@', 0, n)
    case DeleteChar(n) => Counts(way, 'P', 0, n) || (Key(way, {3}) && n == 1)
    case InsertLines(n) => Counts(way, 'L', 0, n)
    case DeleteLines(n) => Counts(way, 'M', 0, n)
    case SetScrollRegion(top, bot) => Selects(way, 'r', top) && bot == Given(way.ps, 1)
    case SetInsertMode(on) => Selects(way, if on then 'h' else 'l', 4)
    case DeviceStatusReport(code) => Selects(way, 'n', code)
    case ApplicationCursorKeys(on) => Turns(way, {1}, on)
    case CursorVisibility(on) => Turns(way, {25}, on)
    case BracketedPaste(on) => Turns(way, {2004}, on)
    case EnterAltScreen => Turns(way, {47, 1049}, true)
    case ExitAltScreen => Turns(way, {47, 1049}, false)
    case SetTitle(title) => Command(way, {0, 1, 2}) && title == way.payload
    case CwdChanged(path) => Command(way, {7}) && Tells(way.payload, path)
    case SetCurrentStyle(_) => false
    case ResetTerminal => false
  }

  // ------------------------------------------------------------------- numbers are read

  lemma {:induction false} DigitsAreRead(n: nat, rest: seq<Byte>)
    ensures Segments(0, Digits(n) + rest) == Segments(n, rest)
    decreases n
  {
    var last := [0x30 + n % 10];
    if n < 10 {
      assert (Digits(n) + rest)[1..] == rest;
    } else {
      assert Digits(n) + rest == Digits(n / 10) + (last + rest);
      DigitsAreRead(n / 10, last + rest);
      assert (last + rest)[1..] == rest;
    }
  }

  function Values(ps: seq<Option<nat>>): seq<int> {
    seq(|ps|, i requires 0 <= i < |ps| => Given(ps, i))
  }

  lemma SegmentEnds(current: int, tail: seq<Byte>)
    ensures Segments(current, [SEMICOLON] + tail) == [current] + Segments(0, tail)
  {
    assert ([SEMICOLON] + tail)[1..] == tail;
  }

  /** The first parameter, given or not. */
  lemma FirstIsRead(ps: seq<Option<nat>>, rest: seq<Byte>)
    requires ps != []
    ensures Segments(0, (if ps[0].Some? then Digits(ps[0].value) else []) + rest) == Segments(Given(ps, 0), rest)
  {
    if ps[0].Some? { DigitsAreRead(ps[0].value, rest); } else { assert [] + rest == rest; }
  }

  lemma {:induction false} TextIsRead(ps: seq<Option<nat>>)
    requires ps != []
    ensures Segments(0, Text(ps)) == Values(ps)
    decreases |ps|
  {
    if |ps| == 1 {
      FirstIsRead(ps, []);
      assert Segments(Given(ps, 0), []) == [Given(ps, 0)] == Values(ps);
    } else {
      FirstIsRead(ps, [SEMICOLON] + Text(ps[1..]));
      SegmentEnds(Given(ps, 0), Text(ps[1..]));
      TextIsRead(ps[1..]);
      assert Values(ps) == [Given(ps, 0)] + Values(ps[1..]);
    }
  }

  /** What a dispatcher reads of the parameters. */
  lemma ParamIsRead(ps: seq<Option<nat>>, i: nat, default: int)
    ensures Param(Text(ps), i, default) == if Given(ps, i) > 0 then Given(ps, i) else default
  {
    if ps != [] { TextIsRead(ps); }
  }

  lemma {:induction false} DigitsAreDecimal(n: nat)
    ensures Decimal(Digits(n)) == Some(n) && forall b | b in Digits(n) :: 0x30 <= b <= 0x39
    decreases n
  {
    if n >= 10 {
      DigitsAreDecimal(n / 10);
      assert Digits(n)[..|Digits(n)| - 1] == Digits(n / 10);
    } else {
      assert Digits(n)[..0] == [];
    }
  }

  predicate IsParam(b: Byte) {
    0x30 <= b <= 0x39 || b == SEMICOLON
  }

  lemma {:induction false} TextIsParams(ps: seq<Option<nat>>)
    ensures forall b | b in Text(ps) :: IsParam(b)
    decreases |ps|
  {
    if ps != [] {
      if ps[0].Some? { DigitsAreDecimal(ps[0].value); }
      TextIsParams(ps[1..]);
    }
  }

  // ------------------------------------------------------------------ sequences are read

  lemma {:induction false} ParamsGather(k: Control, text: seq<Byte>)
    requires k.mode == Csi && forall b | b in text :: IsParam(b)
    ensures ControlAfter(k, text) == k.(params := k.params + text) && CallsFor(k, text) == []
    decreases |text|
  {
    if text == [] {
      assert k.params + text == k.params;
    } else {
      assert IsParam(text[0]);
      ParamsGather(k.(params := k.params + [text[0]]), text[1..]);
      assert k.params + [text[0]] + text[1..] == k.params + text;
    }
  }

  lemma OneByte(k: Control, b: Byte)
    ensures ControlAfter(k, [b]) == Advance(k, b).0 && CallsFor(k, [b]) == Advance(k, b).1
  {
    assert [b][1..] == [];
  }

  /** A control sequence comes to its final byte with its parameters gathered. */
  lemma CsiIsRead(k: Control, ps: seq<Option<nat>>, final: Byte, privateMode: bool)
    requires k.mode == Normal && 0x40 <= final <= 0x7E
    ensures var start := [ESC, Ascii('[')] + (if privateMode then [Ascii('?')] else []) + Text(ps);
            var at := k.(mode := Csi, params := Text(ps), privateMode := privateMode);
            && ControlAfter(k, start + [final]) == Advance(at, final).0
            && CallsFor(k, start + [final]) == Advance(at, final).1
  {
    var head := [ESC, Ascii('[')];
    var mark := if privateMode then [Ascii('?')] else [];
    var inCsi := k.(mode := Csi, params := [], privateMode := false);
    assert head[1..] == [Ascii('[')];
    OneByte(k.(mode := Escape), Ascii('['));
    assert ControlAfter(k, head) == inCsi && CallsFor(k, head) == [];
    OneByte(inCsi, Ascii('?'));
    var marked := inCsi.(privateMode := privateMode);
    assert ControlAfter(inCsi, mark) == marked && CallsFor(inCsi, mark) == [];
    TextIsParams(ps);
    ParamsGather(marked, Text(ps));
    assert [] + Text(ps) == Text(ps);
    var at := k.(mode := Csi, params := Text(ps), privateMode := privateMode);
    CallsForAppends(k, head, mark);
    CallsForAppends(k, head + mark, Text(ps));
    CallsForAppends(k, head + mark + Text(ps), [final]);
    OneByte(at, final);
  }

  lemma {:induction false} PayloadGathers(k: Control, payload: seq<Byte>)
    requires k.mode == Osc && BEL !in payload && ESC !in payload
    ensures ControlAfter(k, payload) == k.(osc := k.osc + payload) && CallsFor(k, payload) == []
    decreases |payload|
  {
    if payload == [] {
      assert k.osc + payload == k.osc;
    } else {
      assert payload[0] in payload;
      PayloadGathers(k.(osc := k.osc + [payload[0]]), payload[1..]);
      assert k.osc + [payload[0]] + payload[1..] == k.osc + payload;
    }
  }

  lemma OscBegins(k: Control)
    requires k.mode == Normal
    ensures var head := [ESC, Ascii(']')]; ControlAfter(k, head) == k.(mode := Osc, osc := []) && CallsFor(k, head) == []
  {
    assert [ESC, Ascii(']')][1..] == [Ascii(']')];
    OneByte(k.(mode := Escape), Ascii(']'));
  }

  lemma OscEnds(k: Control, st: bool)
    requires k.mode == Osc
    ensures var tail := if st then [ESC, Ascii('\\')] else [BEL];
            ControlAfter(k, tail) == k.(mode := Normal) && CallsFor(k, tail) == OscCalls(k.osc)
  {
    assert [ESC, Ascii('\\')][1..] == [Ascii('\\')];
    OneByte(k.(mode := OscEsc), Ascii('\\'));
    OneByte(k, BEL);
  }

  lemma OscIsRead(k: Control, osc: seq<Byte>, st: bool)
    requires k.mode == Normal && BEL !in osc && ESC !in osc
    ensures var data := [ESC, Ascii(']')] + osc + if st then [ESC, Ascii('\\')] else [BEL];
            ControlAfter(k, data) == k.(osc := osc) && CallsFor(k, data) == OscCalls(osc)
  {
    var head, tail := [ESC, Ascii(']')], if st then [ESC, Ascii('\\')] else [BEL];
    var inOsc := k.(mode := Osc, osc := []);
    OscBegins(k);
    PayloadGathers(inOsc, osc);
    assert [] + osc == osc;
    OscEnds(inOsc.(osc := osc), st);
    CallsForAppends(k, head, osc);
    CallsForAppends(k, head + osc, tail);
  }

  // ---------------------------------------------------------------- what is understood

  predicate ReadsBoth(ps: seq<Option<nat>>) {
    && Param(Text(ps), 0, 0) == Given(ps, 0) && Param(Text(ps), 0, 1) == (if Given(ps, 0) > 0 then Given(ps, 0) else 1)
    && Param(Text(ps), 1, 0) == Given(ps, 1) && Param(Text(ps), 1, 1) == (if Given(ps, 1) > 0 then Given(ps, 1) else 1)
  }

  lemma BothAreRead(ps: seq<Option<nat>>)
    ensures ReadsBoth(ps)
  {
    ParamIsRead(ps, 0, 0);
    ParamIsRead(ps, 0, 1);
    ParamIsRead(ps, 1, 0);
    ParamIsRead(ps, 1, 1);
  }

  ghost predicate SequenceMeans(ps: seq<Option<nat>>, final: char, call: Call)
    requires WellFormed(Sequence(ps, final))
  {
    CsiFinalCalls(Ascii(final), Text(ps)) == [call] <==> Asks(Sequence(ps, final), call)
  }

  lemma VerticalMean(ps: seq<Option<nat>>, final: char, call: Call)
    requires WellFormed(Sequence(ps, final)) && final in {'A', 'B'}
    ensures SequenceMeans(ps, final, call)
  {
    BothAreRead(ps);
  }

  lemma HorizontalMean(ps: seq<Option<nat>>, final: char, call: Call)
    requires WellFormed(Sequence(ps, final)) && final in {'C', 'D'}
    ensures SequenceMeans(ps, final, call)
  {
    BothAreRead(ps);
  }

  lemma ColumnMean(ps: seq<Option<nat>>, final: char, call: Call)
    requires WellFormed(Sequence(ps, final)) && final in {'G', 'd'}
    ensures SequenceMeans(ps, final, call)
  {
    BothAreRead(ps);
  }

  lemma PlaceMean(ps: seq<Option<nat>>, final: char, call: Call)
    requires WellFormed(Sequence(ps, final)) && final in {'H', 'f'}
    ensures SequenceMeans(ps, final, call)
  {
    BothAreRead(ps);
  }

  lemma RegionMean(ps: seq<Option<nat>>, final: char, call: Call)
    requires WellFormed(Sequence(ps, final)) && final in {'r', 'F'}
    ensures SequenceMeans(ps, final, call)
  {
    BothAreRead(ps);
  }

  lemma SavesMean(ps: seq<Option<nat>>, final: char, call: Call)
    requires WellFormed(Sequence(ps, final)) && final in {'s', 'u'}
    ensures SequenceMeans(ps, final, call)
  {
    BothAreRead(ps);
  }

  lemma ErasesMean(ps: seq<Option<nat>>, final: char, call: Call)
    requires WellFormed(Sequence(ps, final)) && final in {'K', 'J'}
    ensures SequenceMeans(ps, final, call)
  {
    BothAreRead(ps);
  }

  lemma CharsMean(ps: seq<Option<nat>>, final: char, call: Call)
    requires WellFormed(Sequence(ps, final)) && final in {'@', 'P', 'X'}
    ensures SequenceMeans(ps, final, call)
  {
    BothAreRead(ps);
  }

  lemma LinesMean(ps: seq<Option<nat>>, final: char, call: Call)
    requires WellFormed(Sequence(ps, final)) && final in {'L', 'M'}
    ensures SequenceMeans(ps, final, call)
  {
    BothAreRead(ps);
  }

  lemma SwitchMean(ps: seq<Option<nat>>, final: char, call: Call)
    requires WellFormed(Sequence(ps, final)) && final in {'h', 'l'}
    ensures SequenceMeans(ps, final, call)
  {
    BothAreRead(ps);
  }

  lemma ReportMean(ps: seq<Option<nat>>, final: char, call: Call)
    requires WellFormed(Sequence(ps, final)) && final in {'n'}
    ensures SequenceMeans(ps, final, call)
  {
    BothAreRead(ps);
  }

  lemma KeysMean(ps: seq<Option<nat>>, call: Call)
    ensures SequenceMeans(ps, '~', call)
  {
    BothAreRead(ps);
  }

  const FINALS := {'A', 'B', 'C', 'D', 'G', 'd', 'H', 'f', 'F', 's', 'u', 'r', 'K', 'J', '@', 'P', 'L', 'M', 'X', 'h', 'l', 'n', '~'}

  lemma OthersMeanNothing(ps: seq<Option<nat>>, final: char, call: Call)
    requires WellFormed(Sequence(ps, final)) && final !in FINALS
    ensures SequenceMeans(ps, final, call)
  {}

  lemma SequenceExactly(ps: seq<Option<nat>>, final: char, call: Call)
    requires WellFormed(Sequence(ps, final))
    ensures SequenceMeans(ps, final, call)
  {
    if final !in FINALS { OthersMeanNothing(ps, final, call); }
    else if final in {'A', 'B'} { VerticalMean(ps, final, call); }
    else if final in {'C', 'D'} { HorizontalMean(ps, final, call); }
    else if final in {'G', 'd'} { ColumnMean(ps, final, call); }
    else if final in {'H', 'f'} { PlaceMean(ps, final, call); }
    else if final in {'r', 'F'} { RegionMean(ps, final, call); }
    else if final in {'s', 'u'} { SavesMean(ps, final, call); }
    else if final in {'K', 'J'} { ErasesMean(ps, final, call); }
    else if final in {'@', 'P', 'X'} { CharsMean(ps, final, call); }
    else if final in {'L', 'M'} { LinesMean(ps, final, call); }
    else if final in {'h', 'l'} { SwitchMean(ps, final, call); }
    else if final in {'n'} { ReportMean(ps, final, call); }
    else { KeysMean(ps, call); }
  }

  lemma PrivateExactly(ps: seq<Option<nat>>, final: char, call: Call)
    requires WellFormed(Private(ps, final))
    ensures CsiPrivateCalls(Ascii(final), Text(ps)) == [call] <==> Asks(Private(ps, final), call)
  {
    ParamIsRead(ps, 0, 0);
  }

  lemma ShiftExactly(final: char, call: Call)
    requires WellFormed(Shift(final))
    ensures Ss3Calls(Ascii(final)) == [call] <==> Asks(Shift(final), call)
  {}

  /** The first place is the only one with nothing like it before. */
  lemma FoundAt(s: seq<Byte>, b: Byte, from: nat, k: nat)
    requires from <= k < |s| && s[k] == b && b !in s[from..k]
    ensures Find(s, b, from) == k
  {
    NotBefore(s, b, from, k);
    NotBefore(s, b, from, Find(s, b, from));
  }

  lemma NotBefore(s: seq<Byte>, b: Byte, from: nat, upto: nat)
    requires from <= upto <= |s| && b !in s[from..upto]
    ensures forall j | from <= j < upto :: s[j] != b
  {
    forall j | from <= j < upto ensures s[j] != b { assert s[from..upto][j - from] == s[j]; }
  }

  lemma CommandIsRead(code: nat, payload: seq<Byte>)
    ensures var osc := Digits(code) + [SEMICOLON] + payload;
            && Find(osc, SEMICOLON, 0) == |Digits(code)| < |osc|
            && Decimal(osc[..|Digits(code)|]) == Some(code) && osc[|Digits(code)| + 1..] == payload
  {
    var osc := Digits(code) + [SEMICOLON] + payload;
    DigitsAreDecimal(code);
    assert osc[..|Digits(code)|] == osc[0..|Digits(code)|] == Digits(code);
    FoundAt(osc, SEMICOLON, 0, |Digits(code)|);
  }

  /** The path in the URL of a file. */
  function UrlPath(value: seq<Byte>): seq<Byte>
    requires FILE_SCHEME <= value
  {
    var slash := Find(value, SLASH, 7);
    if slash < |value| then value[slash..] else [SLASH]
  }

  lemma UrlTells(value: seq<Byte>, path: seq<Byte>)
    requires FILE_SCHEME <= value
    ensures path == UrlPath(value) <==> Tells(value, path)
  {
    var slash := Find(value, SLASH, 7);
    if path == UrlPath(value) {
      if slash < |value| {
        assert value == FILE_SCHEME + value[7..slash] + path;
      } else {
        assert value[7..] == value[7..slash];
      }
    }
    if Tells(value, path) {
      if host: seq<Byte> :| value == FILE_SCHEME + host + path && SLASH !in host && path != [] && path[0] == SLASH {
        assert value[7..7 + |host|] == host && value[7 + |host|..] == path;
        FoundAt(value, SLASH, 7, 7 + |host|);
      } else if slash < |value| {
        assert value[7..][slash - 7] == SLASH;
      }
    }
  }

  lemma SystemExactly(code: nat, payload: seq<Byte>, st: bool, call: Call)
    requires WellFormed(System(code, payload, st))
    ensures OscCalls(Digits(code) + [SEMICOLON] + payload) == [call] <==> Asks(System(code, payload, st), call)
  {
    CommandCalls(code, payload);
    if code == 7 && call.CwdChanged? { DirectoryExactly(payload, call.path); }
  }

  /** The path a directory is told with, if it is. */
  function ToldPath(payload: seq<Byte>): seq<Byte> {
    if FILE_SCHEME <= payload then UrlPath(payload) else payload
  }

  lemma CommandCalls(code: nat, payload: seq<Byte>)
    ensures OscCalls(Digits(code) + [SEMICOLON] + payload) ==
            if code <= 2 then [SetTitle(payload)] else if code == 7 && ToldPath(payload) != [] then [CwdChanged(ToldPath(payload))] else []
  {
    CommandIsRead(code, payload);
    assert |payload| >= 7 && payload[..7] == FILE_SCHEME <==> FILE_SCHEME <= payload;
  }

  lemma DirectoryExactly(payload: seq<Byte>, path: seq<Byte>)
    ensures path == ToldPath(payload) && path != [] <==> Tells(payload, path)
  {
    if FILE_SCHEME <= payload { UrlTells(payload, path); } else { NoUrlTells(payload, path); }
  }

  lemma NoUrlTells(value: seq<Byte>, path: seq<Byte>)
    requires !(FILE_SCHEME <= value)
    ensures Tells(value, path) <==> path == value != []
  {
    forall host: seq<Byte> ensures FILE_SCHEME <= FILE_SCHEME + host + path {
      assert FILE_SCHEME + host + path == FILE_SCHEME + (host + path);
    }
  }

  /** What is left of the control state: gathered parameters and payloads, none of which is looked at again. */
  predicate Leaves(k: Control, t: Control) {
    t == k.(params := t.params, privateMode := t.privateMode, osc := t.osc)
  }

  ghost predicate Understood(k: Control, way: Way, call: Call)
    requires WellFormed(way)
  {
    var calls := CallsFor(k, Bytes(way));
    Leaves(k, ControlAfter(k, Bytes(way))) && |calls| <= 1 && (calls == [call] <==> Asks(way, call))
  }

  function EscCall(final: char): seq<Call> {
    if final == 'M' then [ReverseIndex] else if final == '7' then [SaveCursor] else if final == '8' then [RestoreCursor] else []
  }

  lemma EscExactly(final: char, call: Call)
    ensures EscCall(final) == [call] <==> Asks(Esc(final), call)
  {}

  lemma EscCalls(k: Control, final: char)
    requires k.mode == Normal && WellFormed(Esc(final))
    ensures ControlAfter(k, Bytes(Esc(final))) == k
    ensures CallsFor(k, Bytes(Esc(final))) == EscCall(final)
  {
    var data := Bytes(Esc(final));
    var next := EscapeNext(k.(mode := Escape), Ascii(final));
    assert data[1..] == [Ascii(final)];
    OneByte(k.(mode := Escape), Ascii(final));
    assert CallsFor(k, data) == [] + next.1 == next.1 && ControlAfter(k, data) == next.0;
    assert Ascii(final) as char == final;
  }

  lemma EscIsUnderstood(k: Control, final: char, call: Call)
    requires k.mode == Normal && WellFormed(Esc(final))
    ensures Understood(k, Esc(final), call)
  {
    EscCalls(k, final);
    EscExactly(final, call);
  }

  lemma SingleCalls(k: Control, b: Byte)
    requires k.mode == Normal && WellFormed(Single(b))
    ensures ControlAfter(k, [b]) == k && CallsFor(k, [b]) == if Handled(b) then HandledCalls(b) else [AppendRun([b])]
  {
    OneByte(k, b);
    DeliverOne(b);
  }

  lemma SingleIsUnderstood(k: Control, b: Byte, call: Call)
    requires k.mode == Normal && WellFormed(Single(b))
    ensures Understood(k, Single(b), call)
  {
    SingleCalls(k, b);
  }

  lemma ShiftIsUnderstood(k: Control, final: char, call: Call)
    requires k.mode == Normal && WellFormed(Shift(final))
    ensures Understood(k, Shift(final), call)
  {
    var data := Bytes(Shift(final));
    assert data[1..][1..] == [Ascii(final)];
    OneByte(k.(mode := Mode.Ss3), Ascii(final));
    assert CallsFor(k, data) == Ss3Calls(Ascii(final));
    ShiftExactly(final, call);
  }

  lemma CharsetCalls(k: Control, final: char, set_: Byte)
    requires k.mode == Normal && WellFormed(Charset(final, set_))
    ensures ControlAfter(k, Bytes(Charset(final, set_))) == k && CallsFor(k, Bytes(Charset(final, set_))) == []
  {
    assert Bytes(Charset(final, set_))[1..][1..] == [set_];
    OneByte(k.(mode := SkipOne), set_);
  }

  lemma CharsetIsUnderstood(k: Control, final: char, set_: Byte, call: Call)
    requires k.mode == Normal && WellFormed(Charset(final, set_))
    ensures Understood(k, Charset(final, set_), call)
  {
    CharsetCalls(k, final, set_);
  }

  lemma OneFinalCall(final: Byte, text: seq<Byte>)
    ensures |CsiFinalCalls(final, text)| <= 1
  {}

  lemma FinalDispatches(k: Control, final: Byte)
    requires k.mode == Csi && !k.privateMode && 0x40 <= final <= 0x7E && final as char != 'm'
    ensures Advance(k, final) == (k.(mode := Normal, params := []), CsiFinalCalls(final, k.params))
  {}

  lemma RenditionDispatches(k: Control)
    requires k.mode == Csi && !k.privateMode
    ensures var style := Sgr(k.style, Segments(0, k.params));
            Advance(k, Ascii('m')) == (k.(mode := Normal, params := [], style := style), [SetCurrentStyle(style)])
  {}

  lemma SequenceCalls(k: Control, ps: seq<Option<nat>>, final: char)
    requires k.mode == Normal && WellFormed(Sequence(ps, final))
    ensures Leaves(k, ControlAfter(k, Bytes(Sequence(ps, final))))
    ensures CallsFor(k, Bytes(Sequence(ps, final))) == CsiFinalCalls(Ascii(final), Text(ps))
  {
    CsiIsRead(k, ps, Ascii(final), false);
    assert [ESC, Ascii('[')] + [] + Text(ps) == [ESC, Ascii('[')] + Text(ps);
    assert Ascii(final) as char == final;
    FinalDispatches(k.(mode := Csi, params := Text(ps), privateMode := false), Ascii(final));
  }

  lemma SequenceIsUnderstood(k: Control, ps: seq<Option<nat>>, final: char, call: Call)
    requires k.mode == Normal && WellFormed(Sequence(ps, final))
    ensures Understood(k, Sequence(ps, final), call)
  {
    SequenceCalls(k, ps, final);
    OneFinalCall(Ascii(final), Text(ps));
    SequenceExactly(ps, final, call);
  }

  lemma PrivateCalls(k: Control, ps: seq<Option<nat>>, final: char)
    requires k.mode == Normal && WellFormed(Private(ps, final))
    ensures Leaves(k, ControlAfter(k, Bytes(Private(ps, final))))
    ensures CallsFor(k, Bytes(Private(ps, final))) == CsiPrivateCalls(Ascii(final), Text(ps))
  {
    CsiIsRead(k, ps, Ascii(final), true);
    assert [ESC, Ascii('[')] + [Ascii('?')] + Text(ps) == [ESC, Ascii('['), Ascii('?')] + Text(ps);
  }

  lemma OnePrivateCall(final: Byte, text: seq<Byte>)
    ensures |CsiPrivateCalls(final, text)| <= 1
  {}

  lemma PrivateIsUnderstood(k: Control, ps: seq<Option<nat>>, final: char, call: Call)
    requires k.mode == Normal && WellFormed(Private(ps, final))
    ensures Understood(k, Private(ps, final), call)
  {
    PrivateCalls(k, ps, final);
    OnePrivateCall(Ascii(final), Text(ps));
    PrivateExactly(ps, final, call);
  }

  lemma SystemIsUnderstood(k: Control, code: nat, payload: seq<Byte>, st: bool, call: Call)
    requires k.mode == Normal && WellFormed(System(code, payload, st))
    ensures Understood(k, System(code, payload, st), call)
  {
    DigitsAreDecimal(code);
    OscIsRead(k, Digits(code) + [SEMICOLON] + payload, st);
    SystemExactly(code, payload, st, call);
  }

  /** However it stands, as long as it is not in the middle of something, the parser makes a call for what is written
      exactly when that is what asks for it; it makes no call but one, and is ready for the next. */
  lemma UnderstoodExactly(k: Control, way: Way, call: Call)
    requires k.mode == Normal && WellFormed(way)
    ensures Understood(k, way, call)
  {
    match way
    case Single(b) => SingleIsUnderstood(k, b, call);
    case Esc(final) => EscIsUnderstood(k, final, call);
    case Sequence(ps, final) => SequenceIsUnderstood(k, ps, final, call);
    case Private(ps, final) => PrivateIsUnderstood(k, ps, final, call);
    case Shift(final) => ShiftIsUnderstood(k, final, call);
    case Charset(final, set_) => CharsetIsUnderstood(k, final, set_, call);
    case System(code, payload, st) => SystemIsUnderstood(k, code, payload, st, call);
  }

  lemma OscGathers(k: Control, osc: seq<Byte>)
    requires k.mode == Normal && BEL !in osc && ESC !in osc
    ensures var data := [ESC, Ascii(']')] + osc;
            ControlAfter(k, data) == k.(mode := Osc, osc := osc) && CallsFor(k, data) == []
  {
    OscBegins(k);
    PayloadGathers(k.(mode := Osc, osc := []), osc);
    assert [] + osc == osc;
    CallsForAppends(k, [ESC, Ascii(']')], osc);
  }

  lemma EscapeCutsShort(k: Control, b: Byte)
    requires k.mode == Osc && b as char != '\\'
    ensures var then_ := k.(mode := Normal);
            CallsFor(k, [ESC, b]) == OscCalls(k.osc) + CallsFor(then_, [ESC, b]) && ControlAfter(k, [ESC, b]) == ControlAfter(then_, [ESC, b])
  {
    assert [ESC, b][1..] == [b];
    OneByte(k.(mode := OscEsc), b);
    OneByte(k.(mode := Escape), b);
  }

  /** A command that an escape cuts short is heeded all the same, and so is what the escape begins. */
  lemma CutShortIsUnderstood(k: Control, osc: seq<Byte>, b: Byte)
    requires k.mode == Normal && BEL !in osc && ESC !in osc && b as char != '\\'
    ensures var data, then_ := [ESC, Ascii(']')] + osc + [ESC, b], [ESC, b];
            && CallsFor(k, data) == OscCalls(osc) + CallsFor(k.(osc := osc), then_)
            && ControlAfter(k, data) == ControlAfter(k.(osc := osc), then_)
  {
    OscGathers(k, osc);
    EscapeCutsShort(k.(mode := Osc, osc := osc), b);
    CallsForAppends(k, [ESC, Ascii(']')] + osc, [ESC, b]);
  }

  /** A second escape begins anew. */
  lemma EscapeBeginsAnew(k: Control, rest: seq<Byte>)
    requires k.mode == Normal
    ensures CallsFor(k, [ESC, ESC] + rest) == CallsFor(k, [ESC] + rest)
    ensures ControlAfter(k, [ESC, ESC] + rest) == ControlAfter(k, [ESC] + rest)
  {
    assert ([ESC, ESC] + rest)[1..] == [ESC] + rest && ([ESC] + rest)[1..] == rest;
  }

  // ----------------------------------------------------------------- a way to ask for each

  /** The arguments a call can be asked for with. A style is asked for otherwise, and text is what it is. */
  predicate Askable(call: Call) {
    match call
    case AppendRun(run) => |run| == 1 && run[0] < 0x80 && !Handled(run[0])
    case MoveCursorUp(n) => n >= 1
    case MoveCursorDown(n) => n >= 1
    case MoveCursorRight(n) => n >= 1
    case MoveCursorLeft(n) => n >= 1
    case MoveCursorToPosition(row, col) => row >= 1 && col >= 1
    case MoveCursorToColumn(col) => col >= 1
    case MoveCursorToRow(row) => row >= 1
    case EraseInLine(mode) => mode >= 0
    case EraseInDisplay(mode) => mode >= 0
    case EraseChar(n) => n >= 1
    case InsertChar(n) => n >= 1
    case DeleteChar(n) => n >= 1
    case InsertLines(n) => n >= 1
    case DeleteLines(n) => n >= 1
    case SetScrollRegion(top, bot) => top >= 0 && bot >= 0
    case DeviceStatusReport(code) => code >= 0
    case SetTitle(title) => BEL !in title && ESC !in title
    case CwdChanged(path) => path != [] && BEL !in path && ESC !in path && (path[0] == SLASH || !(FILE_SCHEME <= path))
    case SetCurrentStyle(_) => false
    case ResetTerminal => false
    case _ => true
  }

  function One(n: nat): seq<Option<nat>> { [Some(n)] }

  function Two(a: nat, b: nat): seq<Option<nat>> { [Some(a), Some(b)] }

  function Switch(on: bool): char { if on then 'h' else 'l' }

  function Request(call: Call): Way
    requires Askable(call)
  {
    match call
    case AppendRun(run) => Single(run[0])
    case NewLine => Single(LF)
    case CarriageReturn => Single(CR)
    case Bell => Single(BEL)
    case ReverseIndex => Esc('M')
    case SaveCursor => Esc('7')
    case RestoreCursor => Esc('8')
    case MoveCursorUp(n) => Sequence(One(n), 'A')
    case MoveCursorDown(n) => Sequence(One(n), 'B')
    case MoveCursorRight(n) => Sequence(One(n), 'C')
    case MoveCursorLeft(n) => Sequence(One(n), 'D')
    case MoveCursorToPosition(row, col) => Sequence(Two(row, col), 'H')
    case MoveCursorToColumn(col) => Sequence(One(col), 'G')
    case MoveCursorToRow(row) => Sequence(One(row), 'd')
    case MoveCursorToLineStart => Sequence(One(1), '~')
    case MoveCursorToLineEnd => Sequence([], 'F')
    case EraseInLine(mode) => Sequence(One(mode), 'K')
    case EraseInDisplay(mode) => Sequence(One(mode), 'J')
    case EraseChar(n) => Sequence(One(n), 'X')
    case InsertChar(n) => Sequence(One(n), '@')
    case DeleteChar(n) => Sequence(One(n), 'P')
    case InsertLines(n) => Sequence(One(n), 'L')
    case DeleteLines(n) => Sequence(One(n), 'M')
    case SetScrollRegion(top, bot) => Sequence(Two(top, bot), 'r')
    case SetInsertMode(on) => Sequence(One(4), Switch(on))
    case DeviceStatusReport(code) => Sequence(One(code), 'n')
    case ApplicationCursorKeys(on) => Private(One(1), Switch(on))
    case CursorVisibility(on) => Private(One(25), Switch(on))
    case BracketedPaste(on) => Private(One(2004), Switch(on))
    case EnterAltScreen => Private(One(1049), 'h')
    case ExitAltScreen => Private(One(1049), 'l')
    case SetTitle(title) => System(0, title, false)
    case CwdChanged(path) => System(7, if path[0] == SLASH then FILE_SCHEME + path else path, false)
  }

  lemma RequestAsks(call: Call)
    requires Askable(call)
    ensures WellFormed(Request(call)) && Asks(Request(call), call)
  {
    if call.CwdChanged? && call.path[0] == SLASH {
      assert FILE_SCHEME + call.path == FILE_SCHEME + [] + call.path;
    }
  }

  function Written(call: Call): seq<Byte>
    requires Askable(call)
  {
    RequestAsks(call);
    Bytes(Request(call))
  }

  /** There is a way to ask for every call, with every argument it can have, and one is enough. */
  lemma RequestIsMet(k: Control, call: Call)
    requires k.mode == Normal && Askable(call)
    ensures CallsFor(k, Written(call)) == [call] && ControlAfter(k, Written(call)).mode == Normal
  {
    RequestAsks(call);
    UnderstoodExactly(k, Request(call), call);
  }

  function AllWritten(calls: seq<Call>): seq<Byte>
    requires forall c | c in calls :: Askable(c)
  {
    if calls == [] then [] else Written(calls[0]) + AllWritten(calls[1..])
  }

  lemma FirstThenRest(k: Control, data: seq<Byte>, rest: seq<Byte>, call: Call, calls: seq<Call>)
    requires CallsFor(k, data) == [call] && CallsFor(ControlAfter(k, data), rest) == calls
    ensures CallsFor(k, data + rest) == [call] + calls
  {
    CallsForAppends(k, data, rest);
  }

  /** A program that asks for one thing after another gets exactly that. */
  lemma {:induction false} RequestsAreMet(k: Control, calls: seq<Call>)
    requires k.mode == Normal && forall c | c in calls :: Askable(c)
    ensures CallsFor(k, AllWritten(calls)) == calls
    decreases |calls|
  {
    if calls != [] {
      RequestIsMet(k, calls[0]);
      RequestsAreMet(ControlAfter(k, Written(calls[0])), calls[1..]);
      FirstThenRest(k, Written(calls[0]), AllWritten(calls[1..]), calls[0], calls[1..]);
    }
  }

  /** A reset is reported, and leaves the parser as it was at the start. */
  lemma ResetIsUnderstood(k: Control)
    requires k.mode == Normal
    ensures var data := [ESC, Ascii('c')];
            CallsFor(k, data) == [ResetTerminal, SetCurrentStyle(DEFAULT_STYLE)] && ControlAfter(k, data) == INITIAL
  {
    assert [ESC, Ascii('c')][1..] == [Ascii('c')];
    OneByte(k.(mode := Escape), Ascii('c'));
  }

  // --------------------------------------------------------------------- graphic rendition

  predicate Colour(index: int, rgb: Option<Rgb>) {
    if rgb.Some? then index == -1 && rgb.value.r < 256 && rgb.value.g < 256 && rgb.value.b < 256 else -1 <= index < 256
  }

  predicate Representable(s: Style) {
    Colour(s.fg, s.fgRgb) && Colour(s.bg, s.bgRgb)
  }

  /** The parameters that ask for a colour; `base` is 30 for the foreground and 40 for the background. The first sixteen
      have short forms as well. */
  function ColourCodes(base: nat, index: int, rgb: Option<Rgb>, short: bool): seq<nat>
    requires Colour(index, rgb)
  {
    if rgb.Some? then [base + 8, 2, rgb.value.r, rgb.value.g, rgb.value.b]
    else if index == -1 then [base + 9]
    else if short && index < 8 then [base + index]
    else if short && index < 16 then [base + 60 + index - 8]
    else [base + 8, 5, index]
  }

  function ColourChange(base: nat, from: (int, Option<Rgb>), to: (int, Option<Rgb>), short: bool): seq<nat>
    requires Colour(to.0, to.1)
  {
    if from == to then [] else ColourCodes(base, to.0, to.1, short)
  }

  function If(b: bool, code: nat): seq<nat> {
    if b then [code] else []
  }

  function Toggle(was: bool, wanted: bool, on: nat, off: nat, rest: seq<nat>): seq<nat> {
    If(wanted && !was, on) + (If(was && !wanted, off) + rest)
  }

  /** Bold and dim are turned off together. */
  predicate Brightens(from: Style, to: Style) {
    (from.bold && !to.bold) || (from.dim && !to.dim)
  }

  function Weight(from: Style, to: Style, rest: seq<nat>): seq<nat> {
    var anew := Brightens(from, to);
    If(anew, 22) + (If(to.bold && (anew || !from.bold), 1) + (If(to.dim && (anew || !from.dim), 2) + rest))
  }

  /** The fewest parameters that lead from one style to another. */
  function ChangeCodes(from: Style, to: Style, short: bool): seq<nat>
    requires Representable(to)
  {
    var colours := ColourChange(30, (from.fg, from.fgRgb), (to.fg, to.fgRgb), short)
                   + ColourChange(40, (from.bg, from.bgRgb), (to.bg, to.bgRgb), short);
    var reversed := Toggle(from.reverse, to.reverse, 7, 27, colours);
    var underlined := Toggle(from.underline, to.underline, 4, 24, reversed);
    Weight(from, to, Toggle(from.italic, to.italic, 3, 23, underlined))
  }

  lemma SgrIf(s: Style, b: bool, p: nat, next: Style, rest: seq<nat>)
    requires p != 38 && p != 48 && next == if b then SimpleSgr(s, p) else s
    ensures Sgr(s, If(b, p) + rest) == Sgr(next, rest)
  {
    if b { assert ([p] + rest)[1..] == rest; } else { assert [] + rest == rest; }
  }

  lemma SgrToggle(s: Style, was: bool, wanted: bool, on: nat, off: nat, next: Style, rest: seq<nat>)
    requires on !in {38, 48} && off !in {38, 48}
    requires next == if wanted && !was then SimpleSgr(s, on) else if was && !wanted then SimpleSgr(s, off) else s
    ensures Sgr(s, Toggle(was, wanted, on, off, rest)) == Sgr(next, rest)
  {
    var middle := if wanted && !was then SimpleSgr(s, on) else s;
    SgrIf(s, wanted && !was, on, middle, If(was && !wanted, off) + rest);
    SgrIf(middle, was && !wanted, off, next, rest);
  }

  lemma SgrItalic(s: Style, wanted: bool, rest: seq<nat>)
    ensures Sgr(s, Toggle(s.italic, wanted, 3, 23, rest)) == Sgr(s.(italic := wanted), rest)
  {
    SgrToggle(s, s.italic, wanted, 3, 23, s.(italic := wanted), rest);
  }

  lemma SgrUnderline(s: Style, wanted: bool, rest: seq<nat>)
    ensures Sgr(s, Toggle(s.underline, wanted, 4, 24, rest)) == Sgr(s.(underline := wanted), rest)
  {
    SgrToggle(s, s.underline, wanted, 4, 24, s.(underline := wanted), rest);
  }

  lemma SgrReverse(s: Style, wanted: bool, rest: seq<nat>)
    ensures Sgr(s, Toggle(s.reverse, wanted, 7, 27, rest)) == Sgr(s.(reverse := wanted), rest)
  {
    SgrToggle(s, s.reverse, wanted, 7, 27, s.(reverse := wanted), rest);
  }

  /** Bold and dim are turned on one by one. */
  lemma SgrBright(s: Style, bold: bool, dim: bool, rest: seq<nat>)
    ensures Sgr(s, If(bold, 1) + (If(dim, 2) + rest)) == Sgr(s.(bold := s.bold || bold, dim := s.dim || dim), rest)
  {
    var first := s.(bold := s.bold || bold);
    SgrIf(s, bold, 1, first, If(dim, 2) + rest);
    SgrIf(first, dim, 2, first.(dim := s.dim || dim), rest);
  }

  lemma SgrWeight(s: Style, to: Style, rest: seq<nat>)
    ensures Sgr(s, Weight(s, to, rest)) == Sgr(s.(bold := to.bold, dim := to.dim), rest)
  {
    var anew := Brightens(s, to);
    var plain := if anew then s.(bold := false, dim := false) else s;
    var bold, dim := to.bold && (anew || !s.bold), to.dim && (anew || !s.dim);
    SgrIf(s, anew, 22, plain, If(bold, 1) + (If(dim, 2) + rest));
    SgrBright(plain, bold, dim, rest);
    assert plain.(bold := plain.bold || bold, dim := plain.dim || dim) == s.(bold := to.bold, dim := to.dim);
  }

  function WithColour(s: Style, base: nat, to: (int, Option<Rgb>)): Style {
    if base == 30 then s.(fg := to.0, fgRgb := to.1) else s.(bg := to.0, bgRgb := to.1)
  }

  lemma SgrOnce(s: Style, all: seq<int>, next: Style, n: nat)
    requires all != [] && SgrRound(s, all) == (next, n)
    ensures Sgr(s, all) == Sgr(next, all[n..])
  {}

  lemma SgrRgb(s: Style, base: nat, rgb: Rgb, rest: seq<nat>)
    requires (base == 30 || base == 40) && Colour(-1, Some(rgb))
    ensures Sgr(s, [base + 8, 2, rgb.r, rgb.g, rgb.b] + rest) == Sgr(WithColour(s, base, (-1, Some(rgb))), rest)
  {
    var all := [base + 8, 2, rgb.r, rgb.g, rgb.b] + rest;
    assert all[0] == base + 8 && all[1] == 2 && all[2] == rgb.r && all[3] == rgb.g && all[4] == rgb.b && all[5..] == rest;
    SgrOnce(s, all, TrueColour(s, base + 8, rgb.r, rgb.g, rgb.b), 5);
  }

  lemma SgrPalette(s: Style, base: nat, index: nat, rest: seq<nat>)
    requires (base == 30 || base == 40) && index < 256
    ensures Sgr(s, [base + 8, 5, index] + rest) == Sgr(WithColour(s, base, (index, None)), rest)
  {
    var all := [base + 8, 5, index] + rest;
    assert all[0] == base + 8 && all[1] == 5 && all[2] == index && all[3..] == rest;
    SgrOnce(s, all, Palette(s, base + 8, index), 3);
  }

  lemma SgrShort(s: Style, code: nat, rest: seq<nat>)
    requires code != 38 && code != 48
    ensures Sgr(s, [code] + rest) == Sgr(SimpleSgr(s, code), rest)
  {
    SgrIf(s, true, code, SimpleSgr(s, code), rest);
  }

  lemma ShortColour(s: Style, base: nat, index: nat)
    requires (base == 30 || base == 40) && index < 16
    ensures SimpleSgr(s, if index < 8 then base + index else base + 60 + index - 8) == WithColour(s, base, (index, None))
    ensures SimpleSgr(s, base + 9) == WithColour(s, base, (-1, None))
  {}

  lemma SgrCodes(s: Style, base: nat, to: (int, Option<Rgb>), short: bool, rest: seq<nat>)
    requires (base == 30 || base == 40) && Colour(to.0, to.1)
    ensures Sgr(s, ColourCodes(base, to.0, to.1, short) + rest) == Sgr(WithColour(s, base, to), rest)
  {
    if to.1.Some? {
      assert to == (-1, Some(to.1.value));
      SgrRgb(s, base, to.1.value, rest);
    } else if to.0 == -1 {
      SgrShort(s, base + 9, rest);
      ShortColour(s, base, 0);
    } else if short && to.0 < 16 {
      SgrShort(s, if to.0 < 8 then base + to.0 else base + 60 + to.0 - 8, rest);
      ShortColour(s, base, to.0);
    } else {
      SgrPalette(s, base, to.0, rest);
    }
  }

  lemma SgrColour(s: Style, base: nat, from: (int, Option<Rgb>), to: (int, Option<Rgb>), short: bool, rest: seq<nat>)
    requires (base == 30 || base == 40) && Colour(to.0, to.1) && from == (if base == 30 then (s.fg, s.fgRgb) else (s.bg, s.bgRgb))
    ensures Sgr(s, ColourChange(base, from, to, short) + rest) == Sgr(WithColour(s, base, to), rest)
  {
    if from == to { assert [] + rest == rest; } else { SgrCodes(s, base, to, short, rest); }
  }

  lemma ColoursReach(s: Style, to: Style, short: bool)
    requires Representable(to)
    ensures var colours := ColourChange(30, (s.fg, s.fgRgb), (to.fg, to.fgRgb), short)
                           + ColourChange(40, (s.bg, s.bgRgb), (to.bg, to.bgRgb), short);
            Sgr(s, colours) == s.(fg := to.fg, fgRgb := to.fgRgb, bg := to.bg, bgRgb := to.bgRgb)
  {
    var bg := ColourChange(40, (s.bg, s.bgRgb), (to.bg, to.bgRgb), short);
    SgrColour(s, 30, (s.fg, s.fgRgb), (to.fg, to.fgRgb), short, bg);
    assert bg + [] == bg;
    SgrColour(s.(fg := to.fg, fgRgb := to.fgRgb), 40, (s.bg, s.bgRgb), (to.bg, to.bgRgb), short, []);
  }

  lemma AttributesReach(from: Style, to: Style, rest: seq<nat>)
    ensures var reversed := Toggle(from.reverse, to.reverse, 7, 27, rest);
            var underlined := Toggle(from.underline, to.underline, 4, 24, reversed);
            Sgr(from, Weight(from, to, Toggle(from.italic, to.italic, 3, 23, underlined))) ==
            Sgr(to.(fg := from.fg, fgRgb := from.fgRgb, bg := from.bg, bgRgb := from.bgRgb), rest)
  {
    var reversed := Toggle(from.reverse, to.reverse, 7, 27, rest);
    var underlined := Toggle(from.underline, to.underline, 4, 24, reversed);
    var weighted := from.(bold := to.bold, dim := to.dim);
    SgrWeight(from, to, Toggle(from.italic, to.italic, 3, 23, underlined));
    SgrItalic(weighted, to.italic, underlined);
    var slanted := weighted.(italic := to.italic);
    SgrUnderline(slanted, to.underline, reversed);
    SgrReverse(slanted.(underline := to.underline), to.reverse, rest);
    assert slanted.(underline := to.underline, reverse := to.reverse) ==
           to.(fg := from.fg, fgRgb := from.fgRgb, bg := from.bg, bgRgb := from.bgRgb);
  }

  lemma ChangeReaches(from: Style, to: Style, short: bool)
    requires Representable(to)
    ensures Sgr(from, ChangeCodes(from, to, short)) == to
  {
    var colours := ColourChange(30, (from.fg, from.fgRgb), (to.fg, to.fgRgb), short)
                   + ColourChange(40, (from.bg, from.bgRgb), (to.bg, to.bgRgb), short);
    AttributesReach(from, to, colours);
    ColoursReach(to.(fg := from.fg, fgRgb := from.fgRgb, bg := from.bg, bgRgb := from.bgRgb), to, short);
  }

  function Numbers(codes: seq<nat>): seq<Option<nat>> {
    seq(|codes|, i requires 0 <= i < |codes| => Some(codes[i]))
  }

  /** A rendition of the parameters, none of which may be left out; without any it would be a reset. */
  function Rendition(codes: seq<nat>): seq<Byte> {
    [ESC, Ascii('[')] + Text(Numbers(codes)) + [Ascii('m')]
  }

  lemma RenditionIsRead(k: Control, codes: seq<nat>)
    requires k.mode == Normal && codes != []
    ensures var style := Sgr(k.style, codes);
            && CallsFor(k, Rendition(codes)) == [SetCurrentStyle(style)]
            && Leaves(k.(style := style), ControlAfter(k, Rendition(codes)))
  {
    CsiIsRead(k, Numbers(codes), Ascii('m'), false);
    RenditionDispatches(k.(mode := Csi, params := Text(Numbers(codes)), privateMode := false));
    assert [ESC, Ascii('[')] + [] + Text(Numbers(codes)) == [ESC, Ascii('[')] + Text(Numbers(codes));
    TextIsRead(Numbers(codes));
    assert Values(Numbers(codes)) == codes;
  }

  /** From any style any other one can be asked for, with the short forms of the first sixteen colours or without, and
      the parameters that ask for it change nothing else on the way. */
  lemma StyleIsReached(k: Control, to: Style, short: bool)
    requires k.mode == Normal && Representable(to) && to != k.style
    ensures var codes := ChangeCodes(k.style, to, short);
            && codes != []
            && CallsFor(k, Rendition(codes)) == [SetCurrentStyle(to)]
            && Leaves(k.(style := to), ControlAfter(k, Rendition(codes)))
  {
    var codes := ChangeCodes(k.style, to, short);
    ChangeReaches(k.style, to, short);
    RenditionIsRead(k, codes);
  }

  /** No parameter, or a 0, sets the default style again. */
  lemma RenditionIsReset(k: Control)
    requires k.mode == Normal
    ensures CallsFor(k, Rendition([])) == [SetCurrentStyle(DEFAULT_STYLE)]
    ensures CallsFor(k, Rendition([0])) == [SetCurrentStyle(DEFAULT_STYLE)]
  {
    CsiIsRead(k, [], Ascii('m'), false);
    RenditionDispatches(k.(mode := Csi, params := [], privateMode := false));
    assert [ESC, Ascii('[')] + [] + Text([]) == [ESC, Ascii('[')] + Text(Numbers([]));
    assert Segments(0, []) == [0] && [0][1..] == [];
    RenditionIsRead(k, [0]);
  }
}
