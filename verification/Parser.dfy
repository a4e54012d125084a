/** The terminal byte parser (src/parser/Parser.cpp).

    `Advance` is the parser as it would be without batching: what one byte does to the control state
    and which calls it makes, each completed code point being delivered on its own. The class batches:
    it gathers printable code points in `runBuf` and delivers them at the next control byte or at the
    end of a chunk. Masks and shifts are written with `/`, `%` and comparisons.
  */
module Parser {
  import opened Style

  type Byte = b: int | 0 <= b < 256

  /** The calls made on the document and on the screen, in the order they are made. */
  datatype Call =
    | AppendRun(run: seq<CodePoint>)
    | NewLine | CarriageReturn | ReverseIndex | SaveCursor | RestoreCursor
    | MoveCursorUp(n: int) | MoveCursorDown(n: int) | MoveCursorRight(n: int) | MoveCursorLeft(n: int)
    | MoveCursorToPosition(row: int, col: int) | MoveCursorToColumn(col: int) | MoveCursorToRow(row: int)
    | MoveCursorToLineStart | MoveCursorToLineEnd
    | EraseInLine(mode: int) | EraseInDisplay(mode: int) | EraseChar(n: int)
    | InsertChar(n: int) | DeleteChar(n: int) | InsertLines(n: int) | DeleteLines(n: int)
    | SetScrollRegion(top: int, bot: int) | SetInsertMode(on: bool)
    | SetCurrentStyle(style: Style) | SetTitle(title: seq<Byte>)
    | Bell | DeviceStatusReport(code: int) | ResetTerminal | CwdChanged(path: seq<Byte>)
    | ApplicationCursorKeys(on: bool) | CursorVisibility(on: bool) | BracketedPaste(on: bool)
    | EnterAltScreen | ExitAltScreen

  datatype Mode = Normal | Escape | Ss3 | Csi | Osc | OscEsc | SkipOne

  /** Everything the parser remembers except the pending run. */
  datatype Control = Control(mode: Mode, params: seq<Byte>, privateMode: bool, osc: seq<Byte>, style: Style,
                             codepoint: CodePoint, remaining: int)

  const INITIAL := Control(Normal, [], false, [], DEFAULT_STYLE, 0, 0)

  const ESC: Byte := 0x1B
  const BEL: Byte := 0x07
  const BS: Byte := 0x08
  const DEL: Byte := 0x7F
  const LF: Byte := 0x0A
  const CR: Byte := 0x0D
  const SEMICOLON: Byte := 0x3B
  const SLASH: Byte := 0x2F
  const FILE_SCHEME: seq<Byte> := [0x66, 0x69, 0x6C, 0x65, 0x3A, 0x2F, 0x2F]

  // --------------------------------------------------------------- parameters

  function Digit(b: Byte): int {
    b as int - 0x30
  }

  /** The values of the ';'-separated segments, the first one continuing from `current`. */
  function Segments(current: int, params: seq<Byte>): (r: seq<int>)
    ensures |r| > 0
    decreases |params|
  {
    if params == [] then [current]
    else if params[0] == SEMICOLON then [current] + Segments(0, params[1..])
    else Segments(current * 10 + Digit(params[0]), params[1..])
  }

  function Param(params: seq<Byte>, index: nat, default: int): int {
    var segments := Segments(0, params);
    if index < |segments| && segments[index] > 0 then segments[index] else default
  }

  method ParseParam(params: seq<Byte>, index: nat, default: int) returns (r: int)
    ensures r == Param(params, index, default)
  {
    var current: int := 0;
    var count := 0;
    var i := 0;
    assert params[0..] == params;
    while i <= |params|
      invariant 0 <= i <= |params| && 0 <= count <= index
      invariant var all, rest := Segments(0, params), Segments(current, params[i..]);
                |all| == count + |rest| && all[count..] == rest
    {
      if i == |params| || params[i] == SEMICOLON {
        if count == index { return if current <= 0 then default else current; }
        if i < |params| { assert params[i..][1..] == params[i + 1..]; }
        else { return default; }
        count := count + 1;
        current := 0;
      } else {
        assert params[i..][1..] == params[i + 1..];
        current := current * 10 + Digit(params[i]);
      }
      i := i + 1;
    }
    return default;
  }

  // ----------------------------------------------------- graphic rendition (SGR)

  function SimpleSgr(s: Style, p: int): Style {
    if p == 0 then DEFAULT_STYLE
    else if p == 1 then s.(bold := true)
    else if p == 2 then s.(dim := true)
    else if p == 3 then s.(italic := true)
    else if p == 4 then s.(underline := true)
    else if p == 7 then s.(reverse := true)
    else if p == 22 then s.(bold := false, dim := false)
    else if p == 23 then s.(italic := false)
    else if p == 24 then s.(underline := false)
    else if p == 27 then s.(reverse := false)
    else if 30 <= p <= 37 then s.(fg := p - 30, fgRgb := None)
    else if p == 39 then s.(fg := -1, fgRgb := None)
    else if 40 <= p <= 47 then s.(bg := p - 40, bgRgb := None)
    else if p == 49 then s.(bg := -1, bgRgb := None)
    else if 90 <= p <= 97 then s.(fg := p - 90 + 8, fgRgb := None)
    else if 100 <= p <= 107 then s.(bg := p - 100 + 8, bgRgb := None)
    else s
  }

  function Palette(s: Style, p: int, index: int): Style {
    if !(0 <= index <= 255) then s
    else if p == 38 then s.(fg := index, fgRgb := None)
    else s.(bg := index, bgRgb := None)
  }

  function TrueColour(s: Style, p: int, r: int, g: int, b: int): Style {
    var rgb := Some(Rgb(r % 256, g % 256, b % 256));
    if p == 38 then s.(fgRgb := rgb, fg := -1) else s.(bgRgb := rgb, bg := -1)
  }

  /** One round of the SGR loop: the new style and how many parameters it consumed. */
  function SgrRound(s: Style, ps: seq<int>): (r: (Style, nat))
    requires ps != []
    ensures 1 <= r.1 <= |ps|
  {
    var p := ps[0];
    if (p == 38 || p == 48) && |ps| > 1 then
      if ps[1] == 5 && |ps| > 2 then (Palette(s, p, ps[2]), 3)
      else if ps[1] == 2 && |ps| > 4 then (TrueColour(s, p, ps[2], ps[3], ps[4]), 5)
      else (s, 1)
    else (SimpleSgr(s, p), 1)
  }

  function Sgr(s: Style, ps: seq<int>): Style
    decreases |ps|
  {
    if ps == [] then s
    else
      var round := SgrRound(s, ps);
      Sgr(round.0, ps[round.1..])
  }

  // ------------------------------------------------------------- the dispatchers

  function CsiFinalCalls(byte: Byte, ps: seq<Byte>): seq<Call> {
    var c := byte as char;
    if c == 'A' then [MoveCursorUp(Param(ps, 0, 1))]
    else if c == 'B' then [MoveCursorDown(Param(ps, 0, 1))]
    else if c == 'C' then [MoveCursorRight(Param(ps, 0, 1))]
    else if c == 'D' then [MoveCursorLeft(Param(ps, 0, 1))]
    else if c == 'K' then [EraseInLine(Param(ps, 0, 0))]
    else if c == 'H' || c == 'f' then [MoveCursorToPosition(Param(ps, 0, 1), Param(ps, 1, 1))]
    else if c == 'F' then [MoveCursorToLineEnd]
    else if c == 'J' then [EraseInDisplay(Param(ps, 0, 0))]
    else if c == '@' then [InsertChar(Param(ps, 0, 1))]
    else if c == 'P' then [DeleteChar(Param(ps, 0, 1))]
    else if c == 'r' then [SetScrollRegion(Param(ps, 0, 0), Param(ps, 1, 0))]
    else if c == 'G' then [MoveCursorToColumn(Param(ps, 0, 1))]
    else if c == 'd' then [MoveCursorToRow(Param(ps, 0, 1))]
    else if c == 's' then [SaveCursor]
    else if c == 'u' then [RestoreCursor]
    else if c == 'L' then [InsertLines(Param(ps, 0, 1))]
    else if c == 'M' then [DeleteLines(Param(ps, 0, 1))]
    else if c == 'X' then [EraseChar(Param(ps, 0, 1))]
    else if c == 'n' then [DeviceStatusReport(Param(ps, 0, 0))]
    else if c == 'h' then if Param(ps, 0, 0) == 4 then [SetInsertMode(true)] else []
    else if c == 'l' then if Param(ps, 0, 0) == 4 then [SetInsertMode(false)] else []
    else if c == '~' then
      var code := Param(ps, 0, 0);
      if code == 1 || code == 7 then [MoveCursorToLineStart]
      else if code == 3 then [DeleteChar(1)]
      else if code == 4 || code == 8 then [MoveCursorToLineEnd]
      else []
    else []
  }

  function CsiPrivateCalls(byte: Byte, ps: seq<Byte>): seq<Call> {
    var c := byte as char;
    var code := Param(ps, 0, 0);
    if c != 'h' && c != 'l' then []
    else
      var on := c == 'h';
      if code == 1 then [ApplicationCursorKeys(on)]
      else if code == 25 then [CursorVisibility(on)]
      else if code == 47 || code == 1049 then [if on then EnterAltScreen else ExitAltScreen]
      else if code == 2004 then [BracketedPaste(on)]
      else []
  }

  function Ss3Calls(byte: Byte): seq<Call> {
    var c := byte as char;
    if c == 'A' then [MoveCursorUp(1)]
    else if c == 'B' then [MoveCursorDown(1)]
    else if c == 'C' then [MoveCursorRight(1)]
    else if c == 'D' then [MoveCursorLeft(1)]
    else if c == 'H' then [MoveCursorToPosition(1, 1)]
    else if c == 'F' then [MoveCursorToLineEnd]
    else []
  }

  /** The first position of `b` in `s` at or after `from`, or `|s|`. */
  function Find(s: seq<Byte>, b: Byte, from: nat): (k: nat)
    requires from <= |s|
    ensures from <= k <= |s| && (k < |s| ==> s[k] == b) && b !in s[from..k]
    decreases |s| - from
  {
    if from == |s| || s[from] == b then from else Find(s, b, from + 1)
  }

  function Decimal(s: seq<Byte>): Option<int> {
    if s == [] then Some(0)
    else
      var last := s[|s| - 1];
      match Decimal(s[..|s| - 1])
      case None => None
      case Some(n) => if 0x30 <= last <= 0x39 then Some(n * 10 + Digit(last)) else None
  }

  function OscCalls(payload: seq<Byte>): seq<Call> {
    var sep := Find(payload, SEMICOLON, 0);
    if sep == |payload| then []
    else
      match Decimal(payload[..sep])
      case None => []
      case Some(code) =>
        var value := payload[sep + 1..];
        if 0 <= code <= 2 then [SetTitle(value)]
        else if code == 7 then
          var path :=
            if |value| >= 7 && value[..7] == FILE_SCHEME then
              var slash := Find(value, SLASH, 7);
              if slash < |value| then value[slash..] else [SLASH]
            else value;
          if path != [] then [CwdChanged(path)] else []
        else []
  }

  // ------------------------------------------------------ the unbatched parser

  predicate Handled(b: Byte) {
    b == ESC || b == BEL || b == BS || b == DEL || b == LF || b == CR
  }

  function HandledCalls(b: Byte): seq<Call>
    requires Handled(b)
  {
    if b == BEL then [Bell]
    else if b == BS || b == DEL then [MoveCursorLeft(1)]
    else if b == LF then [NewLine]
    else if b == CR then [CarriageReturn]
    else []
  }

  /** UTF-8 decoding of one byte: the new decoder state and the code point it completes, if any. */
  function Decode(k: Control, b: Byte): (Control, seq<CodePoint>) {
    if b < 0x80 then (k, [b])
    else if 0xC0 <= b < 0xE0 then (k.(codepoint := b % 0x20, remaining := 1), [])
    else if 0xE0 <= b < 0xF0 then (k.(codepoint := b % 0x10, remaining := 2), [])
    else if 0xF0 <= b < 0xF8 then (k.(codepoint := b % 0x08, remaining := 3), [])
    else if b < 0xC0 then
      var cp: CodePoint := (k.codepoint * 0x40 + b % 0x40) % 0x1_0000_0000;
      if k.remaining == 1 then (k.(codepoint := 0, remaining := 0), [cp])
      else (k.(codepoint := cp, remaining := k.remaining - 1), [])
    else (k, [])
  }

  function EscapeNext(k: Control, b: Byte): (Control, seq<Call>) {
    var c := b as char;
    if b == ESC then (k.(mode := Escape), [])
    else if c == '[' then (k.(mode := Csi, params := [], privateMode := false), [])
    else if c == ']' then (k.(mode := Osc, osc := []), [])
    else if c == 'O' then (k.(mode := Ss3), [])
    else if c == '(' || c == ')' then (k.(mode := SkipOne), [])
    else if c == 'M' then (k.(mode := Normal), [ReverseIndex])
    else if c == '7' then (k.(mode := Normal), [SaveCursor])
    else if c == '8' then (k.(mode := Normal), [RestoreCursor])
    else if c == 'c' then (INITIAL, [ResetTerminal, SetCurrentStyle(DEFAULT_STYLE)])
    else (k.(mode := Normal), [])
  }

  function CsiNext(k: Control, b: Byte): (Control, seq<Call>) {
    if b as char == '?' && k.params == [] && !k.privateMode then (k.(privateMode := true), [])
    else if 0x30 <= b <= 0x39 || b == SEMICOLON then (k.(params := k.params + [b]), [])
    else if 0x40 <= b <= 0x7E then
      var done := k.(mode := Normal, params := [], privateMode := false);
      if k.privateMode then (done, CsiPrivateCalls(b, k.params))
      else if b as char == 'm' then
        var style := Sgr(k.style, Segments(0, k.params));
        (done.(style := style), [SetCurrentStyle(style)])
      else (done, CsiFinalCalls(b, k.params))
    else (k, [])
  }

  function OscNext(k: Control, b: Byte): (Control, seq<Call>) {
    if b == BEL then (k.(mode := Normal), OscCalls(k.osc))
    else if b == ESC then (k.(mode := OscEsc), [])
    else (k.(osc := k.osc + [b]), [])
  }

  function OscEscNext(k: Control, b: Byte): (Control, seq<Call>) {
    if b as char == '\\' then (k.(mode := Normal), OscCalls(k.osc))
    else
      var next := EscapeNext(k.(mode := Escape), b);
      (next.0, OscCalls(k.osc) + next.1)
  }

  function Deliver(cps: seq<CodePoint>): seq<Call> {
    if cps == [] then [] else [AppendRun([cps[0]])] + Deliver(cps[1..])
  }

  /** What one byte does, every code point delivered as it completes. */
  function Advance(k: Control, b: Byte): (Control, seq<Call>) {
    match k.mode
    case Normal =>
      if Handled(b) then (k.(mode := if b == ESC then Escape else Normal), HandledCalls(b))
      else
        var next := Decode(k, b);
        (next.0, Deliver(next.1))
    case Escape => EscapeNext(k, b)
    case Ss3 => (k.(mode := Normal), Ss3Calls(b))
    case Csi => CsiNext(k, b)
    case Osc => OscNext(k, b)
    case OscEsc => OscEscNext(k, b)
    case SkipOne => (k.(mode := Normal), [])
  }

  function ControlAfter(k: Control, data: seq<Byte>): Control
    decreases |data|
  {
    if data == [] then k else ControlAfter(Advance(k, data[0]).0, data[1..])
  }

  function CallsFor(k: Control, data: seq<Byte>): seq<Call>
    decreases |data|
  {
    if data == [] then [] else Advance(k, data[0]).1 + CallsFor(Advance(k, data[0]).0, data[1..])
  }

  // -------------------------------------------------------- the batching parser

  datatype Machine = Machine(control: Control, run: seq<CodePoint>, calls: seq<Call>)

  function Flushed(m: Machine): Machine {
    if m.run == [] then m else m.(run := [], calls := m.calls + [AppendRun(m.run)])
  }

  /** One byte: in normal mode code points join the run and a handled byte flushes it first; in the
      other modes the run is left alone, except that a terminal reset discards it. */
  function Step(m: Machine, b: Byte): Machine {
    var next := Advance(m.control, b);
    if m.control.mode != Normal then
      var discards := m.control.mode in {Escape, OscEsc} && b as char == 'c';
      Machine(next.0, if discards then [] else m.run, m.calls + next.1)
    else if Handled(b) then
      var f := Flushed(m);
      Machine(next.0, f.run, f.calls + next.1)
    else Machine(next.0, m.run + Decode(m.control, b).1, m.calls)
  }

  function Feed(m: Machine, data: seq<Byte>): Machine
    decreases |data|
  {
    if data == [] then m else Feed(Step(m, data[0]), data[1..])
  }

  function Processed(m: Machine, data: seq<Byte>): Machine {
    Flushed(Feed(m, data))
  }

  function ProcessedChunks(m: Machine, chunks: seq<seq<Byte>>): Machine
    decreases |chunks|
  {
    if chunks == [] then m else ProcessedChunks(Processed(m, chunks[0]), chunks[1..])
  }

  class Parser {
    var control: Control
    var runBuf: seq<CodePoint>
    var calls: seq<Call>

    constructor ()
      ensures Value() == Machine(INITIAL, [], [])
    {
      control, runBuf, calls := INITIAL, [], [];
    }

    function Value(): Machine
      reads this
    {
      Machine(control, runBuf, calls)
    }

    method Process(data: seq<Byte>)
      modifies this
      ensures Value() == Processed(old(Value()), data)
    {
      assert data[0..] == data;
      for i := 0 to |data|
        invariant Feed(Value(), data[i..]) == Feed(old(Value()), data)
      {
        assert data[i..][1..] == data[i + 1..];
        Handle(data[i]);
      }
      FlushRun();
    }

    method FlushRun()
      modifies this
      ensures Value() == Flushed(old(Value()))
    {
      if runBuf == [] { return; }
      calls := calls + [AppendRun(runBuf)];
      runBuf := [];
    }

    method Handle(byte: Byte)
      modifies this
      ensures Value() == Step(old(Value()), byte)
    {
      match control.mode
      case Normal => HandleNormal(byte);
      case Escape => HandleEscape(byte);
      case Ss3 =>
        calls := calls + Ss3Calls(byte);
        control := control.(mode := Normal);
      case Csi => HandleCsi(byte);
      case Osc =>
        if byte == BEL {
          calls := calls + OscCalls(control.osc);
          control := control.(mode := Normal);
        } else if byte == ESC {
          control := control.(mode := OscEsc);
        } else {
          control := control.(osc := control.osc + [byte]);
        }
      case OscEsc =>
        calls := calls + OscCalls(control.osc);
        if byte as char == '\\' {
          control := control.(mode := Normal);
        } else {
          control := control.(mode := Escape);
          HandleEscape(byte);
        }
      case SkipOne => control := control.(mode := Normal);
    }

    method HandleNormal(byte: Byte)
      requires control.mode == Normal
      modifies this
      ensures Value() == Step(old(Value()), byte)
    {
      if Handled(byte) {
        FlushRun();
        calls := calls + HandledCalls(byte);
        control := control.(mode := if byte == ESC then Escape else Normal);
        return;
      }
      if byte < 0x80 {
        runBuf := runBuf + [byte];
      } else if 0xC0 <= byte < 0xE0 {
        control := control.(codepoint := byte % 0x20, remaining := 1);
      } else if 0xE0 <= byte < 0xF0 {
        control := control.(codepoint := byte % 0x10, remaining := 2);
      } else if 0xF0 <= byte < 0xF8 {
        control := control.(codepoint := byte % 0x08, remaining := 3);
      } else if byte < 0xC0 {
        control := control.(codepoint := (control.codepoint * 0x40 + byte % 0x40) % 0x1_0000_0000,
        remaining := control.remaining - 1);
        if control.remaining == 0 {
          runBuf := runBuf + [control.codepoint];
          control := control.(codepoint := 0);
        }
      }
    }

    method HandleEscape(byte: Byte)
      requires control.mode == Escape
      modifies this
      ensures control == EscapeNext(old(control), byte).0
      ensures runBuf == if byte as char == 'c' then [] else old(runBuf)
      ensures calls == old(calls) + EscapeNext(old(control), byte).1
    {
      if byte == ESC { return; }
      match byte as char
      case '[' => control := control.(mode := Csi, params := [], privateMode := false);
      case ']' => control := control.(mode := Osc, osc := []);
      case 'O' => control := control.(mode := Ss3);
      case '(' => control := control.(mode := SkipOne);
      case ')' => control := control.(mode := SkipOne);
      case 'M' => calls := calls + [ReverseIndex]; control := control.(mode := Normal);
      case '7' => calls := calls + [SaveCursor]; control := control.(mode := Normal);
      case '8' => calls := calls + [RestoreCursor]; control := control.(mode := Normal);
      case 'c' =>
        calls := calls + [ResetTerminal];
        Reset();
      case _ => control := control.(mode := Normal);
    }

    method Reset()
      modifies this
      ensures Value() == Machine(INITIAL, [], old(calls) + [SetCurrentStyle(DEFAULT_STYLE)])
    {
      control := INITIAL;
      runBuf := [];
      calls := calls + [SetCurrentStyle(DEFAULT_STYLE)];
    }

    method HandleCsi(byte: Byte)
      requires control.mode == Csi
      modifies this
      ensures Value() == Step(old(Value()), byte)
    {
      if byte as char == '?' && control.params == [] && !control.privateMode {
        control := control.(privateMode := true);
        return;
      }
      if 0x30 <= byte <= 0x39 || byte == SEMICOLON {
        control := control.(params := control.params + [byte]);
      } else if 0x40 <= byte <= 0x7E {
        if control.privateMode {
          calls := calls + CsiPrivateCalls(byte, control.params);
        } else if byte as char == 'm' {
          DispatchSgr();
        } else {
          calls := calls + CsiFinalCalls(byte, control.params);
        }
        control := control.(params := [], privateMode := false, mode := Normal);
      }
    }

    method DispatchSgr()
      modifies this
      ensures var style := Sgr(old(control).style, Segments(0, old(control).params));
              control == old(control).(style := style) &&
              calls == old(calls) + [SetCurrentStyle(style)] && runBuf == old(runBuf)
    {
      var ps := ReadSgrParams(control.params);
      var style := control.style;
      var i := 0;
      assert ps[0..] == ps;
      while i < |ps|
        invariant 0 <= i <= |ps|
        invariant Sgr(style, ps[i..]) == Sgr(control.style, ps)
      {
        var round := SgrRound(style, ps[i..]);
        assert ps[i..][round.1..] == ps[i + round.1..];
        style := round.0;
        i := i + round.1;
      }
      control := control.(style := style);
      calls := calls + [SetCurrentStyle(style)];
    }
  }

  /** The parameter loop of `DispatchSgr`: a segment without digits reads as 0. */
  method ReadSgrParams(params: seq<Byte>) returns (ps: seq<int>)
    ensures ps == Segments(0, params)
  {
    ps := [];
    var current: int := 0;
    var hasDigit := false;
    assert params[0..] == params;
    for i := 0 to |params|
      invariant !hasDigit ==> current == 0
      invariant ps + Segments(current, params[i..]) == Segments(0, params)
    {
      assert params[i..][1..] == params[i + 1..];
      if params[i] == SEMICOLON {
        ps := ps + [if hasDigit then current else 0];
        current := 0;
        hasDigit := false;
      } else {
        current := current * 10 + Digit(params[i]);
        hasDigit := true;
      }
    }
    ps := ps + [if hasDigit then current else 0];
  }

  // --------------------------------------------- batching loses and adds nothing

  /** A call log with every run taken apart into its code points. */
  function Flat(calls: seq<Call>): seq<Call> {
    if calls == [] then []
    else (if calls[0].AppendRun? then Deliver(calls[0].run) else [calls[0]]) + Flat(calls[1..])
  }

  lemma {:induction false} DeliverAppends(a: seq<CodePoint>, b: seq<CodePoint>)
    ensures Deliver(a + b) == Deliver(a) + Deliver(b)
    decreases |a|
  {
    if a == [] {
      assert a + b == b;
    } else {
      assert (a + b)[1..] == a[1..] + b;
      DeliverAppends(a[1..], b);
    }
  }

  lemma {:induction false} FlatAppends(a: seq<Call>, b: seq<Call>)
    ensures Flat(a + b) == Flat(a) + Flat(b)
    decreases |a|
  {
    if a == [] {
      assert a + b == b;
    } else {
      assert (a + b)[1..] == a[1..] + b;
      FlatAppends(a[1..], b);
    }
  }

  predicate SingleRuns(calls: seq<Call>) {
    forall c | c in calls && c.AppendRun? :: |c.run| == 1
  }

  lemma DeliverOne(c: CodePoint)
    ensures Deliver([c]) == [AppendRun([c])]
  {
    assert [c][1..] == [];
  }

  lemma {:induction false} FlatOfSingles(calls: seq<Call>)
    requires SingleRuns(calls)
    ensures Flat(calls) == calls
    decreases |calls|
  {
    if calls != [] {
      assert calls[0] in calls;
      FlatOfSingles(calls[1..]);
      if calls[0].AppendRun? {
        var c := calls[0].run[0];
        assert calls[0].run == [c];
        DeliverOne(c);
      }
    }
  }

  lemma {:induction false} DeliverIsSingle(cps: seq<CodePoint>)
    ensures SingleRuns(Deliver(cps))
    decreases |cps|
  {
    if cps != [] { DeliverIsSingle(cps[1..]); }
  }

  lemma AdvanceIsSingle(k: Control, b: Byte)
    ensures SingleRuns(Advance(k, b).1)
  {
    DeliverIsSingle(Decode(k, b).1);
  }

  /** A run is only ever pending in normal mode. */
  predicate RunOnlyInNormal(m: Machine) {
    m.control.mode != Normal ==> m.run == []
  }

  /** The calls made so far, the pending run included, taken apart. */
  function Sent(m: Machine): seq<Call> {
    Flat(m.calls) + Deliver(m.run)
  }

  lemma FlushSendsTheSame(m: Machine)
    ensures Sent(Flushed(m)) == Sent(m)
  {
    if m.run != [] {
      FlatAppends(m.calls, [AppendRun(m.run)]);
      assert Flat([AppendRun(m.run)]) == Deliver(m.run) + [] == Deliver(m.run);
    }
  }

  lemma CallsAreSent(m: Machine, k: Control, calls: seq<Call>)
    requires m.run == [] && SingleRuns(calls)
    ensures Sent(Machine(k, [], m.calls + calls)) == Sent(m) + calls
  {
    FlatAppends(m.calls, calls);
    FlatOfSingles(calls);
  }

  lemma StepSendsInNormal(m: Machine, b: Byte)
    requires m.control.mode == Normal
    ensures Step(m, b).control == Advance(m.control, b).0
    ensures RunOnlyInNormal(Step(m, b))
    ensures Sent(Step(m, b)) == Sent(m) + Advance(m.control, b).1
  {
    if Handled(b) {
      FlushSendsTheSame(m);
      CallsAreSent(Flushed(m), m.control.(mode := if b == ESC then Escape else Normal), HandledCalls(b));
    } else {
      DeliverAppends(m.run, Decode(m.control, b).1);
    }
  }

  lemma StepSends(m: Machine, b: Byte)
    requires RunOnlyInNormal(m)
    ensures Step(m, b).control == Advance(m.control, b).0
    ensures RunOnlyInNormal(Step(m, b))
    ensures Sent(Step(m, b)) == Sent(m) + Advance(m.control, b).1
  {
    if m.control.mode == Normal {
      StepSendsInNormal(m, b);
    } else {
      AdvanceIsSingle(m.control, b);
      CallsAreSent(m, Advance(m.control, b).0, Advance(m.control, b).1);
    }
  }

  /** The batching parser refines the unbatched one, from any state it can be in. */
  lemma {:induction false} FeedSends(m: Machine, data: seq<Byte>)
    requires RunOnlyInNormal(m)
    ensures Feed(m, data).control == ControlAfter(m.control, data)
    ensures RunOnlyInNormal(Feed(m, data))
    ensures Sent(Feed(m, data)) == Sent(m) + CallsFor(m.control, data)
    decreases |data|
  {
    if data != [] {
      StepSends(m, data[0]);
      FeedSends(Step(m, data[0]), data[1..]);
    }
  }

  /** `after` is what a parser in state `m` can be left as by `data`, up to how runs are batched. */
  predicate Delivered(m: Machine, data: seq<Byte>, after: Machine) {
    && after.control == ControlAfter(m.control, data)
    && after.run == []
    && Flat(after.calls) == Sent(m) + CallsFor(m.control, data)
  }

  lemma ProcessSends(m: Machine, data: seq<Byte>)
    requires RunOnlyInNormal(m)
    ensures Delivered(m, data, Processed(m, data))
  {
    FeedSends(m, data);
    FlushSendsTheSame(Feed(m, data));
  }

  lemma {:induction false} CallsForAppends(k: Control, a: seq<Byte>, b: seq<Byte>)
    ensures ControlAfter(k, a + b) == ControlAfter(ControlAfter(k, a), b)
    ensures CallsFor(k, a + b) == CallsFor(k, a) + CallsFor(ControlAfter(k, a), b)
    decreases |a|
  {
    if a == [] {
      assert a + b == b;
    } else {
      assert (a + b)[1..] == a[1..] + b;
      CallsForAppends(Advance(k, a[0]).0, a[1..], b);
    }
  }

  function Concat(chunks: seq<seq<Byte>>): seq<Byte> {
    if chunks == [] then [] else chunks[0] + Concat(chunks[1..])
  }

  /** Splitting the input into chunks anywhere changes neither the parser's state nor its calls,
      once adjacent runs are joined. */
  lemma {:induction false} ChunksDoNotMatter(m: Machine, chunks: seq<seq<Byte>>)
    requires m.run == []
    ensures var split, whole := ProcessedChunks(m, chunks), Processed(m, Concat(chunks));
            && split.control == whole.control
            && split.run == whole.run == []
            && Flat(split.calls) == Flat(whole.calls)
    decreases |chunks|
  {
    if chunks != [] {
      var first := Processed(m, chunks[0]);
      ProcessSends(m, chunks[0]);
      ChunksDoNotMatter(first, chunks[1..]);
      TwoChunksDoNotMatter(m, chunks[0], Concat(chunks[1..]));
    } else {
      assert Concat(chunks) == [];
    }
  }

  lemma TwoChunksDoNotMatter(m: Machine, a: seq<Byte>, b: seq<Byte>)
    requires m.run == []
    ensures var split, whole := Processed(Processed(m, a), b), Processed(m, a + b);
            && split.control == whole.control
            && split.run == whole.run == []
            && Flat(split.calls) == Flat(whole.calls)
  {
    ProcessSends(m, a);
    ProcessSends(Processed(m, a), b);
    ProcessSends(m, a + b);
    DeliveredTwice(m, a, b, Processed(m, a), Processed(Processed(m, a), b));
  }

  lemma DeliveredTwice(m: Machine, a: seq<Byte>, b: seq<Byte>, mid: Machine, after: Machine)
    requires Delivered(m, a, mid) && Delivered(mid, b, after)
    ensures Delivered(m, a + b, after)
  {
    CallsForAppends(m.control, a, b);
    var before, first, second := Sent(m), CallsFor(m.control, a), CallsFor(mid.control, b);
    assert Sent(mid) == before + first by { assert Deliver([]) == []; }
    assert CallsFor(m.control, a + b) == first + second;
    ConcatAssoc(before, first, second);
  }

  // ------------------------------------------------------------- joined logs

  /** A call log with adjacent runs joined. */
  function Joined(calls: seq<Call>): seq<Call> {
    if calls == [] then []
    else
      var rest := Joined(calls[1..]);
      if !calls[0].AppendRun? then [calls[0]] + rest
      else if calls[0].run == [] then rest
      else if rest != [] && rest[0].AppendRun? then [AppendRun(calls[0].run + rest[0].run)] + rest[1..]
      else [calls[0]] + rest
  }

  lemma {:induction false} FlatOfJoined(calls: seq<Call>)
    ensures Flat(Joined(calls)) == Flat(calls)
    decreases |calls|
  {
    if calls != [] {
      var rest := Joined(calls[1..]);
      FlatOfJoined(calls[1..]);
      if calls[0].AppendRun? && calls[0].run != [] && rest != [] && rest[0].AppendRun? {
        DeliverAppends(calls[0].run, rest[0].run);
      }
    }
  }

  lemma {:induction false} JoinedDelivery(run: seq<CodePoint>, rest: seq<Call>)
    ensures Joined(Deliver(run) + rest) == Joined([AppendRun(run)] + rest)
    decreases |run|
  {
    assert ([AppendRun(run)] + rest)[1..] == rest;
    if run == [] {
      assert Deliver(run) + rest == rest;
    } else {
      var tail := run[1..];
      JoinedDelivery(tail, rest);
      var log := Deliver(run) + rest;
      assert log[0] == AppendRun([run[0]]) && log[1..] == Deliver(tail) + rest;
      assert ([AppendRun(tail)] + rest)[1..] == rest;
      assert [run[0]] + tail == run;
      if tail == [] { assert run == [run[0]]; }
      var r := Joined(rest);
      if r != [] && r[0].AppendRun? { assert [run[0]] + (tail + r[0].run) == run + r[0].run; }
    }
  }

  lemma {:induction false} JoinedOfFlat(calls: seq<Call>)
    ensures Joined(Flat(calls)) == Joined(calls)
    decreases |calls|
  {
    if calls != [] {
      var rest := calls[1..];
      JoinedOfFlat(rest);
      assert calls == [calls[0]] + rest;
      if calls[0].AppendRun? {
        JoinedDelivery(calls[0].run, Flat(rest));
        assert ([calls[0]] + Flat(rest))[1..] == Flat(rest);
      } else {
        assert ([calls[0]] + Flat(rest))[1..] == Flat(rest);
      }
    }
  }

  /** Equal flat forms and equal joined forms are the same thing. */
  lemma FlatDecidesJoined(a: seq<Call>, b: seq<Call>)
    ensures Flat(a) == Flat(b) <==> Joined(a) == Joined(b)
  {
    JoinedOfFlat(a);
    JoinedOfFlat(b);
    FlatOfJoined(a);
    FlatOfJoined(b);
  }

  // ---------------------------------------------------- what a document makes of it

  /** The effect of a call log on a target whose calls act by `apply`. */
  function Play<D>(d: D, calls: seq<Call>, apply: (D, Call) -> D): D
    decreases |calls|
  {
    if calls == [] then d else Play(apply(d, calls[0]), calls[1..], apply)
  }

  /** A run acts like its code points appended one by one. */
  ghost predicate RunsAreFolds<D(!new)>(apply: (D, Call) -> D) {
    forall d: D, run: seq<CodePoint> :: apply(d, AppendRun(run)) == Play(d, Deliver(run), apply)
  }

  lemma {:induction false} PlayAppends<D>(d: D, a: seq<Call>, b: seq<Call>, apply: (D, Call) -> D)
    ensures Play(d, a + b, apply) == Play(Play(d, a, apply), b, apply)
    decreases |a|
  {
    if a == [] {
      assert a + b == b;
    } else {
      assert (a + b)[1..] == a[1..] + b;
      PlayAppends(apply(d, a[0]), a[1..], b, apply);
    }
  }

  lemma {:induction false} PlayFlat<D(!new)>(d: D, calls: seq<Call>, apply: (D, Call) -> D)
    requires RunsAreFolds(apply)
    ensures Play(d, calls, apply) == Play(d, Flat(calls), apply)
    decreases |calls|
  {
    if calls != [] {
      var next := apply(d, calls[0]);
      PlayFlat(next, calls[1..], apply);
      var head := if calls[0].AppendRun? then Deliver(calls[0].run) else [calls[0]];
      PlayAppends(d, head, Flat(calls[1..]), apply);
      if !calls[0].AppendRun? { assert Play(next, [calls[0]][1..], apply) == next; }
    }
  }

  /** Any target for which runs are folds ends up the same however the input was split. */
  lemma ChunksDoNotMatterToTarget<D(!new)>(d: D, m: Machine, chunks: seq<seq<Byte>>, apply: (D, Call) -> D)
    requires m.run == [] && RunsAreFolds(apply)
    ensures Play(d, ProcessedChunks(m, chunks).calls, apply) == Play(d, Processed(m, Concat(chunks)).calls, apply)
  {
    ChunksDoNotMatter(m, chunks);
    PlayFlat(d, ProcessedChunks(m, chunks).calls, apply);
    PlayFlat(d, Processed(m, Concat(chunks)).calls, apply);
  }
}
