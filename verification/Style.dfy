/** Character cells: code points, SGR styles and style runs (src/document/Document.h). */
module Style {

  type CodePoint = c: int | 0 <= c < 0x1_0000_0000

  const SPACE: CodePoint := 0x20
  const WIDE_FILLER: CodePoint := 0xFFFE

  datatype Option<+T> = None | Some(value: T)

  datatype Rgb = Rgb(r: nat, g: nat, b: nat)

  datatype Style = Style(fg: int, bg: int, bold: bool, dim: bool, italic: bool, underline: bool, reverse: bool,
                         fgRgb: Option<Rgb>, bgRgb: Option<Rgb>)

  const DEFAULT_STYLE := Style(-1, -1, false, false, false, false, false, None, None)

  datatype StyleRun = StyleRun(start: nat, length: nat, style: Style)
  {
    function End(): nat { start + length }
    predicate Covers(c: nat) { start <= c < start + length }
    predicate Straddles(c: nat) { start < c < start + length }
  }

  /** The styles of the runs covering column `c`, in run order. */
  function StylesAt(runs: seq<StyleRun>, c: nat): seq<Style> {
    if runs == [] then []
    else if runs[0].Covers(c) then [runs[0].style] + StylesAt(runs[1..], c)
    else StylesAt(runs[1..], c)
  }

  function Fill<T>(n: nat, x: T): (s: seq<T>)
    ensures |s| == n && forall i | 0 <= i < n :: s[i] == x
  {
    seq(n, _ => x)
  }

  lemma ConcatAssoc<T>(a: seq<T>, b: seq<T>, c: seq<T>)
    ensures a + (b + c) == a + b + c
  {}

  lemma {:induction false} StylesAtAppend(a: seq<StyleRun>, b: seq<StyleRun>, c: nat)
    ensures StylesAt(a + b, c) == StylesAt(a, c) + StylesAt(b, c)
    decreases |a|
  {
    if a == [] {
      assert a + b == b;
    } else {
      assert (a + b)[1..] == a[1..] + b;
      StylesAtAppend(a[1..], b, c);
    }
  }
}
