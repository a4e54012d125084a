/** The iterative filename matcher of the directory model (src/fs/DirModel.cpp).

    Names are byte strings; a `char` stands for one byte. `Matches` is the textbook
    recursive meaning of a `*`/`?` pattern. `Scan` is the loop of `GlobMatch` as a function:
    it remembers one star only, and it tries literal equality before it looks for a star.
  */
module Glob {

  function Lower(c: char): char {
    if 'A' <= c <= 'Z' then (c as int + 32) as char else c
  }

  predicate Accepts(p: char, c: char) {
    p == '?' || Lower(p) == Lower(c)
  }

  /** Does `pat[p..]` match `text[t..]`? */
  predicate Matches(pat: string, p: nat, text: string, t: nat)
    requires p <= |pat| && t <= |text|
    decreases |pat| - p + |text| - t
  {
    if p == |pat| then t == |text|
    else if pat[p] == '*' then
      Matches(pat, p + 1, text, t) || (t < |text| && Matches(pat, p, text, t + 1))
    else
      t < |text| && Accepts(pat[p], text[t]) && Matches(pat, p + 1, text, t + 1)
  }

  predicate OnlyStars(pat: string, p: nat)
    requires p <= |pat|
    decreases |pat| - p
  {
    p == |pat| || (pat[p] == '*' && OnlyStars(pat, p + 1))
  }

  /** What the loop may assume about its variables; `starP == -1` means no star remembered. */
  predicate InScan(pat: string, text: string, p: nat, t: nat, starP: int, starT: nat) {
    && p <= |pat| && t <= |text| && starT <= t
    && -1 <= starP < p
    && (starP >= 0 ==> pat[starP] == '*')
  }

  /** The loop, from an arbitrary point of its run. */
  predicate Scan(pat: string, text: string, p: nat, t: nat, starP: int, starT: nat)
    requires InScan(pat, text, p, t, starP, starT)
    decreases |text| - starT, |pat| - starP, |text| - t
  {
    if t == |text| then OnlyStars(pat, p)
    else if p < |pat| && Accepts(pat[p], text[t]) then Scan(pat, text, p + 1, t + 1, starP, starT)
    else if p < |pat| && pat[p] == '*' then Scan(pat, text, p + 1, t, p, t)
    else if starP >= 0 then Scan(pat, text, starP + 1, starT + 1, starP, starT + 1)
    else false
  }

  predicate GlobResult(pat: string, text: string) {
    Scan(pat, text, 0, 0, -1, 0)
  }

  method GlobMatch(pat: string, text: string) returns (matched: bool)
    ensures matched == GlobResult(pat, text)
    ensures matched ==> Matches(pat, 0, text, 0)
    ensures '*' !in text || '*' !in pat ==> matched == Matches(pat, 0, text, 0)
  {
    var p, t := 0, 0;
    var starP, starT := -1, 0;
    ScanIsSound(pat, text, 0, 0, -1, 0);
    if '*' !in text || '*' !in pat { AgreesWithoutLiteralStar(pat, text); }
    while t < |text|
      invariant InScan(pat, text, p, t, starP, starT)
      invariant Scan(pat, text, p, t, starP, starT) == GlobResult(pat, text)
      decreases |text| - starT, |pat| - starP, |text| - t
    {
      if p < |pat| && Accepts(pat[p], text[t]) {
        p, t := p + 1, t + 1;
      } else if p < |pat| && pat[p] == '*' {
        starP, starT := p, t;
        p := p + 1;
      } else if starP >= 0 {
        starT := starT + 1;
        p, t := starP + 1, starT;
      } else {
        return false;
      }
    }
    ghost var p0 := p;
    while p < |pat| && pat[p] == '*'
      invariant p0 <= p <= |pat|
      invariant OnlyStars(pat, p0) == OnlyStars(pat, p)
    {
      p := p + 1;
    }
    matched := p == |pat|;
  }

  // ---------------------------------------------------------------- soundness

  /** The remembered star can still absorb one more byte and lead to a match. */
  predicate RetryMatches(pat: string, text: string, starP: int, starT: nat)
    requires -1 <= starP < |pat|
  {
    starP >= 0 && starT < |text| && Matches(pat, starP, text, starT + 1)
  }

  lemma {:induction false} OnlyStarsMatchesEnd(pat: string, p: nat, text: string)
    requires p <= |pat|
    ensures OnlyStars(pat, p) == Matches(pat, p, text, |text|)
    decreases |pat| - p
  {
    if p < |pat| { OnlyStarsMatchesEnd(pat, p + 1, text); }
  }

  /** For every text, literal star bytes included: the loop never reports a match that is not one. */
  lemma {:induction false} ScanIsSound(pat: string, text: string, p: nat, t: nat, starP: int, starT: nat)
    requires InScan(pat, text, p, t, starP, starT)
    ensures Scan(pat, text, p, t, starP, starT) ==>
              Matches(pat, p, text, t) || RetryMatches(pat, text, starP, starT)
    decreases |text| - starT, |pat| - starP, |text| - t
  {
    if t == |text| {
      OnlyStarsMatchesEnd(pat, p, text);
    } else if p < |pat| && Accepts(pat[p], text[t]) {
      ScanIsSound(pat, text, p + 1, t + 1, starP, starT);
      if pat[p] == '*' && Matches(pat, p + 1, text, t + 1) {
        assert Matches(pat, p, text, t + 1);
      }
    } else if p < |pat| && pat[p] == '*' {
      ScanIsSound(pat, text, p + 1, t, p, t);
    } else if starP >= 0 {
      ScanIsSound(pat, text, starP + 1, starT + 1, starP, starT + 1);
    }
  }

  // ------------------------------------------------------------- completeness

  predicate NoStarBetween(pat: string, lo: nat, hi: nat)
    requires lo <= hi <= |pat|
  {
    forall i :: lo <= i < hi ==> pat[i] != '*'
  }

  /** A star-free stretch consumes exactly its length before the rest of the pattern is tried. */
  lemma {:induction false} SegmentConsumesItsLength(pat: string, a: nat, b: nat, text: string, t: nat)
    requires a <= b <= |pat| && t <= |text| && NoStarBetween(pat, a, b)
    requires Matches(pat, a, text, t)
    ensures t + (b - a) <= |text| && Matches(pat, b, text, t + (b - a))
    decreases b - a
  {
    if a < b { SegmentConsumesItsLength(pat, a + 1, b, text, t + 1); }
  }

  /** A star followed by a star-free stretch can only be satisfied at least that far on. */
  lemma {:induction false} StarThenSegment(pat: string, s: nat, b: nat, text: string, t: nat) returns (k: nat)
    requires s < b <= |pat| && t <= |text| && pat[s] == '*' && NoStarBetween(pat, s + 1, b)
    requires Matches(pat, s, text, t)
    ensures t + (b - s - 1) <= k <= |text| && Matches(pat, b, text, k)
    decreases |text| - t
  {
    if Matches(pat, s + 1, text, t) {
      SegmentConsumesItsLength(pat, s + 1, b, text, t);
      k := t + (b - s - 1);
    } else {
      k := StarThenSegment(pat, s, b, text, t + 1);
    }
  }

  lemma {:induction false} StarAbsorbs(pat: string, p: nat, text: string, t: nat, k: nat)
    requires p < |pat| && pat[p] == '*' && t <= k <= |text| && Matches(pat, p, text, k)
    ensures Matches(pat, p, text, t)
    decreases k - t
  {
    if t < k { StarAbsorbs(pat, p, text, t + 1, k); }
  }

  /** Remembering only the last star loses no match: once the pattern is at a later star,
      whatever the earlier star could still have reached is reachable from here. */
  lemma LastStarSuffices(pat: string, text: string, p: nat, t: nat, starP: int, starT: nat)
    requires InScan(pat, text, p, t, starP, starT) && t < |text| && p < |pat| && pat[p] == '*'
    requires starP >= 0 ==> NoStarBetween(pat, starP + 1, p) && p - starP - 1 == t - starT
    requires RetryMatches(pat, text, starP, starT)
    ensures Matches(pat, p, text, t)
  {
    var k := StarThenSegment(pat, starP, p, text, starT + 1);
    StarAbsorbs(pat, p, text, t, k);
  }

  lemma {:induction false} ScanIsComplete(pat: string, text: string, p: nat, t: nat, starP: int, starT: nat)
    requires '*' !in text || '*' !in pat
    requires InScan(pat, text, p, t, starP, starT)
    requires starP >= 0 ==> NoStarBetween(pat, starP + 1, p) && p - starP - 1 == t - starT
    requires Matches(pat, p, text, t) || RetryMatches(pat, text, starP, starT)
    ensures Scan(pat, text, p, t, starP, starT)
    decreases |text| - starT, |pat| - starP, |text| - t
  {
    if t == |text| {
      OnlyStarsMatchesEnd(pat, p, text);
      if RetryMatches(pat, text, starP, starT) {
        var k := StarThenSegment(pat, starP, p, text, starT + 1);
        assert false;
      }
    } else if p < |pat| && Accepts(pat[p], text[t]) {
      assert pat[p] != '*' by { assert pat[p] in pat && text[t] in text; }
      ScanIsComplete(pat, text, p + 1, t + 1, starP, starT);
    } else if p < |pat| && pat[p] == '*' {
      if RetryMatches(pat, text, starP, starT) { LastStarSuffices(pat, text, p, t, starP, starT); }
      ScanIsComplete(pat, text, p + 1, t, p, t);
    } else if starP >= 0 {
      ScanIsComplete(pat, text, starP + 1, starT + 1, starP, starT + 1);
    }
  }

  // --------------------------------------------------- exactly when they agree

  lemma AgreesWithoutLiteralStar(pat: string, text: string)
    requires '*' !in text || '*' !in pat
    ensures GlobResult(pat, text) == Matches(pat, 0, text, 0)
  {
    ScanIsSound(pat, text, 0, 0, -1, 0);
    if Matches(pat, 0, text, 0) { ScanIsComplete(pat, text, 0, 0, -1, 0); }
  }

  /** The smallest disagreement: `*?` matches the one-byte name `*`, the loop says it does not. */
  lemma LiteralStarCounterexample()
    ensures Matches("*?", 0, "*", 0) && !GlobResult("*?", "*")
  {
    assert Matches("*?", 1, "*", 0);
  }

  function Marks(n: nat): string {
    seq(n, _ => '?')
  }

  lemma {:induction false} MarksMatch(pat: string, p: nat, text: string, t: nat)
    requires p <= |pat| && t <= |text| && |pat| - p == |text| - t
    requires forall i :: p <= i < |pat| ==> pat[i] == '?'
    ensures Matches(pat, p, text, t)
    decreases |pat| - p
  {
    if p < |pat| { MarksMatch(pat, p + 1, text, t + 1); }
  }

  lemma {:induction false} MarksMatchPrefix(pat: string, p: nat, text: string, t: nat, n: nat)
    requires p + n <= |pat| && t + n <= |text|
    requires forall i :: p <= i < p + n ==> pat[i] == '?'
    requires Matches(pat, p + n, text, t + n)
    ensures Matches(pat, p, text, t)
    decreases n
  {
    if n > 0 { MarksMatchPrefix(pat, p + 1, text, t + 1, n - 1); }
  }

  /** Every step literal and no star remembered, with a pattern too long: the loop says no. */
  lemma {:induction false} LiteralRunTooShort(pat: string, text: string, p: nat, t: nat)
    requires p <= |pat| && t <= |text| && |text| - t < |pat| - p
    requires forall i :: p <= i < p + (|text| - t) ==> Accepts(pat[i], text[t + i - p])
    requires pat[p + (|text| - t)] != '*'
    ensures !Scan(pat, text, p, t, -1, 0)
    decreases |text| - t
  {
    if t < |text| {
      assert Accepts(pat[p], text[t + p - p]);
      forall i | p + 1 <= i < p + 1 + (|text| - (t + 1))
        ensures Accepts(pat[i], text[t + 1 + i - (p + 1)])
      {
        assert Accepts(pat[i], text[t + i - p]);
      }
      LiteralRunTooShort(pat, text, p + 1, t + 1);
    }
  }

  lemma TextStarBreaksSomePattern(text: string, k: nat) returns (pat: string)
    requires k < |text| && text[k] == '*'
    ensures Matches(pat, 0, text, 0) && !GlobResult(pat, text)
  {
    pat := Marks(k) + "*" + Marks(|text| - k);
    MarksMatch(pat, k + 1, text, k);
    assert Matches(pat, k, text, k);
    MarksMatchPrefix(pat, 0, text, 0, k);
    forall i | 0 <= i < |text| ensures Accepts(pat[i], text[0 + i - 0]) {
      assert i == k || pat[i] == '?';
    }
    LiteralRunTooShort(pat, text, 0, 0);
  }

  /** For a given name, the matcher is right about every pattern iff the name holds no star byte. */
  lemma AgreesOnAllPatternsIff(text: string)
    ensures (forall pat: string :: GlobResult(pat, text) == Matches(pat, 0, text, 0)) <==> '*' !in text
  {
    if '*' in text {
      var k :| 0 <= k < |text| && text[k] == '*';
      var pat := TextStarBreaksSomePattern(text, k);
    } else {
      forall pat: string ensures GlobResult(pat, text) == Matches(pat, 0, text, 0) {
        AgreesWithoutLiteralStar(pat, text);
      }
    }
  }

  /** A text that instantiates `pat[p..]` with a star byte for every wildcard. */
  function Literally(pat: string): string {
    seq(|pat|, i requires 0 <= i < |pat| => if pat[i] == '?' then '*' else pat[i])
  }

  lemma {:induction false} LiterallyMatches(pat: string, p: nat, text: string, t: nat)
    requires p <= |pat| && t <= |text| && |pat| - p == |text| - t
    requires forall i :: p <= i < |pat| ==> text[t + i - p] == (if pat[i] == '?' then '*' else pat[i])
    ensures Matches(pat, p, text, t)
    decreases |pat| - p
  {
    if p < |pat| {
      assert text[t + p - p] == (if pat[p] == '?' then '*' else pat[p]);
      forall i | p + 1 <= i < |pat|
        ensures text[t + 1 + i - (p + 1)] == (if pat[i] == '?' then '*' else pat[i])
      {
        assert text[t + i - p] == (if pat[i] == '?' then '*' else pat[i]);
      }
      LiterallyMatches(pat, p + 1, text, t + 1);
      if pat[p] == '*' { assert Matches(pat, p, text, t + 1); }
    }
  }

  /** Against a run of star bytes longer than what is left of the pattern, every pattern star is
      spent literally and none is remembered. */
  lemma {:induction false} StarBytesExhaust(pat: string, text: string, p: nat, t: nat)
    requires p <= |pat| && t + (|pat| - p) < |text|
    requires forall i :: t <= i <= t + (|pat| - p) ==> text[i] == '*'
    ensures !Scan(pat, text, p, t, -1, 0)
    decreases |pat| - p
  {
    if p < |pat| && Accepts(pat[p], '*') { StarBytesExhaust(pat, text, p + 1, t + 1); }
  }

  lemma {:induction false} LiteralPrefixScans(pat: string, text: string, p: nat, k: nat)
    requires p <= k < |pat| && k <= |text|
    requires forall i :: p <= i < k ==> text[i] == (if pat[i] == '?' then '*' else pat[i])
    ensures Scan(pat, text, p, p, -1, 0) == Scan(pat, text, k, k, -1, 0)
    decreases k - p
  {
    if p < k { LiteralPrefixScans(pat, text, p + 1, k); }
  }

  lemma {:induction false} PrefixMatches(pat: string, text: string, p: nat, k: nat)
    requires p <= k <= |pat| && k <= |text|
    requires forall i :: p <= i < k ==> text[i] == (if pat[i] == '?' then '*' else pat[i])
    requires Matches(pat, k, text, k)
    ensures Matches(pat, p, text, p)
    decreases k - p
  {
    if p < k {
      PrefixMatches(pat, text, p + 1, k);
      if pat[p] == '*' { assert Matches(pat, p, text, p + 1); }
    }
  }

  lemma PatternStarBreaksSomeText(pat: string, k: nat) returns (text: string)
    requires k < |pat| && pat[k] == '*'
    ensures Matches(pat, 0, text, 0) && !GlobResult(pat, text)
  {
    var n := |pat| - k + 1;
    var stars := seq(n, _ => '*');
    text := Literally(pat[..k]) + stars + Literally(pat[k..]);
    LiterallyMatches(pat, k, text, k + n);
    StarAbsorbs(pat, k, text, k, k + n);
    PrefixMatches(pat, text, 0, k);
    LiteralPrefixScans(pat, text, 0, k);
    StarBytesExhaust(pat, text, k, k);
  }

  /** For a given pattern, the matcher is right about every name iff the pattern holds no star. */
  lemma AgreesOnAllTextsIff(pat: string)
    ensures (forall text: string :: GlobResult(pat, text) == Matches(pat, 0, text, 0)) <==> '*' !in pat
  {
    if '*' in pat {
      var k :| 0 <= k < |pat| && pat[k] == '*';
      var text := PatternStarBreaksSomeText(pat, k);
    } else {
      forall text: string ensures GlobResult(pat, text) == Matches(pat, 0, text, 0) {
        AgreesWithoutLiteralStar(pat, text);
      }
    }
  }
}
