/** The two alternating scrollback segment files (src/db/ScrollbackWriter.cpp).

    A file is a sequence of lines, or absent. Opening a segment always succeeds here; opening the
    temporary file and renaming it may fail.
  */
module ScrollbackWriter {
  import opened Style

  /** The files and the writer's own fields. */
  datatype Store<L> = Store(seg0: Option<seq<L>>, seg1: Option<seq<L>>, compact: Option<seq<L>>,
                            current: nat, lines: nat, open: bool)

  function Lines<L>(file: Option<seq<L>>): seq<L> {
    if file.Some? then file.value else []
  }

  function Segment<L>(s: Store<L>, idx: nat): seq<L> {
    Lines(if idx == 0 then s.seg0 else s.seg1)
  }

  function WithSegment<L>(s: Store<L>, idx: nat, content: seq<L>): Store<L> {
    if idx == 0 then s.(seg0 := Some(content)) else s.(seg1 := Some(content))
  }

  function Current<L>(s: Store<L>): seq<L> {
    Segment(s, s.current)
  }

  function Older<L>(s: Store<L>): seq<L> {
    Segment(s, 1 - if s.current == 0 then 0 else 1)
  }

  /** What the segments hold, oldest line first. */
  function Retained<L>(s: Store<L>): seq<L> {
    Older(s) + Current(s)
  }

  /** Close the current segment and open the other one, truncated. */
  function Rotated<L>(s: Store<L>): Store<L> {
    var next := 1 - if s.current == 0 then 0 else 1;
    WithSegment(s, next, []).(current := next, lines := 0, open := true)
  }

  function Written<L>(s: Store<L>, line: L, limit: nat): Store<L> {
    var s := if s.open then s else WithSegment(s, s.current, []).(open := true);
    var s := WithSegment(s, s.current, Current(s) + [line]).(lines := s.lines + 1);
    if s.lines >= limit then Rotated(s) else s
  }

  function AllWritten<L>(s: Store<L>, lines: seq<L>, limit: nat): Store<L>
    decreases |lines|
  {
    if lines == [] then s else AllWritten(Written(s, lines[0], limit), lines[1..], limit)
  }

  /** A writer that has just started on an empty directory. */
  function Fresh<L>(compact: Option<seq<L>>): Store<L> {
    Store(None, None, compact, 0, 0, false)
  }

  /** Segment 0 and then segment 1, whichever of them is the older. Copying a file that is there but
      empty fails the output stream, and nothing is written to it afterwards. */
  function CompactContents<L>(s: Store<L>): seq<L> {
    if s.seg0 == Some([]) then [] else Lines(s.seg0) + Lines(s.seg1)
  }

  /** The merge, unless the temporary file cannot be opened; a failed rename loses the segments. */
  function Compacted<L>(s: Store<L>, tmpOpens: bool, renames: bool): Store<L> {
    if !tmpOpens then WithSegment(s, s.current, Current(s)).(open := true)
    else Fresh(if renames then Some(CompactContents(s)) else s.compact)
  }

  class ScrollbackWriter<L> {
    var store: Store<L>
    const scrollbackSaveLines: nat

    constructor (scrollbackSaveLines: nat, files: Store<L>)
      ensures store == files && this.scrollbackSaveLines == scrollbackSaveLines
    {
      store, this.scrollbackSaveLines := files, scrollbackSaveLines;
    }

    /** Segment files already there are kept, except that a restored snapshot truncates segment 0. */
    method Start(initial: seq<L>)
      modifies this`store
      ensures store == if initial == [] then old(store).(current := 0, lines := 0, open := false)
                       else AllWritten(old(store).(seg0 := Some([]), current := 0, lines := 0, open := true),
                             initial, scrollbackSaveLines)
    {
      store := store.(current := 0, lines := 0, open := false);
      if initial != [] {
        store := store.(seg0 := Some([]), open := true);
        ghost var begun := store;
        assert initial[0..] == initial;
        for i := 0 to |initial|
          invariant AllWritten(store, initial[i..], scrollbackSaveLines) == AllWritten(begun, initial, scrollbackSaveLines)
        {
          assert initial[i..][1..] == initial[i + 1..];
          WriteLine(initial[i]);
        }
      }
    }

    method WriteLine(line: L)
      modifies this`store
      ensures store == Written(old(store), line, scrollbackSaveLines)
    {
      if !store.open { store := WithSegment(store, store.current, []).(open := true); }
      store := WithSegment(store, store.current, Current(store) + [line]);
      store := store.(lines := store.lines + 1);
      if store.lines >= scrollbackSaveLines { Rotate(); }
    }

    method Rotate()
      modifies this`store
      ensures store == Rotated(old(store))
    {
      store := store.(current := 1 - if store.current == 0 then 0 else 1, lines := 0);
      store := WithSegment(store, store.current, []).(open := true);
    }

    method Compact(tmpOpens: bool, renames: bool)
      modifies this`store
      ensures store == Compacted(old(store), tmpOpens, renames)
    {
      store := store.(open := false);
      if !tmpOpens {
        store := WithSegment(store, store.current, Current(store)).(open := true);
        return;
      }
      var out := Lines(store.seg0);
      var failed := store.seg0 == Some([]);
      if store.seg1.Some? && !failed { out := out + store.seg1.value; }
      assert out == CompactContents(store);
      if renames { store := store.(compact := Some(out)); }
      store := store.(seg0 := None, seg1 := None, current := 0, lines := 0);
    }

    method Truncate()
      modifies this`store
      ensures store == Fresh<L>(None)
    {
      store := store.(open := false, seg0 := None, seg1 := None, compact := None, current := 0, lines := 0);
    }
  }

  // -------------------------------------------------- what survives a rotation

  /** Between starting on an empty directory and the next merge: the segments hold the last lines
      written, everything until the first rotation and a full segment more than the current one after. */
  ghost predicate Keeps<L>(s: Store<L>, history: seq<L>, limit: nat) {
    && s.current <= 1 && s.lines == |Current(s)| < limit
    && (!s.open ==> history == [])
    && |Retained(s)| <= |history|
    && Retained(s) == history[|history| - |Retained(s)|..]
    && (Older(s) == [] ==> Retained(s) == history && s.current == 0)
    && (Older(s) != [] ==> |Older(s)| == limit && s.seg0.Some?)
  }

  lemma WriteKeeps<L>(s: Store<L>, history: seq<L>, line: L, limit: nat)
    requires Keeps(s, history, limit)
    ensures Keeps(Written(s, line, limit), history + [line], limit)
  {
    var after := Written(s, line, limit);
    var h := history + [line];
    var n := |Retained(after)|;
    if s.lines + 1 < limit {
      assert Retained(after) == Retained(s) + [line];
    } else {
      assert Retained(after) == Current(s) + [line];
      assert Retained(s) + [line] == h[|h| - |Retained(s)| - 1..];
      assert Retained(after) == (Retained(s) + [line])[|Older(s)|..];
    }
    assert Retained(after) == h[|h| - n..];
  }

  lemma {:induction false} WritingKeeps<L>(s: Store<L>, history: seq<L>, more: seq<L>, limit: nat)
    requires Keeps(s, history, limit)
    ensures Keeps(AllWritten(s, more, limit), history + more, limit)
    decreases |more|
  {
    if more == [] {
      assert history + more == history;
    } else {
      var next, h := Written(s, more[0], limit), history + [more[0]];
      assert Keeps(next, h, limit) by { WriteKeeps(s, history, more[0], limit); }
      assert h + more[1..] == history + more;
      WritingKeeps(next, h, more[1..], limit);
    }
  }

  ghost predicate IsSuffix<L>(part: seq<L>, whole: seq<L>) {
    |part| <= |whole| && whole[|whole| - |part|..] == part
  }

  /** Whatever is written after a start on an empty directory, the segments hold a suffix of it, at
      least the configured number of lines when there are that many, and less than twice as many. */
  lemma SegmentsKeepEnough<L>(compact: Option<seq<L>>, lines: seq<L>, limit: nat)
    requires limit >= 1
    ensures var s := AllWritten(Fresh(compact), lines, limit);
            && IsSuffix(Retained(s), lines)
            && |Retained(s)| >= (if |lines| <= limit then |lines| else limit)
            && |Retained(s)| < 2 * limit
  {
    WritingKeeps(Fresh(compact), [], lines, limit);
    assert [] + lines == lines;
  }

  ghost predicate Distinct<L>(lines: seq<L>) {
    forall i, j | 0 <= i < j < |lines| :: lines[i] != lines[j]
  }

  /** The merge writes the lines in the order they were written when segment 1 is the current one or
      nothing has rotated yet; and, unless lines repeat, only then. */
  lemma MergeIsInOrderIff<L>(s: Store<L>, history: seq<L>, limit: nat)
    requires Keeps(s, history, limit)
    ensures s.current == 1 || Older(s) == [] ==> CompactContents(s) == Retained(s)
    ensures Distinct(history) ==> (CompactContents(s) == Retained(s) <==> s.current == 1 || Older(s) == [])
  {
    if s.current == 0 && Older(s) != [] && Distinct(history) {
      if Current(s) == [] {
        assert CompactContents(s) == [];
      } else {
        var n := |history| - |Retained(s)|;
        assert Retained(s)[0] == history[n];
        assert CompactContents(s)[0] == Current(s)[0] == Retained(s)[|Older(s)|] == history[n + |Older(s)|];
      }
    }
  }

  /** Just after a rotation onto segment 0 the merge keeps nothing at all. */
  lemma MergeLosesEverythingIff<L>(s: Store<L>, history: seq<L>, limit: nat)
    requires Keeps(s, history, limit) && history != []
    ensures CompactContents(s) == [] <==> s.current == 0 && Current(s) == []
  {}

  lemma {:induction false} FillSegment<L>(s: Store<L>, lines: seq<L>, limit: nat)
    requires lines != [] && s.current <= 1 && s.lines + |lines| == limit
    ensures var after := AllWritten(s, lines, limit);
            && after.current == 1 - s.current && after.lines == 0
            && (if after.current == 0 then after.seg0 else after.seg1) == Some([])
    decreases |lines|
  {
    if |lines| > 1 { FillSegment(Written(s, lines[0], limit), lines[1..], limit); }
  }

  lemma {:induction false} WritingAppends<L>(s: Store<L>, a: seq<L>, b: seq<L>, limit: nat)
    ensures AllWritten(s, a + b, limit) == AllWritten(AllWritten(s, a, limit), b, limit)
    decreases |a|
  {
    if a == [] {
      assert a + b == b;
    } else {
      assert (a + b)[1..] == a[1..] + b;
      WritingAppends(Written(s, a[0], limit), a[1..], b, limit);
    }
  }

  lemma {:induction false} FillBothSegments<L>(s: Store<L>, lines: seq<L>, k: nat, limit: nat)
    requires limit >= 1 && k >= 1 && |lines| == 2 * limit * k && s.current == 0 && s.lines == 0
    ensures var after := AllWritten(s, lines, limit); after.current == 0 && after.seg0 == Some([])
    ensures AllWritten(s, lines, limit).lines == 0
    decreases k
  {
    OneRoundLess(limit, k);
    var first, second, rest := lines[..limit], lines[limit..2 * limit], lines[2 * limit..];
    assert lines == first + (second + rest);
    FillSegment(s, first, limit);
    var half := AllWritten(s, first, limit);
    FillSegment(half, second, limit);
    WritingAppends(s, first, second + rest, limit);
    WritingAppends(half, second, rest, limit);
    if k > 1 { FillBothSegments(AllWritten(half, second, limit), rest, k - 1, limit); } else { assert rest == []; }
  }

  lemma OneRoundLess(limit: nat, k: nat)
    requires k >= 1
    ensures 2 * limit * k == 2 * limit + 2 * limit * (k - 1) && 2 * limit * k >= 2 * limit
  {}

  /** Whenever the number of lines written is a multiple of both segments together, merging loses them
      all, the lines merged before included. */
  lemma FullSegmentsAreLost<L>(compact: Option<seq<L>>, lines: seq<L>, k: nat, limit: nat)
    requires limit >= 1 && k >= 1 && |lines| == 2 * limit * k
    ensures Compacted(AllWritten(Fresh(compact), lines, limit), true, true) == Fresh(Some([]))
  {
    FillBothSegments(Fresh(compact), lines, k, limit);
  }

  /** Two lines per segment: after five lines the newest one is merged first. */
  lemma MergeOutOfOrder()
    ensures var s := AllWritten(Fresh<int>(None), [1, 2, 3, 4, 5], 2);
            Retained(s) == [3, 4, 5] && CompactContents(s) == [5, 3, 4]
  {
    assert [] + [1] == [1] && [1] + [2] == [1, 2] && [] + [3] == [3] && [3] + [4] == [3, 4] && [] + [5] == [5];
    var s1 := Written(Fresh<int>(None), 1, 2);
    var s2 := Written(s1, 2, 2);
    var s3 := Written(s2, 3, 2);
    var s4 := Written(s3, 4, 2);
    var s5 := Written(s4, 5, 2);
    assert s2 == Store(Some([1, 2]), Some([]), None, 1, 0, true);
    assert s4 == Store(Some([]), Some([3, 4]), None, 0, 0, true);
    assert s5 == Store(Some([5]), Some([3, 4]), None, 0, 1, true);
    assert [1, 2, 3, 4, 5][1..] == [2, 3, 4, 5] && [2, 3, 4, 5][1..] == [3, 4, 5];
    assert [3, 4, 5][1..] == [4, 5] && [4, 5][1..] == [5] && [5][1..] == [];
    assert AllWritten(s3, [4, 5], 2) == AllWritten(s4, [5], 2) == AllWritten(s5, [], 2);
    assert AllWritten(s1, [2, 3, 4, 5], 2) == AllWritten(s2, [3, 4, 5], 2) == AllWritten(s3, [4, 5], 2);
  }

  lemma {:induction false} WritingKeepsMerged<L>(s: Store<L>, lines: seq<L>, limit: nat)
    ensures AllWritten(s, lines, limit).compact == s.compact
    decreases |lines|
  {
    if lines != [] { WritingKeepsMerged(Written(s, lines[0], limit), lines[1..], limit); }
  }

  /** The segments are removed whether or not the merged file could be put in place, so when it could not,
      everything written since the last merge is in neither, and there was something as soon as one line had been
      written. A merge that cannot even begin loses nothing. */
  lemma FailedRenameLosesSegments<L>(compact: Option<seq<L>>, lines: seq<L>, limit: nat, renames: bool)
    requires limit >= 1
    ensures var s := AllWritten(Fresh(compact), lines, limit);
            && Compacted(s, true, false) == Fresh(compact)
            && (Retained(s) != [] <==> lines != [])
            && Retained(Compacted(s, false, renames)) == Retained(s) && Compacted(s, false, renames).compact == compact
  {
    WritingKeepsMerged(Fresh(compact), lines, limit);
    SegmentsKeepEnough(compact, lines, limit);
    WritingKeeps(Fresh(compact), [], lines, limit);
  }

  // --------------------------------------------------------- what the merged file holds

  /** How often a full segment was left behind, whether by a rotation onto it or off it, and what is in the one
      that is being filled. */
  ghost predicate Filled<L>(s: Store<L>, lines: seq<L>, limit: nat, full: nat) {
    && full * limit <= |lines| < full * limit + limit
    && s.current == full % 2 && s.lines == |lines| - full * limit
    && Current(s) == lines[full * limit..]
    && (full == 0 ==> s.seg1 == None && (s.seg0 == None <==> lines == []))
    && (full > 0 ==> 0 <= (full - 1) * limit == full * limit - limit && s.seg0.Some? && s.seg1.Some?
                     && Older(s) == lines[(full - 1) * limit..full * limit])
    && (s.open <==> lines != [])
  }

  lemma OneMoreFilled<L>(s: Store<L>, lines: seq<L>, line: L, limit: nat, full: nat)
    requires Filled(s, lines, limit, full) && limit >= 1
    ensures var more := lines + [line];
            if |more| == (full + 1) * limit then Filled(Written(s, line, limit), more, limit, full + 1)
            else Filled(Written(s, line, limit), more, limit, full)
  {
    var more := lines + [line];
    assert (full + 1) * limit == full * limit + limit;
    assert more[full * limit..] == lines[full * limit..] + [line];
    if |more| == (full + 1) * limit {
      assert more[full * limit..(full + 1) * limit] == more[full * limit..];
      assert more[(full + 1) * limit..] == [];
    } else if full > 0 {
      assert more[(full - 1) * limit..full * limit] == lines[(full - 1) * limit..full * limit];
    }
  }

  lemma {:induction false} AllFilled<L>(s: Store<L>, lines: seq<L>, more: seq<L>, limit: nat, full: nat) returns (count: nat)
    requires Filled(s, lines, limit, full) && limit >= 1
    ensures Filled(AllWritten(s, more, limit), lines + more, limit, count)
    decreases |more|
  {
    if more == [] {
      assert lines + more == lines;
      return full;
    }
    OneMoreFilled(s, lines, more[0], limit, full);
    assert (lines + [more[0]]) + more[1..] == lines + more;
    var next := if |lines| + 1 == (full + 1) * limit then full + 1 else full;
    count := AllFilled(Written(s, more[0], limit), lines + [more[0]], more[1..], limit, next);
  }

  /** The merged file as a function of what was written: everything, if that is less than one segment; else the last
      full segment and what has been begun since, in that order if the number of full segments is odd. If it is
      even they are the other way round, and nothing is left just after a rotation. */
  function Merged<L>(lines: seq<L>, limit: nat): seq<L>
    requires limit >= 1
  {
    var full := |lines| / limit;
    if full == 0 then lines
    else
      assert full * limit <= |lines| && (full - 1) * limit == full * limit - limit && full >= 1;
      var last, begun := lines[(full - 1) * limit..full * limit], lines[full * limit..];
      if full % 2 == 1 then last + begun else if begun == [] then [] else begun + last
  }

  /** A merge that succeeds puts exactly that in place and leaves nothing else. */
  lemma MergedFileExactly<L>(compact: Option<seq<L>>, lines: seq<L>, limit: nat)
    requires limit >= 1
    ensures Compacted(AllWritten(Fresh(compact), lines, limit), true, true) == Fresh(Some(Merged(lines, limit)))
  {
    var s := AllWritten(Fresh(compact), lines, limit);
    var full := AllFilled(Fresh(compact), [], lines, limit, 0);
    assert [] + lines == lines;
    QuotientIs(|lines|, limit, full);
    if full == 0 {
      assert lines[0 * limit..] == lines;
      assert CompactContents(s) == lines;
    } else {
      var last, begun := lines[(full - 1) * limit..full * limit], lines[full * limit..];
      assert |last| == limit && Current(s) == begun && Older(s) == last;
      assert full % 2 == 1 ==> CompactContents(s) == last + begun;
    }
  }

  lemma QuotientIs(n: nat, limit: nat, full: nat)
    requires limit >= 1 && full * limit <= n < full * limit + limit
    ensures n / limit == full
  {
    var q := n / limit;
    assert q * limit <= n < q * limit + limit;
    if q < full { MoreMultiples(q, full, limit); }
    if full < q { MoreMultiples(full, q, limit); }
  }

  lemma MoreMultiples(q: nat, p: nat, d: nat)
    requires q < p
    ensures q * d + d <= p * d
  {
    var more := p - q - 1;
    assert p * d == q * d + d + more * d && more * d >= 0;
  }

  /** So what is merged is a suffix of what was written, long enough, when segment 1 is the current one or nothing has
      rotated, and the lines the segments held in some order unless segment 0 is the current one and empty. */
  lemma MergedFileKeepsEnough<L>(compact: Option<seq<L>>, lines: seq<L>, limit: nat)
    requires limit >= 1
    ensures var s := AllWritten(Fresh(compact), lines, limit);
            var file := Compacted(s, true, true).compact;
            && file.Some?
            && (s.current == 1 || |lines| < limit ==>
                  IsSuffix(file.value, lines) && |file.value| >= (if |lines| <= limit then |lines| else limit))
            && (s.seg0 != Some([]) ==> multiset(file.value) == multiset(Retained(s)))
            && (s.seg0 == Some([]) ==> file.value == [])
            && (s.seg0 == Some([]) <==> |lines| > 0 && |lines| % (2 * limit) == 0)
  {
    var s := AllWritten(Fresh(compact), lines, limit);
    var full := AllFilled(Fresh(compact), [], lines, limit, 0);
    assert [] + lines == lines;
    MergedFileExactly(compact, lines, limit);
    QuotientIs(|lines|, limit, full);
    SegmentsKeepEnough(compact, lines, limit);
    MergedKeeps(s, lines, limit, full);
    EmptySegment(s, lines, limit, full);
  }

  /** Segment 0 is there and empty just after a rotation onto it. */
  lemma EmptySegment<L>(s: Store<L>, lines: seq<L>, limit: nat, full: nat)
    requires limit >= 1 && Filled(s, lines, limit, full) && |lines| / limit == full
    ensures s.seg0 == Some([]) <==> |lines| > 0 && |lines| % (2 * limit) == 0
    ensures s.seg0 == Some([]) ==> Merged(lines, limit) == []
    ensures s.current == 1 || |lines| < limit ==> full == 0 || full % 2 == 1
  {
    EvenSegments(|lines|, limit, full);
    if full > 0 && full % 2 == 1 { assert |Older(s)| == limit; }
  }

  lemma MergedKeeps<L>(s: Store<L>, lines: seq<L>, limit: nat, full: nat)
    requires limit >= 1 && Filled(s, lines, limit, full) && |lines| / limit == full
    ensures full == 0 || full % 2 == 1 ==> Merged(lines, limit) == Retained(s) && IsSuffix(Retained(s), lines)
    ensures s.seg0 != Some([]) ==> multiset(Merged(lines, limit)) == multiset(Retained(s))
  {
    if full == 0 {
      assert lines[0 * limit..] == lines && Older(s) + lines == lines;
    } else {
      var last, begun := lines[(full - 1) * limit..full * limit], lines[full * limit..];
      assert last + begun == lines[(full - 1) * limit..] && Retained(s) == last + begun;
      assert multiset(begun + last) == multiset(last + begun);
    }
  }

  lemma EvenSegments(n: nat, limit: nat, full: nat)
    requires limit >= 1 && full * limit <= n < full * limit + limit
    ensures n % (2 * limit) == 0 <==> full % 2 == 0 && n == full * limit
  {
    var half := full / 2;
    if full % 2 == 0 {
      assert full == 2 * half && full * limit == half * (2 * limit);
      RemainderIs(n, 2 * limit, half);
    } else {
      assert full == 2 * half + 1 && full * limit == half * (2 * limit) + limit;
      RemainderIs(n, 2 * limit, half);
    }
  }

  lemma RemainderIs(n: nat, d: nat, q: nat)
    requires d >= 1 && q * d <= n < q * d + d
    ensures n % d == n - q * d
  {
    QuotientIs(n, d, q);
  }
}
