/** Lexical path handling (src/fs/RemotePath.cpp). A `char` stands for one byte.

    `Components` and `Resolve` give a path its meaning; `Normalised` is the string the loop in
    `Normalise` computes, and the theorems relate the two.
  */
module RemotePath {

  predicate IsAbsolute(path: string) {
    path != "" && path[0] == '/'
  }

  function Join(dir: string, leaf: string): string {
    if IsAbsolute(leaf) then leaf
    else if leaf == "" then dir
    else if dir == "" then leaf
    else if dir[|dir| - 1] == '/' then dir + leaf
    else dir + "/" + leaf
  }

  /** Trailing separators stripped, but never "/" reduced to nothing. */
  function Trimmed(path: string): string
    decreases |path|
  {
    if |path| > 1 && path[|path| - 1] == '/' then Trimmed(path[..|path| - 1]) else path
  }

  method TrimTrailingSlashes(path: string) returns (trimmed: string)
    ensures trimmed == Trimmed(path)
  {
    var end := |path|;
    assert path[..end] == path;
    while end > 1 && path[end - 1] == '/'
      invariant end <= |path| && Trimmed(path[..end]) == Trimmed(path)
    {
      assert path[..end][..end - 1] == path[..end - 1];
      end := end - 1;
    }
    trimmed := path[..end];
  }

  /** The position of the last slash, or -1. */
  function LastSlash(s: string): (pos: int)
    ensures -1 <= pos < |s| && (pos >= 0 ==> s[pos] == '/')
    ensures forall k | pos < k < |s| :: s[k] != '/'
  {
    if s == "" then -1 else if s[|s| - 1] == '/' then |s| - 1 else LastSlash(s[..|s| - 1])
  }

  function Leaf(path: string): string {
    if path == "" then ""
    else
      var trimmed := Trimmed(path);
      if trimmed == "/" then "/" else trimmed[LastSlash(trimmed) + 1..]
  }

  function Parent(path: string): string {
    if path == "" then ""
    else
      var trimmed := Trimmed(path);
      var pos := LastSlash(trimmed);
      if trimmed == "/" then "/"
      else if pos < 0 then "."
      else if pos == 0 then "/"
      else trimmed[..pos]
  }

  // ------------------------------------------------------- meaning of a path

  function Emit(word: string): seq<string> {
    if word == "" then [] else [word]
  }

  /** The words of `word + s` between slashes, empty ones dropped; `word` holds no slash. */
  function SplitFrom(word: string, s: string): seq<string>
    decreases |s|
  {
    if s == "" then Emit(word)
    else if s[0] == '/' then Emit(word) + SplitFrom("", s[1..])
    else SplitFrom(word + [s[0]], s[1..])
  }

  function Components(s: string): seq<string> {
    SplitFrom("", s)
  }

  /** What one component does to the components accumulated so far. */
  function Enter(parts: seq<string>, comp: string, absolute: bool): seq<string> {
    if comp == "." then parts
    else if comp == ".." then
      if parts != [] && parts[|parts| - 1] != ".." then parts[..|parts| - 1]
      else if !absolute then parts + [comp]
      else parts
    else parts + [comp]
  }

  function Resolve(parts: seq<string>, comps: seq<string>, absolute: bool): seq<string>
    decreases |comps|
  {
    if comps == [] then parts else Resolve(Enter(parts, comps[0], absolute), comps[1..], absolute)
  }

  function Parts(path: string): seq<string> {
    Resolve([], Components(path), IsAbsolute(path))
  }

  function Body(parts: seq<string>, absolute: bool): string {
    if parts == [] then ""
    else
      var out := Body(parts[..|parts| - 1], absolute);
      out + (if out != "" || absolute then "/" else "") + parts[|parts| - 1]
  }

  function Rendered(parts: seq<string>, absolute: bool): string {
    var out := Body(parts, absolute);
    if out != "" then out else if absolute then "/" else "."
  }

  function Normalised(path: string): string {
    if path == "" then "" else Rendered(Parts(path), IsAbsolute(path))
  }

  // ------------------------------------------------------------- the program

  /** The inner loop over separators. */
  method SkipSlashes(path: string, from: nat) returns (i: nat)
    requires from <= |path|
    ensures from <= i <= |path| && (i < |path| ==> path[i] != '/')
    ensures Components(path[i..]) == Components(path[from..])
  {
    i := from;
    while i < |path| && path[i] == '/'
      invariant from <= i <= |path|
      invariant Components(path[i..]) == Components(path[from..])
    {
      DropSlash(path[i..]);
      assert path[i..][1..] == path[i + 1..];
      i := i + 1;
    }
  }

  /** The inner loop over one component. */
  method SkipWord(path: string, start: nat) returns (i: nat)
    requires start <= |path| && (start < |path| ==> path[start] != '/')
    ensures start <= i <= |path| && (i == start <==> start == |path|)
    ensures start < i ==> Components(path[start..]) == [path[start..i]] + Components(path[i..])
  {
    i := start;
    while i < |path| && path[i] != '/'
      invariant start <= i <= |path|
      invariant '/' !in path[start..i]
    {
      i := i + 1;
    }
    if start < i {
      ComponentsTakeWord(path[start..i], path[i..]);
      assert path[start..] == path[start..i] + path[i..];
    }
  }

  lemma ResolveTakes(parts: seq<string>, comp: string, rest: seq<string>, absolute: bool)
    ensures Resolve(parts, [comp] + rest, absolute) == Resolve(Enter(parts, comp, absolute), rest, absolute)
  {
    assert ([comp] + rest)[1..] == rest;
  }

  /** The scanning half of `Normalise`. */
  method ReadParts(path: string) returns (parts: seq<string>)
    ensures parts == Parts(path)
  {
    var absolute := IsAbsolute(path);
    parts := [];
    var i := 0;
    assert path[0..] == path;
    while i < |path|
      invariant i <= |path|
      invariant Resolve(parts, Components(path[i..]), absolute) == Parts(path)
    {
      var start := SkipSlashes(path, i);
      i := SkipWord(path, start);
      if i == start { break; }
      var comp := path[start..i];
      ResolveTakes(parts, comp, Components(path[i..]), absolute);
      if comp == "." { continue; }
      if comp == ".." {
        if parts != [] && parts[|parts| - 1] != ".." {
          parts := parts[..|parts| - 1];
        } else if !absolute {
          parts := parts + [comp];
        }
        continue;
      }
      parts := parts + [comp];
    }
    assert path[i..] == "";
  }

  method Normalise(path: string) returns (out: string)
    ensures out == Normalised(path)
  {
    if path == "" { return ""; }
    var absolute := IsAbsolute(path);
    var parts := ReadParts(path);
    out := "";
    for k := 0 to |parts|
      invariant out == Body(parts[..k], absolute)
    {
      assert parts[..k + 1][..k] == parts[..k];
      if out != "" || absolute { out := out + "/"; }
      out := out + parts[k];
    }
    assert parts[..|parts|] == parts;
    if out == "" { return if absolute then "/" else "."; }
  }

  function StartsWith(s: string, prefix: string): bool {
    |prefix| <= |s| && s[..|prefix|] == prefix
  }

  predicate ContainsResult(dir: string, path: string) {
    var base, target := Normalised(dir), Normalised(path);
    base == target || StartsWith(target, if base == "/" then base else base + "/")
  }

  method Contains(dir: string, path: string) returns (inside: bool)
    ensures inside == ContainsResult(dir, path)
    ensures IsAbsolute(dir) && IsAbsolute(path) ==>
              inside == (Components(Normalised(dir)) <= Components(Normalised(path)))
  {
    if IsAbsolute(dir) && IsAbsolute(path) { ContainsIsComponentPrefix(dir, path); }
    var base := Normalise(dir);
    var target := Normalise(path);
    if base == target { return true; }
    var prefix := if base == "/" then base else base + "/";
    inside := StartsWith(target, prefix);
  }

  // ------------------------------------------------- components and strings

  predicate Word(w: string) {
    w != "" && '/' !in w
  }

  lemma {:induction false} SplitWord(word: string, w: string)
    requires '/' !in w
    ensures SplitFrom(word, w) == Emit(word + w)
    decreases |w|
  {
    if w == "" {
      assert word + w == word;
    } else {
      assert w[0] in w;
      SplitWord(word + [w[0]], w[1..]);
      assert word + [w[0]] + w[1..] == word + w;
    }
  }

  /** A slash separates: what stands on either side is split on its own. */
  lemma {:induction false} SplitAtSlash(word: string, a: string, b: string)
    ensures SplitFrom(word, a + "/" + b) == SplitFrom(word, a) + Components(b)
    decreases |a|
  {
    var s := a + "/" + b;
    if a == "" {
      assert s[1..] == b;
    } else {
      assert s[1..] == a[1..] + "/" + b;
      SplitAtSlash(if a[0] == '/' then "" else word + [a[0]], a[1..], b);
    }
  }

  lemma DropSlash(s: string)
    requires s != "" && s[0] == '/'
    ensures Components(s) == Components(s[1..])
  {}

  lemma ComponentsTakeWord(w: string, rest: string)
    requires Word(w) && (rest == "" || rest[0] == '/')
    ensures Components(w + rest) == [w] + Components(rest)
  {
    SplitWord("", w);
    assert "" + w == w;
    if rest == "" {
      assert w + rest == w;
    } else {
      assert w + rest == w + "/" + rest[1..];
      SplitAtSlash("", w, rest[1..]);
    }
  }

  lemma {:induction false} ComponentsAreWords(word: string, s: string)
    requires '/' !in word
    ensures forall c | c in SplitFrom(word, s) :: Word(c)
    decreases |s|
  {
    if s != "" { ComponentsAreWords(if s[0] == '/' then "" else word + [s[0]], s[1..]); }
  }

  // ------------------------------------------------------ resolved components

  /** What resolving leaves: words, no ".", and ".." only at the front of a relative path. */
  predicate Resolved(parts: seq<string>, absolute: bool) {
    && (forall c | c in parts :: Word(c) && c != ".")
    && (forall i | 0 <= i < |parts| && parts[i] == ".." :: !absolute && forall k | 0 <= k < i :: parts[k] == "..")
  }

  lemma {:induction false} ResolveIsResolved(parts: seq<string>, comps: seq<string>, absolute: bool)
    requires Resolved(parts, absolute) && forall c | c in comps :: Word(c)
    ensures Resolved(Resolve(parts, comps, absolute), absolute)
    decreases |comps|
  {
    if comps != [] {
      var next := Enter(parts, comps[0], absolute);
      assert Resolved(next, absolute) by {
        if comps[0] == ".." && next == parts + [comps[0]] && parts != [] {
          assert parts[|parts| - 1] == "..";
        }
      }
      ResolveIsResolved(next, comps[1..], absolute);
    }
  }

  lemma PartsAreResolved(path: string)
    ensures Resolved(Parts(path), IsAbsolute(path))
  {
    ComponentsAreWords("", path);
    ResolveIsResolved([], Components(path), IsAbsolute(path));
  }

  /** Resolving again changes nothing. */
  lemma {:induction false} ResolveResolved(parts: seq<string>, k: nat, absolute: bool)
    requires k <= |parts| && Resolved(parts, absolute)
    ensures Resolve(parts[..k], parts[k..], absolute) == parts
    decreases |parts| - k
  {
    if k < |parts| {
      assert parts[k] in parts;
      assert Enter(parts[..k], parts[k], absolute) == parts[..k + 1] by {
        assert parts[..k] + [parts[k]] == parts[..k + 1];
        if parts[k] == ".." && k > 0 { assert parts[k - 1] == ".."; }
      }
      assert parts[k..][1..] == parts[k + 1..];
      ResolveResolved(parts, k + 1, absolute);
    } else {
      assert parts[..k] == parts;
    }
  }

  lemma {:induction false} ComponentsOfBody(parts: seq<string>, absolute: bool)
    requires forall c | c in parts :: Word(c)
    ensures Components(Body(parts, absolute)) == parts
    ensures parts != [] ==> Body(parts, absolute) != "" && (IsAbsolute(Body(parts, absolute)) <==> absolute)
    decreases |parts|
  {
    if parts != [] {
      var front, last := parts[..|parts| - 1], parts[|parts| - 1];
      assert last in parts && last[0] in last;
      ComponentsOfBody(front, absolute);
      var out := Body(front, absolute);
      SplitWord("", last);
      assert "" + last == last;
      if out != "" || absolute { SplitAtSlash("", out, last); }
      else { assert out + "" + last == last; }
      assert front + [last] == parts;
    }
  }

  /** The components of the normalised string are the resolved components, "." standing for none. */
  lemma ComponentsOfNormalised(path: string)
    requires path != ""
    ensures Normalised(path) != "" && (IsAbsolute(Normalised(path)) <==> IsAbsolute(path))
    ensures Parts(Normalised(path)) == Parts(path)
    ensures Components(Normalised(path)) ==
              if Parts(path) == [] && !IsAbsolute(path) then ["."] else Parts(path)
  {
    var absolute := IsAbsolute(path);
    var parts := Parts(path);
    PartsAreResolved(path);
    ComponentsOfBody(parts, absolute);
    ResolveResolved(parts, 0, absolute);
    assert parts[..0] == [] && parts[0..] == parts;
    SplitWord("", ".");
    DropSlash("/");
  }

  // ------------------------------------------------------------ main results

  lemma NormaliseIsIdempotent(path: string)
    ensures Normalised(Normalised(path)) == Normalised(path)
  {
    if path != "" { ComponentsOfNormalised(path); }
  }

  /** Two paths normalise alike exactly when they are anchored alike and resolve alike. */
  lemma NormaliseDecidesEquality(a: string, b: string)
    requires a != "" && b != ""
    ensures Normalised(a) == Normalised(b) <==> IsAbsolute(a) == IsAbsolute(b) && Parts(a) == Parts(b)
  {
    ComponentsOfNormalised(a);
    ComponentsOfNormalised(b);
  }

  lemma {:induction false} BodyExtends(front: seq<string>, more: seq<string>, absolute: bool)
    requires more != [] && (front != [] || absolute) && forall c | c in front + more :: Word(c)
    ensures StartsWith(Body(front + more, absolute), Body(front, absolute) + "/")
    decreases |more|
  {
    ComponentsOfBody(front, absolute);
    var all := front + more;
    assert forall c | c in front :: c in all;
    ComponentsOfBody(front, absolute);
    assert all[..|all| - 1] == front + more[..|more| - 1];
    if |more| == 1 {
      assert all[..|all| - 1] == front;
    } else {
      assert forall c | c in front + more[..|more| - 1] :: c in all;
      BodyExtends(front, more[..|more| - 1], absolute);
    }
  }

  /** A path that begins with a directory's spelling and a slash resolves to something below it. */
  lemma SpelledInsideIsInside(dir: string, path: string)
    requires dir != "" && path != "" && Normalised(dir) != "/" && StartsWith(Normalised(path), Normalised(dir) + "/")
    ensures IsAbsolute(dir) == IsAbsolute(path) && Parts(dir) <= Parts(path) && (IsAbsolute(dir) || Parts(dir) != [])
  {
    var base, target := Normalised(dir), Normalised(path);
    ComponentsOfNormalised(path);
    ComponentsOfNormalised(dir);
    PartsAreResolved(path);
    var rest := target[|base| + 1..];
    assert target == base + "/" + rest;
    SplitAtSlash("", base, rest);
    assert target[0] == base[0];
    assert Components(base) <= Components(target);
    if base == "." { assert Components(target)[0] in Components(target); }
  }

  /** A path that resolves to something strictly below a directory begins with its spelling. */
  lemma InsideIsSpelledInside(dir: string, path: string)
    requires dir != "" && path != "" && IsAbsolute(dir) == IsAbsolute(path)
    requires Parts(dir) < Parts(path) && (IsAbsolute(dir) || Parts(dir) != [])
    ensures ContainsResult(dir, path)
  {
    PartsAreResolved(path);
    var dp, tp := Parts(dir), Parts(path);
    var more := tp[|dp|..];
    assert tp == dp + more;
    BodyExtends(dp, more, IsAbsolute(dir));
    ComponentsOfBody(dp, IsAbsolute(dir));
  }

  lemma RootIsTheEmptyDirectory(dir: string, path: string)
    requires dir != "" && path != "" && Normalised(dir) == "/"
    ensures IsAbsolute(dir) && Parts(dir) == []
    ensures IsAbsolute(path) <==> ContainsResult(dir, path)
  {
    ComponentsOfNormalised(path);
    ComponentsOfNormalised(dir);
    assert "/"[..1] == "/";
    DropSlash("/");
    if IsAbsolute(path) { assert Normalised(path)[..1] == "/"; }
  }

  /** Every case of `Contains`, the empty and the relative ones included. Only a relative
      directory that resolves to nothing (".") is treated as containing less than it does. */
  lemma ContainsExactly(dir: string, path: string)
    ensures ContainsResult(dir, path) <==>
              if dir == "" then path == "" || IsAbsolute(path)
              else
                && path != "" && IsAbsolute(dir) == IsAbsolute(path)
                && Parts(dir) <= Parts(path)
                && (IsAbsolute(dir) || Parts(dir) != [] || Parts(path) == [])
  {
    if dir == "" {
      assert "" + "/" == "/";
      if path != "" { ComponentsOfNormalised(path); }
    } else if path != "" {
      var base, target := Normalised(dir), Normalised(path);
      NormaliseDecidesEquality(dir, path);
      if base != "/" && StartsWith(target, base + "/") { SpelledInsideIsInside(dir, path); }
      if IsAbsolute(dir) == IsAbsolute(path) && Parts(dir) < Parts(path) && (IsAbsolute(dir) || Parts(dir) != []) {
        InsideIsSpelledInside(dir, path);
      }
      if base == "/" { RootIsTheEmptyDirectory(dir, path); }
    }
  }

  lemma ContainsIsComponentPrefix(dir: string, path: string)
    requires IsAbsolute(dir) && IsAbsolute(path)
    ensures ContainsResult(dir, path) <==> Components(Normalised(dir)) <= Components(Normalised(path))
  {
    ContainsExactly(dir, path);
    ComponentsOfNormalised(dir);
    ComponentsOfNormalised(path);
  }

  /** The relative directory "." is where the component reading fails. */
  lemma DotContainsNothing()
    ensures Parts(".") <= Parts("a") && !ContainsResult(".", "a")
  {
    SplitWord("", ".");
    assert "" + "." == ".";
    ContainsExactly(".", "a");
    SplitWord("", "a");
    assert "" + "a" == "a";
    assert Parts("a") == ["a"];
  }

  lemma ContainsIsReflexive(path: string)
    ensures ContainsResult(path, path)
  {}

  lemma ContainsIsTransitive(a: string, b: string, c: string)
    requires ContainsResult(a, b) && ContainsResult(b, c)
    ensures ContainsResult(a, c)
  {
    ContainsExactly(a, b);
    ContainsExactly(b, c);
    ContainsExactly(a, c);
  }

  lemma {:induction false} ResolveAppends(parts: seq<string>, a: seq<string>, b: seq<string>, absolute: bool)
    ensures Resolve(parts, a + b, absolute) == Resolve(Resolve(parts, a, absolute), b, absolute)
    decreases |a|
  {
    if a == [] {
      assert a + b == b;
    } else {
      assert (a + b)[1..] == a[1..] + b;
      ResolveAppends(Enter(parts, a[0], absolute), a[1..], b, absolute);
    }
  }

  predicate LeafName(name: string) {
    Word(name) && name != "." && name != ".."
  }

  lemma ComponentsOfJoin(dir: string, name: string)
    requires dir != "" && Word(name)
    ensures Join(dir, name) != "" && IsAbsolute(Join(dir, name)) == IsAbsolute(dir)
    ensures Components(Join(dir, name)) == Components(dir) + [name]
  {
    assert name[0] in name;
    SplitWord("", name);
    assert "" + name == name;
    if dir[|dir| - 1] == '/' {
      var front := dir[..|dir| - 1];
      SplitAtSlash("", front, "");
      SplitAtSlash("", front, name);
      assert front + "/" + "" == dir && front + "/" + name == dir + name;
      assert Components(front) + [] == Components(front);
    } else {
      SplitAtSlash("", dir, name);
    }
  }

  /** A listing's entry always lies inside the directory it was listed in, one level down. */
  lemma JoinedLeafIsInside(dir: string, name: string)
    requires IsAbsolute(dir) && LeafName(name)
    ensures IsAbsolute(Join(dir, name)) && Parts(Join(dir, name)) == Parts(dir) + [name]
    ensures ContainsResult(dir, Join(dir, name)) && !ContainsResult(Join(dir, name), dir)
  {
    var joined := Join(dir, name);
    ComponentsOfJoin(dir, name);
    ResolveAppends([], Components(dir), [name], true);
    ResolveTakes(Parts(dir), name, [], true);
    assert [name] + [] == [name];
    ContainsExactly(dir, joined);
    ContainsExactly(joined, dir);
  }

  lemma LastSlashOfJoin(front: string, name: string)
    requires '/' !in name
    ensures LastSlash(front + "/" + name) == |front|
  {
    var s := front + "/" + name;
    assert s[|front|] == '/';
  }

  /** A joined path is a front, a slash and the leaf; the front denotes the directory. */
  lemma JoinHasFront(dir: string, name: string) returns (front: string)
    requires IsAbsolute(dir) && Word(name)
    ensures Join(dir, name) == front + "/" + name
    ensures Components(front) == Components(dir) && (front == "" || IsAbsolute(front))
  {
    assert name[0] in name;
    if dir[|dir| - 1] == '/' {
      front := dir[..|dir| - 1];
      SplitAtSlash("", front, "");
      assert front + "/" + "" == dir;
      assert Components(front) + [] == Components(front);
    } else {
      front := dir;
    }
  }

  /** Taking a joined path apart again gives the leaf and the directory it was made of. */
  lemma ParentAndLeafUndoJoin(dir: string, name: string)
    requires IsAbsolute(dir) && LeafName(name)
    ensures Leaf(Join(dir, name)) == name
    ensures IsAbsolute(Parent(Join(dir, name))) && Parts(Parent(Join(dir, name))) == Parts(dir)
  {
    var front := JoinHasFront(dir, name);
    TakeOffLastWord(front, name);
    if front == "" {
      DropSlash("/");
      assert "/"[1..] == "";
    }
  }

  lemma TakeOffLastWord(front: string, name: string)
    requires Word(name)
    ensures var joined := front + "/" + name;
            Leaf(joined) == name && Parent(joined) == if front == "" then "/" else front
  {
    var joined := front + "/" + name;
    LastSlashOfJoin(front, name);
    assert name[|name| - 1] in name;
    assert Trimmed(joined) == joined;
    assert joined[|front| + 1..] == name && joined[..|front|] == front;
  }
}
