/** Planning and executing the removal of a remote tree (src/fs/RemoteDeleter.cpp).

    A plan is made of string paths, as listings and `Join` give them. What they denote is read off a
    file system that maps component paths to kinds; a path string denotes its resolved components.
    Callbacks are run in order; an owner destroyed in the middle is left out.
  */
module RemoteDeleter {
  import opened Style
  import opened RemotePath

  const MAX_DELETE_DEPTH := 64

  datatype Entry = Entry(name: string, isDir: bool, isSymlink: bool, size: nat)
  {
    predicate RealDir() { isDir && !isSymlink }
  }

  /** A listing may fail and still return what it read. */
  datatype Listing = Listing(entries: seq<Entry>, failed: bool)

  datatype Step<P> = Step(path: P, isDir: bool, depth: nat)

  datatype DeletePlan = DeletePlan(steps: seq<Step<string>>, fileCount: nat, dirCount: nat, totalBytes: nat, failed: bool)

  datatype DeleteTarget = DeleteTarget(path: string, isDir: bool, isSymlink: bool, size: nat)

  datatype Pending = Pending(path: string, depth: nat)

  type Lister = string -> Listing

  // ------------------------------------------------------------ the walk

  function ChildSteps(dir: Pending, entries: seq<Entry>): seq<Step<string>> {
    if entries == [] then []
    else [Step(Join(dir.path, entries[0].name), entries[0].RealDir(), dir.depth + 1)] + ChildSteps(dir, entries[1..])
  }

  /** The child directories to descend into: real ones above the depth limit. */
  function ChildDirs(dir: Pending, entries: seq<Entry>): (r: seq<Pending>)
    ensures forall p | p in r :: p.depth == dir.depth + 1 < MAX_DELETE_DEPTH
  {
    if entries == [] then []
    else if entries[0].RealDir() && dir.depth + 1 < MAX_DELETE_DEPTH then
      [Pending(Join(dir.path, entries[0].name), dir.depth + 1)] + ChildDirs(dir, entries[1..])
    else ChildDirs(dir, entries[1..])
  }

  predicate Shallow(pending: seq<Pending>, least: nat) {
    forall p | p in pending :: least <= p.depth < MAX_DELETE_DEPTH
  }

  /** How many listings expanding one directory takes; finite because of the depth limit. */
  function Weight(list: Lister, dir: Pending): nat
    requires dir.depth < MAX_DELETE_DEPTH
    decreases MAX_DELETE_DEPTH - dir.depth, 0
  {
    1 + TotalWeight(list, ChildDirs(dir, list(dir.path).entries), dir.depth + 1)
  }

  function TotalWeight(list: Lister, pending: seq<Pending>, least: nat): nat
    requires Shallow(pending, least) && least <= MAX_DELETE_DEPTH
    decreases MAX_DELETE_DEPTH - least, |pending| + 1
  {
    if pending == [] then 0 else Weight(list, pending[0]) + TotalWeight(list, pending[1..], least)
  }

  lemma {:induction false} WeightAppends(list: Lister, a: seq<Pending>, b: seq<Pending>, least: nat)
    requires Shallow(a, 0) && Shallow(b, least) && least <= MAX_DELETE_DEPTH
    ensures TotalWeight(list, a + b, 0) == TotalWeight(list, a, 0) + TotalWeight(list, b, least)
    decreases |a|, |b|
  {
    if a != [] {
      assert (a + b)[1..] == a[1..] + b;
      WeightAppends(list, a[1..], b, least);
    } else {
      assert a + b == b;
      if b != [] {
        assert a + b[1..] == b[1..];
        WeightAppends(list, a, b[1..], least);
      }
    }
  }

  lemma WeightDrops(list: Lister, pending: seq<Pending>)
    requires pending != [] && Shallow(pending, 0)
    ensures var dir := pending[0];
            var next := pending[1..] + ChildDirs(dir, list(dir.path).entries);
            Shallow(next, 0) && TotalWeight(list, next, 0) < TotalWeight(list, pending, 0)
  {
    var dir := pending[0];
    WeightAppends(list, pending[1..], ChildDirs(dir, list(dir.path).entries), dir.depth + 1);
  }

  /** The steps in the order the breadth-first walk records them. */
  function Walked(list: Lister, pending: seq<Pending>, steps: seq<Step<string>>): seq<Step<string>>
    requires Shallow(pending, 0)
    decreases TotalWeight(list, pending, 0)
  {
    if pending == [] then steps
    else
      var dir := pending[0];
      var entries := list(dir.path).entries;
      WeightDrops(list, pending);
      Walked(list, pending[1..] + ChildDirs(dir, entries), steps + ChildSteps(dir, entries))
  }

  /** The steps at one depth, in order. */
  function AtDepth<P>(steps: seq<Step<P>>, depth: nat): seq<Step<P>> {
    if steps == [] then []
    else if steps[0].depth == depth then [steps[0]] + AtDepth(steps[1..], depth)
    else AtDepth(steps[1..], depth)
  }

  /** The stable sort by descending depth, for steps no deeper than `depth`. */
  function DeepestFirst<P>(steps: seq<Step<P>>, depth: nat): seq<Step<P>> {
    if depth == 0 then AtDepth(steps, 0) else AtDepth(steps, depth) + DeepestFirst(steps, depth - 1)
  }

  function PlannedSteps(list: Lister, target: DeleteTarget): seq<Step<string>> {
    if !target.isDir || target.isSymlink then [Step(target.path, false, 0)]
    else DeepestFirst(Walked(list, [Pending(target.path, 0)], [Step(target.path, true, 0)]), MAX_DELETE_DEPTH)
  }

  function AllPlannedSteps(list: Lister, targets: seq<DeleteTarget>): seq<Step<string>> {
    if targets == [] then []
    else AllPlannedSteps(list, targets[..|targets| - 1]) + PlannedSteps(list, targets[|targets| - 1])
  }

  /** What one listing adds to the total: everything in it that is not a real directory. */
  function EntryBytes(entries: seq<Entry>): nat {
    if entries == [] then 0 else (if entries[0].RealDir() then 0 else entries[0].size) + EntryBytes(entries[1..])
  }

  /** The bytes the walk counts, and whether any of its listings failed. */
  function WalkTally(list: Lister, pending: seq<Pending>): (nat, bool)
    requires Shallow(pending, 0)
    decreases TotalWeight(list, pending, 0)
  {
    if pending == [] then (0, false)
    else
      var listing := list(pending[0].path);
      WeightDrops(list, pending);
      var rest := WalkTally(list, pending[1..] + ChildDirs(pending[0], listing.entries));
      (EntryBytes(listing.entries) + rest.0, listing.failed || rest.1)
  }

  /** The counts a plan shows the user are those of its steps. */
  predicate Counted(plan: DeletePlan) {
    plan.dirCount == Count(plan.steps, true) && plan.fileCount + plan.dirCount == |plan.steps|
  }

  /** One listing's rows: a step for each, and the real directories that are still to be listed. */
  method RecordEntries(dir: Pending, entries: seq<Entry>)
    returns (dirs: seq<Pending>, steps: seq<Step<string>>, fileCount: nat, dirCount: nat, totalBytes: nat)
    requires dir.depth < MAX_DELETE_DEPTH
    ensures dirs == ChildDirs(dir, entries) && steps == ChildSteps(dir, entries) && totalBytes == EntryBytes(entries)
    ensures dirCount == Count(steps, true) && fileCount + dirCount == |steps|
    ensures forall s | s in steps :: s.depth <= MAX_DELETE_DEPTH
  {
    dirs, steps, fileCount, dirCount, totalBytes := [], [], 0, 0, 0;
    assert entries[0..] == entries;
    for i := 0 to |entries|
      invariant dirs + ChildDirs(dir, entries[i..]) == ChildDirs(dir, entries)
      invariant steps + ChildSteps(dir, entries[i..]) == ChildSteps(dir, entries)
      invariant totalBytes + EntryBytes(entries[i..]) == EntryBytes(entries)
      invariant dirCount == Count(steps, true) && fileCount + dirCount == |steps|
      invariant forall s | s in steps :: s.depth <= MAX_DELETE_DEPTH
    {
      var e := entries[i];
      assert entries[i..][0] == e && entries[i..][1..] == entries[i + 1..];
      var child := Join(dir.path, e.name);
      var childDepth := dir.depth + 1;
      ghost var rest := entries[i + 1..];
      CountAppends(steps, [Step(child, e.RealDir(), childDepth)], true);
      ConcatAssoc(steps, [Step(child, e.RealDir(), childDepth)], ChildSteps(dir, rest));
      ConcatAssoc(dirs, [Pending(child, childDepth)], ChildDirs(dir, rest));
      steps := steps + [Step(child, e.RealDir(), childDepth)];
      if e.RealDir() {
        dirCount := dirCount + 1;
        if childDepth < MAX_DELETE_DEPTH { dirs := dirs + [Pending(child, childDepth)]; }
      } else {
        fileCount := fileCount + 1;
        totalBytes := totalBytes + e.size;
      }
    }
  }

  /** The bytes below a target, and whether a listing failed. */
  function TargetTally(list: Lister, target: DeleteTarget): (nat, bool) {
    if !target.isDir || target.isSymlink then (target.size, false) else WalkTally(list, [Pending(target.path, 0)])
  }

  /** The bytes below all targets, and whether any of them failed. */
  function AllTally(list: Lister, targets: seq<DeleteTarget>): (nat, bool) {
    if targets == [] then (0, false)
    else
      var (done, last) := (AllTally(list, targets[..|targets| - 1]), TargetTally(list, targets[|targets| - 1]));
      (done.0 + last.0, done.1 || last.1)
  }

  /** A failure anywhere is a failure of the whole. */
  lemma {:induction false} FailedIffAny(list: Lister, targets: seq<DeleteTarget>)
    ensures AllTally(list, targets).1 <==> exists t :: t in targets && TargetTally(list, t).1
    decreases |targets|
  {
    if targets != [] {
      var n := |targets| - 1;
      FailedIffAny(list, targets[..n]);
      assert targets == targets[..n] + [targets[n]];
      assert forall t :: t in targets <==> t in targets[..n] || t == targets[n];
    }
  }

  method PlanTarget(list: Lister, target: DeleteTarget) returns (plan: DeletePlan)
    ensures plan.steps == PlannedSteps(list, target) && Counted(plan)
    ensures (plan.totalBytes, plan.failed) == TargetTally(list, target)
  {
    if !target.isDir || target.isSymlink {
      return DeletePlan([Step(target.path, false, 0)], 1, 0, target.size, false);
    }
    var pending := [Pending(target.path, 0)];
    var steps := [Step(target.path, true, 0)];
    var fileCount: nat, dirCount: nat, totalBytes: nat, failed := 0, 1, 0, false;
    ghost var all := WalkTally(list, pending);
    while pending != []
      invariant Shallow(pending, 0)
      invariant forall s | s in steps :: s.depth <= MAX_DELETE_DEPTH
      invariant Walked(list, pending, steps) == Walked(list, [Pending(target.path, 0)], [Step(target.path, true, 0)])
      invariant dirCount == Count(steps, true) && fileCount + dirCount == |steps|
      invariant totalBytes + WalkTally(list, pending).0 == all.0 && (failed || WalkTally(list, pending).1) == all.1
      decreases TotalWeight(list, pending, 0)
    {
      WeightDrops(list, pending);
      var dir := pending[0];
      var listing := list(dir.path);
      if listing.failed { failed := true; }
      var dirs, found, files, subdirs, bytes := RecordEntries(dir, listing.entries);
      CountAppends(steps, found, true);
      pending, steps := pending[1..] + dirs, steps + found;
      fileCount, dirCount, totalBytes := fileCount + files, dirCount + subdirs, totalBytes + bytes;
    }
    plan := DeletePlan(DeepestFirst(steps, MAX_DELETE_DEPTH), fileCount, dirCount, totalBytes, failed);
    SortKeepsCount(steps, MAX_DELETE_DEPTH, true);
    SortKeepsCount(steps, MAX_DELETE_DEPTH, false);
    CountAll(steps);
    CountAll(plan.steps);
  }

  function Merged(a: DeletePlan, b: DeletePlan): DeletePlan {
    DeletePlan(a.steps + b.steps, a.fileCount + b.fileCount, a.dirCount + b.dirCount, a.totalBytes + b.totalBytes, a.failed || b.failed)
  }

  lemma MergingCounts(a: DeletePlan, b: DeletePlan)
    requires Counted(a) && Counted(b)
    ensures Counted(Merged(a, b))
  {
    CountAppends(a.steps, b.steps, true);
  }

  lemma OneMoreTarget(list: Lister, targets: seq<DeleteTarget>, index: nat)
    requires index < |targets|
    ensures var done, more := targets[..index], targets[..index + 1];
            && AllPlannedSteps(list, more) == AllPlannedSteps(list, done) + PlannedSteps(list, targets[index])
            && AllTally(list, more).0 == AllTally(list, done).0 + TargetTally(list, targets[index]).0
            && AllTally(list, more).1 == (AllTally(list, done).1 || TargetTally(list, targets[index]).1)
  {
    var more := targets[..index + 1];
    assert more[..index] == targets[..index] && more[|more| - 1] == targets[index];
  }

  /** Targets are planned one after the other and their plans merged. */
  method PlanAll(list: Lister, targets: seq<DeleteTarget>) returns (merged: DeletePlan)
    ensures merged.steps == AllPlannedSteps(list, targets) && Counted(merged)
    ensures (merged.totalBytes, merged.failed) == AllTally(list, targets)
  {
    merged := DeletePlan([], 0, 0, 0, false);
    for index := 0 to |targets|
      invariant merged.steps == AllPlannedSteps(list, targets[..index]) && Counted(merged)
      invariant merged.totalBytes == AllTally(list, targets[..index]).0
      invariant merged.failed == AllTally(list, targets[..index]).1
    {
      OneMoreTarget(list, targets, index);
      var plan := PlanTarget(list, targets[index]);
      MergingCounts(merged, plan);
      merged := Merged(merged, plan);
    }
    assert targets[..|targets|] == targets;
  }

  // -------------------------------------------------------------- sorting

  lemma {:induction false} AtDepthCount<P>(steps: seq<Step<P>>, depth: nat, s: Step<P>)
    ensures multiset(AtDepth(steps, depth))[s] == if s.depth == depth then multiset(steps)[s] else 0
    decreases |steps|
  {
    if steps != [] {
      AtDepthCount(steps[1..], depth, s);
      assert steps == [steps[0]] + steps[1..];
    }
  }

  lemma MultisetAppends<T>(a: seq<T>, b: seq<T>, x: T)
    ensures multiset(a + b)[x] == multiset(a)[x] + multiset(b)[x]
  {
    assert multiset(a + b) == multiset(a) + multiset(b);
  }

  lemma {:induction false} SortIsPermutation<P>(steps: seq<Step<P>>, depth: nat, s: Step<P>)
    ensures multiset(DeepestFirst(steps, depth))[s] == if s.depth <= depth then multiset(steps)[s] else 0
    decreases depth
  {
    AtDepthCount(steps, depth, s);
    if depth > 0 {
      MultisetAppends(AtDepth(steps, depth), DeepestFirst(steps, depth - 1), s);
      SortIsPermutation(steps, depth - 1, s);
    }
  }

  /** How many steps there are, or how many of them remove directories. */
  function Count<P>(steps: seq<Step<P>>, dirsOnly: bool): nat {
    if steps == [] then 0 else (if dirsOnly ==> steps[0].isDir then 1 else 0) + Count(steps[1..], dirsOnly)
  }

  lemma {:induction false} CountAppends<P>(a: seq<Step<P>>, b: seq<Step<P>>, dirsOnly: bool)
    ensures Count(a + b, dirsOnly) == Count(a, dirsOnly) + Count(b, dirsOnly)
    decreases |a|
  {
    if a == [] { assert a + b == b; }
    else {
      assert (a + b)[1..] == a[1..] + b;
      CountAppends(a[1..], b, dirsOnly);
    }
  }

  lemma {:induction false} CountAll<P>(steps: seq<Step<P>>)
    ensures Count(steps, false) == |steps|
    decreases |steps|
  {
    if steps != [] { CountAll(steps[1..]); }
  }

  function CountUpTo<P>(steps: seq<Step<P>>, depth: nat, dirsOnly: bool): nat {
    if steps == [] then 0
    else (if steps[0].depth <= depth && (dirsOnly ==> steps[0].isDir) then 1 else 0) + CountUpTo(steps[1..], depth, dirsOnly)
  }

  lemma {:induction false} AtDepthLength<P>(steps: seq<Step<P>>, depth: nat, dirsOnly: bool)
    ensures CountUpTo(steps, depth, dirsOnly)
         == Count(AtDepth(steps, depth), dirsOnly) + if depth == 0 then 0 else CountUpTo(steps, depth - 1, dirsOnly)
    decreases |steps|
  {
    if steps != [] { AtDepthLength(steps[1..], depth, dirsOnly); }
  }

  lemma {:induction false} SortLength<P>(steps: seq<Step<P>>, depth: nat, dirsOnly: bool)
    ensures Count(DeepestFirst(steps, depth), dirsOnly) == CountUpTo(steps, depth, dirsOnly)
    decreases depth
  {
    AtDepthLength(steps, depth, dirsOnly);
    if depth > 0 {
      CountAppends(AtDepth(steps, depth), DeepestFirst(steps, depth - 1), dirsOnly);
      SortLength(steps, depth - 1, dirsOnly);
    }
  }

  lemma {:induction false} AllCounted<P>(steps: seq<Step<P>>, depth: nat, dirsOnly: bool)
    requires forall s | s in steps :: s.depth <= depth
    ensures CountUpTo(steps, depth, dirsOnly) == Count(steps, dirsOnly)
    decreases |steps|
  {
    if steps != [] {
      assert steps[0] in steps;
      AllCounted(steps[1..], depth, dirsOnly);
    }
  }

  lemma SortKeepsCount<P>(steps: seq<Step<P>>, depth: nat, dirsOnly: bool)
    requires forall s | s in steps :: s.depth <= depth
    ensures Count(DeepestFirst(steps, depth), dirsOnly) == Count(steps, dirsOnly)
  {
    SortLength(steps, depth, dirsOnly);
    AllCounted(steps, depth, dirsOnly);
  }

  predicate DepthDescends<P>(steps: seq<Step<P>>) {
    forall i, j | 0 <= i < j < |steps| :: steps[i].depth >= steps[j].depth
  }

  lemma {:induction false} AtDepthHasDepth<P>(steps: seq<Step<P>>, depth: nat)
    ensures forall s | s in AtDepth(steps, depth) :: s.depth == depth
    decreases |steps|
  {
    if steps != [] { AtDepthHasDepth(steps[1..], depth); }
  }

  lemma {:induction false} SortDescends<P>(steps: seq<Step<P>>, depth: nat)
    ensures DepthDescends(DeepestFirst(steps, depth))
    ensures forall s | s in DeepestFirst(steps, depth) :: s.depth <= depth
    decreases depth
  {
    AtDepthHasDepth(steps, depth);
    if depth > 0 {
      SortDescends(steps, depth - 1);
      var front, rest := AtDepth(steps, depth), DeepestFirst(steps, depth - 1);
      var all: seq<Step<P>> := front + rest;
      forall i, j | 0 <= i < j < |all| ensures all[i].depth >= all[j].depth {
        assert i < |front| ==> all[i] in front;
        assert j >= |front| ==> all[j] in rest;
        assert j < |front| ==> all[j] in front;
      }
    }
  }

  // ----------------------------------------------------------- what paths denote

  type Path = seq<string>

  datatype Kind = File | Link | Directory

  type FileSystem = map<Path, Kind>

  /** Everything but the root stands in a directory. */
  ghost predicate IsTree(fs: FileSystem) {
    forall q: Path | q in fs && q != [] :: q[..|q| - 1] in fs && fs[q[..|q| - 1]] == Directory
  }

  ghost predicate IsEmptyDir(fs: FileSystem, path: Path) {
    forall q: Path | q in fs && q != [] :: q[..|q| - 1] != path
  }

  /** unlink takes anything but a directory; rmdir takes an empty directory. */
  ghost predicate CanRemove(fs: FileSystem, path: Path, isDir: bool) {
    path in fs && if isDir then fs[path] == Directory && IsEmptyDir(fs, path) else fs[path] != Directory
  }

  /** `path` properly below `dir`. */
  predicate Below(dir: Path, path: Path) {
    |dir| < |path| && path[..|dir|] == dir
  }

  function Denotes(s: Step<string>): Step<Path> {
    Step(Parts(s.path), s.isDir, s.depth)
  }

  function Denoted(steps: seq<Step<string>>): (r: seq<Step<Path>>)
    ensures |r| == |steps| && forall i | 0 <= i < |r| :: r[i] == Denotes(steps[i])
  {
    if steps == [] then [] else [Denotes(steps[0])] + Denoted(steps[1..])
  }

  /** A listing tells the truth about a directory: each child once, with its kind. */
  ghost predicate TrueListing(fs: FileSystem, dir: Path, entries: seq<Entry>) {
    && (forall i, j | 0 <= i < j < |entries| :: entries[i].name != entries[j].name)
    && (forall e | e in entries ::
          LeafName(e.name) && dir + [e.name] in fs && (e.RealDir() <==> fs[dir + [e.name]] == Directory))
    && (forall name: string | dir + [name] in fs :: exists e :: e in entries && e.name == name)
  }

  ghost predicate TrueLister(fs: FileSystem, list: Lister) {
    forall path: string | IsAbsolute(path) && Parts(path) in fs && fs[Parts(path)] == Directory ::
      TrueListing(fs, Parts(path), list(path).entries)
  }

  /** A step for something below `dir`, no deeper than the limit. */
  predicate PlannedBelow(fs: FileSystem, dir: Path, depth: nat, s: Step<Path>) {
    && s.path in fs && Below(dir, s.path)
    && s.depth == depth + |s.path| - |dir| <= MAX_DELETE_DEPTH
    && s.isDir == (fs[s.path] == Directory)
  }

  // --------------------------------------------- what the walk records, counted

  function One(b: bool): nat { if b then 1 else 0 }

  /** What one entry adds: its own step, and what the walk will find below it. */
  function EntryAdds(fs: FileSystem, dir: Path, depth: nat, e: Entry, s: Step<Path>): nat {
    One(s == Step(dir + [e.name], e.RealDir(), depth + 1))
    + One(e.RealDir() && depth + 1 < MAX_DELETE_DEPTH && PlannedBelow(fs, dir + [e.name], depth + 1, s))
  }

  function OwnSteps(dir: Path, depth: nat, entries: seq<Entry>, s: Step<Path>): nat {
    if entries == [] then 0
    else One(s == Step(dir + [entries[0].name], entries[0].RealDir(), depth + 1)) + OwnSteps(dir, depth, entries[1..], s)
  }

  function FoundBelow(fs: FileSystem, dir: Path, depth: nat, entries: seq<Entry>, s: Step<Path>): nat {
    if entries == [] then 0
    else
      One(entries[0].RealDir() && depth + 1 < MAX_DELETE_DEPTH && PlannedBelow(fs, dir + [entries[0].name], depth + 1, s))
      + FoundBelow(fs, dir, depth, entries[1..], s)
  }

  function EntriesAdd(fs: FileSystem, dir: Path, depth: nat, entries: seq<Entry>, s: Step<Path>): nat {
    if entries == [] then 0
    else EntryAdds(fs, dir, depth, entries[0], s) + EntriesAdd(fs, dir, depth, entries[1..], s)
  }

  lemma {:induction false} PrefixesExist(fs: FileSystem, path: Path, n: nat)
    requires IsTree(fs) && path in fs && n < |path|
    ensures path[..n] in fs && fs[path[..n]] == Directory
    decreases |path| - n
  {
    var parent := path[..|path| - 1];
    assert parent in fs && fs[parent] == Directory;
    if n < |parent| {
      PrefixesExist(fs, parent, n);
      assert parent[..n] == path[..n];
    } else {
      assert parent == path[..n];
    }
  }

  lemma OneEntryAdds(fs: FileSystem, dir: Path, depth: nat, e: Entry, s: Step<Path>)
    requires IsTree(fs) && dir + [e.name] in fs && (e.RealDir() <==> fs[dir + [e.name]] == Directory)
    requires depth < MAX_DELETE_DEPTH
    ensures EntryAdds(fs, dir, depth, e, s) ==
              One(PlannedBelow(fs, dir, depth, s) && s.path[|dir|] == e.name)
  {
    var child := dir + [e.name];
    assert child[..|dir|] == dir;
    if PlannedBelow(fs, dir, depth, s) && s.path[|dir|] == e.name {
      assert s.path[..|dir| + 1] == child;
      if |s.path| == |child| {
        assert s.path == child;
      } else {
        PrefixesExist(fs, s.path, |child|);
      }
    }
    if PlannedBelow(fs, child, depth + 1, s) {
      assert s.path[..|dir|] == s.path[..|child|][..|dir|] == dir;
      assert s.path[|dir|] == s.path[..|child|][|dir|] == e.name;
    }
  }

  lemma {:induction false} ListedEntriesAdd(fs: FileSystem, dir: Path, depth: nat, entries: seq<Entry>, s: Step<Path>)
    requires IsTree(fs) && depth < MAX_DELETE_DEPTH
    requires forall i, j | 0 <= i < j < |entries| :: entries[i].name != entries[j].name
    requires forall e | e in entries :: dir + [e.name] in fs && (e.RealDir() <==> fs[dir + [e.name]] == Directory)
    ensures EntriesAdd(fs, dir, depth, entries, s) ==
              One(PlannedBelow(fs, dir, depth, s) && exists e :: e in entries && e.name == s.path[|dir|])
    decreases |entries|
  {
    if entries != [] {
      assert entries[0] in entries;
      OneEntryAdds(fs, dir, depth, entries[0], s);
      ListedEntriesAdd(fs, dir, depth, entries[1..], s);
      if PlannedBelow(fs, dir, depth, s) {
        var name := s.path[|dir|];
        if exists e :: e in entries[1..] && e.name == name {
          var e :| e in entries[1..] && e.name == name;
          assert e in entries;
          var k :| 0 <= k < |entries[1..]| && entries[1..][k] == e;
          assert entries[0].name != entries[k + 1].name;
        }
        if exists e :: e in entries && e.name == name {
          var e :| e in entries && e.name == name;
          assert e == entries[0] || e in entries[1..];
        }
      }
    }
  }

  /** A true listing adds every step below the directory exactly once. */
  lemma TrueListingAddsAll(fs: FileSystem, dir: Path, depth: nat, entries: seq<Entry>, s: Step<Path>)
    requires IsTree(fs) && depth < MAX_DELETE_DEPTH && TrueListing(fs, dir, entries)
    ensures EntriesAdd(fs, dir, depth, entries, s) == One(PlannedBelow(fs, dir, depth, s))
  {
    ListedEntriesAdd(fs, dir, depth, entries, s);
    if PlannedBelow(fs, dir, depth, s) {
      var child := s.path[..|dir| + 1];
      assert child == dir + [s.path[|dir|]];
      if |child| < |s.path| { PrefixesExist(fs, s.path, |child|); } else { assert child == s.path; }
    }
  }

  /** Pending directories that can be listed. */
  ghost predicate Listable(fs: FileSystem, pending: seq<Pending>) {
    forall p | p in pending :: IsAbsolute(p.path) && Parts(p.path) in fs && fs[Parts(p.path)] == Directory
  }

  function PendingAdds(fs: FileSystem, pending: seq<Pending>, s: Step<Path>): nat {
    if pending == [] then 0
    else One(PlannedBelow(fs, Parts(pending[0].path), pending[0].depth, s)) + PendingAdds(fs, pending[1..], s)
  }

  lemma {:induction false} PendingAppends(fs: FileSystem, a: seq<Pending>, b: seq<Pending>, s: Step<Path>)
    ensures PendingAdds(fs, a + b, s) == PendingAdds(fs, a, s) + PendingAdds(fs, b, s)
    decreases |a|
  {
    if a == [] {
      assert a + b == b;
    } else {
      assert (a + b)[1..] == a[1..] + b;
      PendingAppends(fs, a[1..], b, s);
    }
  }

  lemma DenotedAppends(a: seq<Step<string>>, b: seq<Step<string>>)
    ensures Denoted(a + b) == Denoted(a) + Denoted(b)
  {}

  lemma DenotedFirst(s: Step<string>, rest: seq<Step<string>>)
    ensures Denoted([s] + rest) == [Denotes(s)] + Denoted(rest)
  {
    assert ([s] + rest)[1..] == rest;
  }

  lemma CountsFirst<T>(x: T, rest: seq<T>, s: T)
    ensures multiset([x] + rest)[s] == One(s == x) + multiset(rest)[s]
  {}

  function PlainSteps(dir: Path, depth: nat, entries: seq<Entry>): seq<Step<Path>> {
    if entries == [] then []
    else [Step(dir + [entries[0].name], entries[0].RealDir(), depth + 1)] + PlainSteps(dir, depth, entries[1..])
  }

  lemma ChildDenotes(dir: Pending, e: Entry)
    requires IsAbsolute(dir.path) && LeafName(e.name)
    ensures Denotes(Step(Join(dir.path, e.name), e.RealDir(), dir.depth + 1))
         == Step(Parts(dir.path) + [e.name], e.RealDir(), dir.depth + 1)
  {
    JoinedLeafIsInside(dir.path, e.name);
  }

  lemma {:induction false} ChildStepsDenote(dir: Pending, entries: seq<Entry>)
    requires IsAbsolute(dir.path) && forall e | e in entries :: LeafName(e.name)
    ensures Denoted(ChildSteps(dir, entries)) == PlainSteps(Parts(dir.path), dir.depth, entries)
    decreases |entries|
  {
    if entries != [] {
      assert entries[0] in entries;
      ChildDenotes(dir, entries[0]);
      ChildStepsDenote(dir, entries[1..]);
      DenotedFirst(Step(Join(dir.path, entries[0].name), entries[0].RealDir(), dir.depth + 1), ChildSteps(dir, entries[1..]));
    }
  }

  lemma {:induction false} PlainStepsAdd(dir: Path, depth: nat, entries: seq<Entry>, s: Step<Path>)
    ensures multiset(PlainSteps(dir, depth, entries))[s] == OwnSteps(dir, depth, entries, s)
    decreases |entries|
  {
    if entries != [] {
      PlainStepsAdd(dir, depth, entries[1..], s);
      CountsFirst(Step(dir + [entries[0].name], entries[0].RealDir(), depth + 1), PlainSteps(dir, depth, entries[1..]), s);
    }
  }

  lemma {:induction false} ChildDirsAdd(fs: FileSystem, dir: Pending, entries: seq<Entry>, s: Step<Path>)
    requires IsAbsolute(dir.path) && forall e | e in entries :: LeafName(e.name)
    ensures PendingAdds(fs, ChildDirs(dir, entries), s) == FoundBelow(fs, Parts(dir.path), dir.depth, entries, s)
    decreases |entries|
  {
    if entries != [] {
      var e := entries[0];
      assert e in entries;
      JoinedLeafIsInside(dir.path, e.name);
      ChildDirsAdd(fs, dir, entries[1..], s);
      if e.RealDir() && dir.depth + 1 < MAX_DELETE_DEPTH {
        assert ChildDirs(dir, entries)[1..] == ChildDirs(dir, entries[1..]);
      }
    }
  }

  lemma {:induction false} EntriesAddSplits(fs: FileSystem, dir: Path, depth: nat, entries: seq<Entry>, s: Step<Path>)
    ensures EntriesAdd(fs, dir, depth, entries, s) == OwnSteps(dir, depth, entries, s) + FoundBelow(fs, dir, depth, entries, s)
    decreases |entries|
  {
    if entries != [] { EntriesAddSplits(fs, dir, depth, entries[1..], s); }
  }

  lemma {:induction false} ChildDirsAreListable(fs: FileSystem, dir: Pending, entries: seq<Entry>)
    requires IsAbsolute(dir.path)
    requires forall e | e in entries ::
               LeafName(e.name) && Parts(dir.path) + [e.name] in fs &&
               (e.RealDir() <==> fs[Parts(dir.path) + [e.name]] == Directory)
    ensures Listable(fs, ChildDirs(dir, entries))
    decreases |entries|
  {
    if entries != [] {
      assert entries[0] in entries;
      JoinedLeafIsInside(dir.path, entries[0].name);
      ChildDirsAreListable(fs, dir, entries[1..]);
    }
  }

  /** The whole walk records each thing below a pending directory exactly once, besides what was
      already recorded, and nothing else. */
  lemma {:induction false} WalkRecordsAll(fs: FileSystem, list: Lister, pending: seq<Pending>,
        steps: seq<Step<string>>, s: Step<Path>)
    requires IsTree(fs) && TrueLister(fs, list) && Shallow(pending, 0) && Listable(fs, pending)
    ensures multiset(Denoted(Walked(list, pending, steps)))[s] == multiset(Denoted(steps))[s] + PendingAdds(fs, pending, s)
    decreases TotalWeight(list, pending, 0)
  {
    if pending != [] {
      var dir := pending[0];
      assert dir in pending;
      var entries := list(dir.path).entries;
      var dirs, children := ChildDirs(dir, entries), ChildSteps(dir, entries);
      assert TrueListing(fs, Parts(dir.path), entries);
      WeightDrops(list, pending);
      ChildDirsAreListable(fs, dir, entries);
      WalkRecordsAll(fs, list, pending[1..] + dirs, steps + children, s);
      TrueListingAddsAll(fs, Parts(dir.path), dir.depth, entries, s);
      ChildStepsDenote(dir, entries);
      PlainStepsAdd(Parts(dir.path), dir.depth, entries, s);
      ChildDirsAdd(fs, dir, entries, s);
      EntriesAddSplits(fs, Parts(dir.path), dir.depth, entries, s);
      PendingAppends(fs, pending[1..], dirs, s);
      DenotedAppends(steps, children);
    }
  }

  // --------------------------------------------------------------- execution

  /** Carries out steps in order, stopping at the first one the file system refuses. */
  ghost function Executed(fs: FileSystem, steps: seq<Step<Path>>): (FileSystem, nat)
    decreases |steps|
  {
    if steps == [] || !CanRemove(fs, steps[0].path, steps[0].isDir) then (fs, 0)
    else
      var rest := Executed(fs - {steps[0].path}, steps[1..]);
      (rest.0, rest.1 + 1)
  }

  /** The loop over the plan; `answers(i)` is whether the i-th removal succeeded. */
  method Execute(steps: seq<Step<string>>, answers: nat -> bool, ghost fs: FileSystem) returns (completed: nat, ok: bool)
    requires forall i | 0 <= i < |steps| ::
               answers(i) == CanRemove(AfterRemovals(fs, Denoted(steps), i), Denoted(steps)[i].path, steps[i].isDir)
    ensures completed == Executed(fs, Denoted(steps)).1 && ok == (completed == |steps|)
  {
    completed := 0;
    ghost var d := Denoted(steps);
    assert d[0..] == d;
    while completed < |steps|
      invariant 0 <= completed <= |steps|
      invariant Executed(fs, d).1 == completed + Executed(AfterRemovals(fs, d, completed), d[completed..]).1
    {
      if !answers(completed) { return completed, false; }
      assert d[completed..][1..] == d[completed + 1..];
      completed := completed + 1;
    }
    ok := true;
  }

  /** The file system once the first `n` steps have been carried out. */
  ghost function AfterRemovals(fs: FileSystem, steps: seq<Step<Path>>, n: nat): FileSystem
    requires n <= |steps|
  {
    if n == 0 then fs else AfterRemovals(fs, steps, n - 1) - {steps[n - 1].path}
  }

  ghost predicate DistinctPaths(steps: seq<Step<Path>>) {
    forall i, j | 0 <= i < j < |steps| :: steps[i].path != steps[j].path
  }

  /** Steps that match their kinds, each once, every child of a directory before it. */
  ghost predicate Executable(fs: FileSystem, steps: seq<Step<Path>>) {
    && DistinctPaths(steps)
    && (forall i | 0 <= i < |steps| :: steps[i].path in fs && steps[i].isDir == (fs[steps[i].path] == Directory))
    && (forall i, q: Path | 0 <= i < |steps| && steps[i].isDir && q in fs && q != [] && q[..|q| - 1] == steps[i].path ::
          exists j :: 0 <= j < i && steps[j].path == q)
  }

  ghost function PathsOf(steps: seq<Step<Path>>): set<Path> {
    set i | 0 <= i < |steps| :: steps[i].path
  }

  lemma {:induction false} ExecutableStepsAllRun(fs: FileSystem, steps: seq<Step<Path>>)
    requires Executable(fs, steps)
    ensures Executed(fs, steps) == (fs - PathsOf(steps), |steps|)
    decreases |steps|
  {
    if steps == [] {
      assert PathsOf(steps) == {} && fs - {} == fs;
    } else {
      var first, rest := steps[0], steps[1..];
      var less := fs - {first.path};
      assert Executable(less, rest) by {
        forall i, q: Path | 0 <= i < |rest| && rest[i].isDir && q in less && q != [] && q[..|q| - 1] == rest[i].path
          ensures exists j :: 0 <= j < i && rest[j].path == q
        {
          var j :| 0 <= j < i + 1 && steps[j].path == q;
          assert rest[j - 1].path == q;
        }
      }
      ExecutableStepsAllRun(less, rest);
      assert PathsOf(steps) == {first.path} + PathsOf(rest) by {
        forall p | p in PathsOf(steps) ensures p in {first.path} + PathsOf(rest) {
          var i :| 0 <= i < |steps| && steps[i].path == p;
          if i > 0 { assert rest[i - 1].path == p; }
        }
        forall p | p in PathsOf(rest) ensures p in PathsOf(steps) {
          var i :| 0 <= i < |rest| && rest[i].path == p;
          assert steps[i + 1].path == p;
        }
      }
      assert less - PathsOf(rest) == fs - PathsOf(steps);
    }
  }

  // ------------------------------------------------------------ the theorems

  function StepFor(fs: FileSystem, target: Path, path: Path): Step<Path>
    requires path in fs && |target| <= |path|
  {
    Step(path, fs[path] == Directory, |path| - |target|)
  }

  predicate AtOrBelow(target: Path, path: Path) {
    path == target || Below(target, path)
  }

  /** Everything at or below the target lies within the depth limit. */
  ghost predicate WithinDepth(fs: FileSystem, target: Path) {
    forall q: Path | q in fs && Below(target, q) :: |q| - |target| <= MAX_DELETE_DEPTH
  }

  /** A target described as the listing sees it. */
  ghost predicate TrueTarget(fs: FileSystem, target: DeleteTarget) {
    && IsAbsolute(target.path) && Parts(target.path) in fs
    && ((target.isDir && !target.isSymlink) <==> fs[Parts(target.path)] == Directory)
  }

  /** The plan for one target lists each thing at or below it, no deeper than the limit, exactly once. */
  lemma PlanListsSubtree(fs: FileSystem, list: Lister, target: DeleteTarget, s: Step<Path>)
    requires IsTree(fs) && TrueLister(fs, list) && TrueTarget(fs, target)
    ensures var root := Parts(target.path);
            multiset(Denoted(PlannedSteps(list, target)))[s] ==
            One(s == StepFor(fs, root, root)) + One(PlannedBelow(fs, root, 0, s))
  {
    var root := Parts(target.path);
    if !target.isDir || target.isSymlink {
      if PlannedBelow(fs, root, 0, s) { PrefixesExist(fs, s.path, |root|); }
    } else {
      var pending, first := [Pending(target.path, 0)], [Step(target.path, true, 0)];
      var walked := Walked(list, pending, first);
      WalkRecordsAll(fs, list, pending, first, s);
      assert pending[1..] == [];
      SortCommutesWithDenoting(walked, MAX_DELETE_DEPTH);
      SortIsPermutation(Denoted(walked), MAX_DELETE_DEPTH, s);
    }
  }

  lemma {:induction false} SortCommutesWithDenoting(steps: seq<Step<string>>, depth: nat)
    ensures Denoted(DeepestFirst(steps, depth)) == DeepestFirst(Denoted(steps), depth)
    decreases depth
  {
    AtDepthCommutesWithDenoting(steps, depth);
    if depth > 0 {
      SortCommutesWithDenoting(steps, depth - 1);
      DenotedAppends(AtDepth(steps, depth), DeepestFirst(steps, depth - 1));
    }
  }

  lemma {:induction false} AtDepthCommutesWithDenoting(steps: seq<Step<string>>, depth: nat)
    ensures Denoted(AtDepth(steps, depth)) == AtDepth(Denoted(steps), depth)
    decreases |steps|
  {
    if steps != [] {
      AtDepthCommutesWithDenoting(steps[1..], depth);
      assert Denoted(steps)[1..] == Denoted(steps[1..]);
      if steps[0].depth == depth { DenotedAppends([steps[0]], AtDepth(steps[1..], depth)); }
    }
  }

  lemma CountAtLeastTwo<T>(s: seq<T>, i: nat, j: nat)
    requires i < j < |s| && s[i] == s[j]
    ensures multiset(s)[s[i]] >= 2
  {
    assert s == s[..i + 1] + s[i + 1..];
    assert s[i] in s[..i + 1] by { assert s[..i + 1][i] == s[i]; }
    assert s[j] in s[i + 1..] by { assert s[i + 1..][j - i - 1] == s[j]; }
    assert multiset(s) == multiset(s[..i + 1]) + multiset(s[i + 1..]);
  }

  lemma PlanDescends(list: Lister, target: DeleteTarget)
    ensures DepthDescends(Denoted(PlannedSteps(list, target)))
  {
    if target.isDir && !target.isSymlink {
      var walked := Walked(list, [Pending(target.path, 0)], [Step(target.path, true, 0)]);
      SortCommutesWithDenoting(walked, MAX_DELETE_DEPTH);
      SortDescends(Denoted(walked), MAX_DELETE_DEPTH);
    }
  }

  /** What is planned lies at or below the target and is described as it is. */
  lemma PlannedIsInSubtree(fs: FileSystem, list: Lister, target: DeleteTarget, i: nat)
    requires IsTree(fs) && TrueLister(fs, list) && TrueTarget(fs, target) && i < |PlannedSteps(list, target)|
    ensures var root, s := Parts(target.path), Denoted(PlannedSteps(list, target))[i];
            && s.path in fs && AtOrBelow(root, s.path) && |root| <= |s.path| && s == StepFor(fs, root, s.path)
            && s.depth <= MAX_DELETE_DEPTH
  {
    var d := Denoted(PlannedSteps(list, target));
    PlanListsSubtree(fs, list, target, d[i]);
    assert d[i] in multiset(d);
  }

  lemma PlannedOnce(fs: FileSystem, list: Lister, target: DeleteTarget)
    requires IsTree(fs) && TrueLister(fs, list) && TrueTarget(fs, target)
    ensures DistinctPaths(Denoted(PlannedSteps(list, target)))
  {
    var d := Denoted(PlannedSteps(list, target));
    forall i, j | 0 <= i < j < |d| ensures d[i].path != d[j].path {
      PlannedIsInSubtree(fs, list, target, i);
      PlannedIsInSubtree(fs, list, target, j);
      if d[i].path == d[j].path {
        CountAtLeastTwo(d, i, j);
        PlanListsSubtree(fs, list, target, d[i]);
      }
    }
  }

  lemma SubtreeIsPlanned(fs: FileSystem, list: Lister, target: DeleteTarget, q: Path) returns (i: nat)
    requires IsTree(fs) && TrueLister(fs, list) && TrueTarget(fs, target)
    requires q in fs && AtOrBelow(Parts(target.path), q) && |q| - |Parts(target.path)| <= MAX_DELETE_DEPTH
    ensures var d := Denoted(PlannedSteps(list, target)); i < |d| && d[i].path == q
  {
    var d := Denoted(PlannedSteps(list, target));
    var s := StepFor(fs, Parts(target.path), q);
    PlanListsSubtree(fs, list, target, s);
    assert s in d;
    i :| 0 <= i < |d| && d[i] == s;
  }

  lemma ChildIsBelow(root: Path, q: Path)
    requires q != [] && AtOrBelow(root, q[..|q| - 1])
    ensures Below(root, q)
  {
    assert q[..|root|] == q[..|q| - 1][..|root|];
  }

  lemma DeeperComesFirst<P>(d: seq<Step<P>>, i: nat, j: nat)
    requires DepthDescends(d) && i < |d| && j < |d| && d[j].depth > d[i].depth
    ensures j < i
  {}

  lemma ChildrenComeFirst(fs: FileSystem, list: Lister, target: DeleteTarget, i: nat, q: Path) returns (j: nat)
    requires IsTree(fs) && TrueLister(fs, list) && TrueTarget(fs, target)
    requires i < |PlannedSteps(list, target)| && q in fs && q != [] && |q| - |Parts(target.path)| <= MAX_DELETE_DEPTH
    requires q[..|q| - 1] == Denoted(PlannedSteps(list, target))[i].path
    ensures j < i && Denoted(PlannedSteps(list, target))[j].path == q
  {
    var root, d := Parts(target.path), Denoted(PlannedSteps(list, target));
    PlannedIsInSubtree(fs, list, target, i);
    ChildIsBelow(root, q);
    j := SubtreeIsPlanned(fs, list, target, q);
    PlannedIsInSubtree(fs, list, target, j);
    PlanDescends(list, target);
    DeeperComesFirst(d, i, j);
  }

  lemma PlanMatches(fs: FileSystem, list: Lister, target: DeleteTarget)
    requires IsTree(fs) && TrueLister(fs, list) && TrueTarget(fs, target)
    ensures var d := Denoted(PlannedSteps(list, target));
            forall i | 0 <= i < |d| :: d[i].path in fs && d[i].isDir == (fs[d[i].path] == Directory)
                  && AtOrBelow(Parts(target.path), d[i].path)
  {
    var d := Denoted(PlannedSteps(list, target));
    forall i | 0 <= i < |d|
      ensures d[i].path in fs && d[i].isDir == (fs[d[i].path] == Directory) && AtOrBelow(Parts(target.path), d[i].path)
    {
      PlannedIsInSubtree(fs, list, target, i);
    }
  }

  lemma PlanIsExecutable(fs: FileSystem, list: Lister, target: DeleteTarget)
    requires IsTree(fs) && TrueLister(fs, list) && TrueTarget(fs, target) && WithinDepth(fs, Parts(target.path))
    ensures Executable(fs, Denoted(PlannedSteps(list, target)))
  {
    var d := Denoted(PlannedSteps(list, target));
    PlannedOnce(fs, list, target);
    PlanMatches(fs, list, target);
    forall i, q: Path | 0 <= i < |d| && d[i].isDir && q in fs && q != [] && q[..|q| - 1] == d[i].path
      ensures exists j :: 0 <= j < i && d[j].path == q
    {
      PlannedIsInSubtree(fs, list, target, i);
      ChildIsBelow(Parts(target.path), q);
      var j := ChildrenComeFirst(fs, list, target, i, q);
    }
  }

  lemma PlanCoversSubtree(fs: FileSystem, list: Lister, target: DeleteTarget)
    requires IsTree(fs) && TrueLister(fs, list) && TrueTarget(fs, target) && WithinDepth(fs, Parts(target.path))
    ensures PathsOf(Denoted(PlannedSteps(list, target))) == Subtree(fs, Parts(target.path))
  {
    var root, d := Parts(target.path), Denoted(PlannedSteps(list, target));
    PlanMatches(fs, list, target);
    forall q | q in fs && AtOrBelow(root, q) ensures q in PathsOf(d) {
      var i := SubtreeIsPlanned(fs, list, target, q);
    }
  }

  /** Carrying out the plan of an unchanged tree removes exactly the target's subtree, never calling
      rmdir on a directory that is not empty, exactly when nothing lies deeper than the limit. */
  lemma PlanRemovesSubtreeIff(fs: FileSystem, list: Lister, target: DeleteTarget)
    requires IsTree(fs) && TrueLister(fs, list) && TrueTarget(fs, target)
    ensures var root, d := Parts(target.path), Denoted(PlannedSteps(list, target));
            && (WithinDepth(fs, root) <==> Executed(fs, d).1 == |d|)
            && (WithinDepth(fs, root) ==> Executed(fs, d).0 == fs - Subtree(fs, root))
  {
    var root, d := Parts(target.path), Denoted(PlannedSteps(list, target));
    if WithinDepth(fs, root) {
      PlanClears(fs, list, target);
      ExecutableStepsAllRun(fs, d);
    } else {
      var q: Path :| q in fs && Below(root, q) && |q| - |root| > MAX_DELETE_DEPTH;
      DeepEntryBlocks(fs, list, target, q);
    }
  }

  /** A directory at the limit with something in it is planned, its content is not: rmdir refuses. */
  lemma DeepEntryBlocks(fs: FileSystem, list: Lister, target: DeleteTarget, q: Path)
    requires IsTree(fs) && TrueLister(fs, list) && TrueTarget(fs, target)
    requires q in fs && Below(Parts(target.path), q) && |q| - |Parts(target.path)| > MAX_DELETE_DEPTH
    ensures var d := Denoted(PlannedSteps(list, target)); Executed(fs, d).1 < |d|
  {
    var root, d := Parts(target.path), Denoted(PlannedSteps(list, target));
    var n := |root| + MAX_DELETE_DEPTH;
    var dir, child := q[..n], q[..n + 1];
    PrefixesExist(fs, q, n);
    assert child in fs by { if n + 1 < |q| { PrefixesExist(fs, q, n + 1); } else { assert child == q; } }
    assert dir[..|root|] == q[..|root|] && child[..n] == dir;
    var i := SubtreeIsPlanned(fs, list, target, dir);
    PlannedIsInSubtree(fs, list, target, i);
    forall j | 0 <= j < |d| ensures d[j].path != child { PlannedIsInSubtree(fs, list, target, j); }
    ChildLeftBlocks(fs, d, i, child);
  }

  /** A directory cannot be removed while something in it has not been. */
  lemma {:induction false} ChildLeftBlocks(fs: FileSystem, steps: seq<Step<Path>>, i: nat, child: Path)
    requires i < |steps| && steps[i].isDir && child in fs && child != [] && child[..|child| - 1] == steps[i].path
    requires forall j | 0 <= j < i :: steps[j].path != child
    ensures Executed(fs, steps).1 < |steps|
    decreases |steps|
  {
    if CanRemove(fs, steps[0].path, steps[0].isDir) && i > 0 {
      ChildLeftBlocks(fs - {steps[0].path}, steps[1..], i - 1, child);
    }
  }

  lemma {:induction false} MissingBlocks(fs: FileSystem, steps: seq<Step<Path>>, j: nat)
    requires j < |steps| && steps[j].path !in fs
    ensures Executed(fs, steps).1 < |steps|
    decreases |steps|
  {
    if CanRemove(fs, steps[0].path, steps[0].isDir) && j > 0 { MissingBlocks(fs - {steps[0].path}, steps[1..], j - 1); }
  }

  /** Nothing is removed twice. */
  lemma {:induction false} TwiceBlocks(fs: FileSystem, steps: seq<Step<Path>>, i: nat, j: nat)
    requires i < j < |steps| && steps[i].path == steps[j].path
    ensures Executed(fs, steps).1 < |steps|
    decreases |steps|
  {
    if CanRemove(fs, steps[0].path, steps[0].isDir) {
      if i == 0 { MissingBlocks(fs - {steps[0].path}, steps[1..], j - 1); }
      else { TwiceBlocks(fs - {steps[0].path}, steps[1..], i - 1, j - 1); }
    }
  }

  ghost function Subtree(fs: FileSystem, root: Path): set<Path> {
    set q | q in fs && AtOrBelow(root, q)
  }

  ghost predicate AtOrBelowAny(targets: seq<DeleteTarget>, q: Path) {
    exists t :: t in targets && AtOrBelow(Parts(t.path), q)
  }

  ghost function Subtrees(fs: FileSystem, targets: seq<DeleteTarget>): set<Path> {
    set q | q in fs && AtOrBelowAny(targets, q)
  }

  /** Steps that can be carried out in order and touch exactly these paths. */
  ghost predicate Clears(fs: FileSystem, steps: seq<Step<Path>>, paths: set<Path>) {
    Executable(fs, steps) && PathsOf(steps) == paths
  }

  lemma PlanClears(fs: FileSystem, list: Lister, target: DeleteTarget)
    requires IsTree(fs) && TrueLister(fs, list) && TrueTarget(fs, target) && WithinDepth(fs, Parts(target.path))
    ensures Clears(fs, Denoted(PlannedSteps(list, target)), Subtree(fs, Parts(target.path)))
  {
    PlanIsExecutable(fs, list, target);
    PlanCoversSubtree(fs, list, target);
  }

  // ------------------------------------------------------------------ several targets

  /** One target's walk would come to the other. */
  predicate Reaches(a: Path, b: Path) {
    AtOrBelow(a, b) && |b| - |a| <= MAX_DELETE_DEPTH
  }

  /** What the targets denote. */
  function Roots(targets: seq<DeleteTarget>): (roots: seq<Path>)
    ensures |roots| == |targets| && forall k | 0 <= k < |targets| :: roots[k] == Parts(targets[k].path)
  {
    seq(|targets|, k requires 0 <= k < |targets| => Parts(targets[k].path))
  }

  /** One level below the limit. */
  predicate JustTooDeep(root: Path, q: Path) {
    Below(root, q) && |q| - |root| == MAX_DELETE_DEPTH + 1
  }

  ghost predicate NoneReached(roots: seq<Path>) {
    forall i, j | 0 <= i < |roots| && 0 <= j < |roots| && i != j :: !Reaches(roots[i], roots[j])
  }

  predicate EarlierTarget(roots: seq<Path>, i: nat, q: Path)
    requires i <= |roots|
  {
    exists j :: 0 <= j < i && roots[j] == q
  }

  /** No target is reached from another; and whatever lies one level below the limit of a target is itself one of the
      targets before it. */
  ghost predicate Removable(fs: FileSystem, roots: seq<Path>) {
    NoneReached(roots) && forall i, q: Path | 0 <= i < |roots| && q in fs && JustTooDeep(roots[i], q) :: EarlierTarget(roots, i, q)
  }

  // Plans one after the other, and where in the whole the steps of one are found.

  function Flat<T>(plans: seq<seq<T>>): seq<T> {
    if plans == [] then [] else Flat(plans[..|plans| - 1]) + plans[|plans| - 1]
  }

  function Start<T>(plans: seq<seq<T>>, k: nat): nat
    requires k <= |plans|
  {
    |Flat(plans[..k])|
  }

  lemma NextStart<T>(plans: seq<seq<T>>, k: nat)
    requires k < |plans|
    ensures Flat(plans[..k + 1]) == Flat(plans[..k]) + plans[k]
  {
    assert plans[..k + 1][..k] == plans[..k];
  }

  lemma {:induction false} StartsGrow<T>(plans: seq<seq<T>>, k: nat, n: nat)
    requires k <= n <= |plans|
    ensures Flat(plans[..k]) <= Flat(plans[..n])
    decreases n
  {
    if k < n {
      StartsGrow(plans, k, n - 1);
      NextStart(plans, n - 1);
    }
  }

  lemma PrefixHas<T>(a: seq<T>, b: seq<T>, all: seq<T>, i: nat)
    requires a + b <= all && i < |b|
    ensures |a| + i < |all| && all[|a| + i] == b[i]
  {
    assert all[|a| + i] == (a + b)[|a| + i];
  }

  lemma StepThere<T>(plans: seq<seq<T>>, k: nat, i: nat) returns (p: nat)
    requires k < |plans| && i < |plans[k]|
    ensures p == Start(plans, k) + i < |Flat(plans)| && Flat(plans)[p] == plans[k][i]
  {
    NextStart(plans, k);
    StartsGrow(plans, k + 1, |plans|);
    assert plans[..|plans|] == plans;
    p := Start(plans, k) + i;
    PrefixHas(Flat(plans[..k]), plans[k], Flat(plans), i);
  }

  lemma {:induction false} StepOfSome<T>(plans: seq<seq<T>>, p: nat, n: nat) returns (k: nat, i: nat)
    requires n <= |plans| && p < Start(plans, n)
    ensures k < n && i < |plans[k]| && p == Start(plans, k) + i
    decreases n
  {
    NextStart(plans, n - 1);
    if p >= Start(plans, n - 1) { k, i := n - 1, p - Start(plans, n - 1); } else { k, i := StepOfSome(plans, p, n - 1); }
  }

  /** Which plan a step is from. */
  lemma StepFrom<T>(plans: seq<seq<T>>, p: nat) returns (k: nat, i: nat)
    requires p < |Flat(plans)|
    ensures k < |plans| && i < |plans[k]| && p == Start(plans, k) + i && Flat(plans)[p] == plans[k][i]
  {
    assert plans[..|plans|] == plans;
    k, i := StepOfSome(plans, p, |plans|);
    var same := StepThere(plans, k, i);
  }

  lemma EarlierPlan<T>(plans: seq<seq<T>>, k: nat, i: nat, n: nat)
    requires k < n <= |plans| && i < |plans[k]|
    ensures Start(plans, k) + i < Start(plans, n)
  {
    NextStart(plans, k);
    StartsGrow(plans, k + 1, n);
  }

  // What one plan is, seen from its root.

  ghost predicate Hit(plan: seq<Step<Path>>, q: Path, n: nat) {
    exists i :: 0 <= i < n && i < |plan| && plan[i].path == q
  }

  /** Everything the root reaches is planned once, as what it is, and after what lies in it. */
  ghost predicate Faithful(fs: FileSystem, root: Path, plan: seq<Step<Path>>) {
    && root in fs && DistinctPaths(plan)
    && (forall i | 0 <= i < |plan| ::
          plan[i].path in fs && plan[i].isDir == (fs[plan[i].path] == Directory) && Reaches(root, plan[i].path))
    && (forall q | q in fs && Reaches(root, q) :: Hit(plan, q, |plan|))
    && (forall i, q: Path | 0 <= i < |plan| && q in fs && q != [] && q[..|q| - 1] == plan[i].path && Reaches(root, q) :: Hit(plan, q, i))
  }

  ghost predicate AllFaithful(fs: FileSystem, roots: seq<Path>, plans: seq<seq<Step<Path>>>) {
    IsTree(fs) && |roots| == |plans| && forall k | 0 <= k < |roots| :: Faithful(fs, roots[k], plans[k])
  }

  lemma PlanIsFaithful(fs: FileSystem, list: Lister, target: DeleteTarget)
    requires IsTree(fs) && TrueLister(fs, list) && TrueTarget(fs, target)
    ensures Faithful(fs, Parts(target.path), Denoted(PlannedSteps(list, target)))
  {
    var root, d := Parts(target.path), Denoted(PlannedSteps(list, target));
    PlannedOnce(fs, list, target);
    forall i | 0 <= i < |d| ensures d[i].path in fs && d[i].isDir == (fs[d[i].path] == Directory) && Reaches(root, d[i].path) {
      PlannedIsInSubtree(fs, list, target, i);
    }
    forall q | q in fs && Reaches(root, q) ensures Hit(d, q, |d|) {
      var i := SubtreeIsPlanned(fs, list, target, q);
    }
    forall i, q: Path | 0 <= i < |d| && q in fs && q != [] && q[..|q| - 1] == d[i].path && Reaches(root, q) ensures Hit(d, q, i) {
      var j := ChildrenComeFirst(fs, list, target, i, q);
    }
  }

  /** Two roots that reach the same thing: one reaches the other. */
  lemma ReachBoth(a: Path, b: Path, q: Path)
    requires Reaches(a, q) && Reaches(b, q)
    ensures Reaches(a, b) || Reaches(b, a)
  {
    if |a| <= |b| { assert b[..|a|] == q[..|b|][..|a|] == q[..|a|]; } else { assert a[..|b|] == q[..|a|][..|b|] == q[..|b|]; }
  }

  lemma ReachedStep(fs: FileSystem, roots: seq<Path>, plans: seq<seq<Step<Path>>>, k: nat, q: Path) returns (i: nat)
    requires AllFaithful(fs, roots, plans) && k < |roots| && q in fs && Reaches(roots[k], q)
    ensures i < |plans[k]| && plans[k][i].path == q
  {
    assert Hit(plans[k], q, |plans[k]|);
    i :| 0 <= i < |plans[k]| && plans[k][i].path == q;
  }

  // Plans that cannot all be carried out.

  lemma TwoReachBlocks(fs: FileSystem, roots: seq<Path>, plans: seq<seq<Step<Path>>>, i: nat, j: nat, q: Path)
    requires AllFaithful(fs, roots, plans) && i < j < |roots| && q in fs && Reaches(roots[i], q) && Reaches(roots[j], q)
    ensures Executed(fs, Flat(plans)).1 < |Flat(plans)|
  {
    var m := ReachedStep(fs, roots, plans, i, q);
    var n := ReachedStep(fs, roots, plans, j, q);
    EarlierPlan(plans, i, m, j);
    var p := StepThere(plans, i, m);
    var r := StepThere(plans, j, n);
    TwiceBlocks(fs, Flat(plans), p, r);
  }

  lemma ParentIsReached(root: Path, q: Path)
    requires JustTooDeep(root, q)
    ensures Reaches(root, q[..|q| - 1])
  {
    assert q[..|q| - 1][..|root|] == q[..|root|];
  }

  lemma OtherIsNear(other: Path, root: Path, q: Path)
    requires Reaches(other, q) && other != q && JustTooDeep(root, q)
    ensures Reaches(other, root) || Reaches(root, other)
  {
    var dir := q[..|q| - 1];
    assert dir[..|other|] == q[..|other|];
    ParentIsReached(root, q);
    ReachBoth(other, root, dir);
  }

  lemma NotRemovedBefore(fs: FileSystem, roots: seq<Path>, plans: seq<seq<Step<Path>>>, i: nat, q: Path, n: nat, p: nat)
    requires AllFaithful(fs, roots, plans) && NoneReached(roots) && i < |roots| && n < |plans[i]|
    requires JustTooDeep(roots[i], q) && !EarlierTarget(roots, i, q) && p < Start(plans, i) + n && p < |Flat(plans)|
    ensures Flat(plans)[p].path != q
  {
    var k, m := StepFrom(plans, p);
    if k > i { EarlierPlan(plans, i, n, k); }
    if k < i && Reaches(roots[k], q) { OtherIsNear(roots[k], roots[i], q); }
  }

  lemma DeepChildBlocks(fs: FileSystem, roots: seq<Path>, plans: seq<seq<Step<Path>>>, i: nat, q: Path)
    requires AllFaithful(fs, roots, plans) && NoneReached(roots) && i < |roots| && q in fs
    requires JustTooDeep(roots[i], q) && !EarlierTarget(roots, i, q)
    ensures Executed(fs, Flat(plans)).1 < |Flat(plans)|
  {
    PrefixesExist(fs, q, |q| - 1);
    ParentIsReached(roots[i], q);
    var n := ReachedStep(fs, roots, plans, i, q[..|q| - 1]);
    var p := StepThere(plans, i, n);
    forall r | 0 <= r < p ensures Flat(plans)[r].path != q { NotRemovedBefore(fs, roots, plans, i, q, n, r); }
    ChildLeftBlocks(fs, Flat(plans), p, q);
  }

  lemma NotRemovableBlocks(fs: FileSystem, roots: seq<Path>, plans: seq<seq<Step<Path>>>)
    requires AllFaithful(fs, roots, plans) && !Removable(fs, roots)
    ensures Executed(fs, Flat(plans)).1 < |Flat(plans)|
  {
    if !NoneReached(roots) {
      var i, j :| 0 <= i < |roots| && 0 <= j < |roots| && i != j && Reaches(roots[i], roots[j]);
      if i < j { TwoReachBlocks(fs, roots, plans, i, j, roots[j]); } else { TwoReachBlocks(fs, roots, plans, j, i, roots[j]); }
    } else {
      var i, q: Path :| 0 <= i < |roots| && q in fs && JustTooDeep(roots[i], q) && !EarlierTarget(roots, i, q);
      DeepChildBlocks(fs, roots, plans, i, q);
    }
  }

  // Plans that can.

  lemma RemovableOnce(fs: FileSystem, roots: seq<Path>, plans: seq<seq<Step<Path>>>, p: nat, r: nat)
    requires AllFaithful(fs, roots, plans) && NoneReached(roots) && p < r < |Flat(plans)|
    ensures Flat(plans)[p].path != Flat(plans)[r].path
  {
    var k, i := StepFrom(plans, p);
    var n, j := StepFrom(plans, r);
    if k != n && plans[k][i].path == plans[n][j].path { ReachBoth(roots[k], roots[n], plans[k][i].path); }
  }

  lemma ChildHit(fs: FileSystem, roots: seq<Path>, plans: seq<seq<Step<Path>>>, k: nat, i: nat, q: Path) returns (r: nat)
    requires AllFaithful(fs, roots, plans) && Removable(fs, roots) && k < |roots| && i < |plans[k]|
    requires q in fs && q != [] && q[..|q| - 1] == plans[k][i].path
    ensures r < Start(plans, k) + i && r < |Flat(plans)| && Flat(plans)[r].path == q
  {
    ChildIsBelow(roots[k], q);
    if Reaches(roots[k], q) {
      assert Hit(plans[k], q, i);
      var j :| 0 <= j < i && plans[k][j].path == q;
      r := StepThere(plans, k, j);
    } else {
      assert EarlierTarget(roots, k, q);
      var n :| 0 <= n < k && roots[n] == q;
      var j := ReachedStep(fs, roots, plans, n, q);
      EarlierPlan(plans, n, j, k);
      r := StepThere(plans, n, j);
    }
  }

  lemma RemovableIsExecutable(fs: FileSystem, roots: seq<Path>, plans: seq<seq<Step<Path>>>)
    requires AllFaithful(fs, roots, plans) && Removable(fs, roots)
    ensures Executable(fs, Flat(plans))
  {
    var d := Flat(plans);
    forall p, r | 0 <= p < r < |d| ensures d[p].path != d[r].path { RemovableOnce(fs, roots, plans, p, r); }
    forall p | 0 <= p < |d| ensures d[p].path in fs && d[p].isDir == (fs[d[p].path] == Directory) {
      var k, i := StepFrom(plans, p);
    }
    forall p, q: Path | 0 <= p < |d| && d[p].isDir && q in fs && q != [] && q[..|q| - 1] == d[p].path
      ensures exists r :: 0 <= r < p && d[r].path == q
    {
      var k, i := StepFrom(plans, p);
      var r := ChildHit(fs, roots, plans, k, i, q);
    }
  }

  lemma CutOff(fs: FileSystem, root: Path, q: Path) returns (c: Path)
    requires IsTree(fs) && q in fs && Below(root, q) && |q| - |root| > MAX_DELETE_DEPTH
    ensures c in fs && JustTooDeep(root, c) && AtOrBelow(c, q)
  {
    c := q[..|root| + MAX_DELETE_DEPTH + 1];
    if |c| < |q| { PrefixesExist(fs, q, |c|); } else { assert c == q; }
    assert c[..|root|] == q[..|root|];
  }

  /** What lies too deep below one root lies below another that is nearer. */
  lemma {:induction false} NearerRoot(fs: FileSystem, roots: seq<Path>, k: nat, q: Path) returns (n: nat)
    requires IsTree(fs) && Removable(fs, roots) && k < |roots| && q in fs && AtOrBelow(roots[k], q)
    ensures n < |roots| && Reaches(roots[n], q)
    decreases |q| - |roots[k]|
  {
    if |q| - |roots[k]| <= MAX_DELETE_DEPTH { return k; }
    var c := CutOff(fs, roots[k], q);
    assert EarlierTarget(roots, k, c);
    var j :| 0 <= j < k && roots[j] == c;
    n := NearerRoot(fs, roots, j, q);
  }

  ghost function BelowRoots(fs: FileSystem, roots: seq<Path>): set<Path> {
    set q | q in fs && exists k :: 0 <= k < |roots| && AtOrBelow(roots[k], q)
  }

  lemma RemovableCovers(fs: FileSystem, roots: seq<Path>, plans: seq<seq<Step<Path>>>)
    requires AllFaithful(fs, roots, plans) && Removable(fs, roots)
    ensures PathsOf(Flat(plans)) == BelowRoots(fs, roots)
  {
    var d := Flat(plans);
    forall q | q in PathsOf(d) ensures q in BelowRoots(fs, roots) {
      var p :| 0 <= p < |d| && d[p].path == q;
      var k, i := StepFrom(plans, p);
    }
    forall q | q in BelowRoots(fs, roots) ensures q in PathsOf(d) {
      var k :| 0 <= k < |roots| && AtOrBelow(roots[k], q);
      var n := NearerRoot(fs, roots, k, q);
      var i := ReachedStep(fs, roots, plans, n, q);
      var p := StepThere(plans, n, i);
    }
  }

  lemma FaithfulRunsIff(fs: FileSystem, roots: seq<Path>, plans: seq<seq<Step<Path>>>)
    requires AllFaithful(fs, roots, plans)
    ensures var d := Flat(plans);
            && (Removable(fs, roots) <==> Executed(fs, d).1 == |d|)
            && (Removable(fs, roots) ==> Executed(fs, d).0 == fs - BelowRoots(fs, roots))
  {
    if Removable(fs, roots) {
      RemovableIsExecutable(fs, roots, plans);
      RemovableCovers(fs, roots, plans);
      ExecutableStepsAllRun(fs, Flat(plans));
    } else {
      NotRemovableBlocks(fs, roots, plans);
    }
  }

  // Targets and their plans.

  function Plans(list: Lister, targets: seq<DeleteTarget>): (plans: seq<seq<Step<Path>>>)
    ensures |plans| == |targets| && forall k | 0 <= k < |targets| :: plans[k] == Denoted(PlannedSteps(list, targets[k]))
  {
    seq(|targets|, k requires 0 <= k < |targets| => Denoted(PlannedSteps(list, targets[k])))
  }

  lemma {:induction false} MergedIsFlat(list: Lister, targets: seq<DeleteTarget>)
    ensures Denoted(AllPlannedSteps(list, targets)) == Flat(Plans(list, targets))
    decreases |targets|
  {
    if targets == [] {
      assert Plans(list, targets) == [];
    } else {
      var n := |targets| - 1;
      MergedIsFlat(list, targets[..n]);
      assert Plans(list, targets)[..n] == Plans(list, targets[..n]);
      DenotedAppends(AllPlannedSteps(list, targets[..n]), PlannedSteps(list, targets[n]));
    }
  }

  ghost predicate TrueTargets(fs: FileSystem, list: Lister, targets: seq<DeleteTarget>) {
    IsTree(fs) && TrueLister(fs, list) && forall t | t in targets :: TrueTarget(fs, t)
  }

  lemma PlansAreFaithful(fs: FileSystem, list: Lister, targets: seq<DeleteTarget>)
    requires TrueTargets(fs, list, targets)
    ensures AllFaithful(fs, Roots(targets), Plans(list, targets))
  {
    forall k | 0 <= k < |targets| ensures Faithful(fs, Roots(targets)[k], Plans(list, targets)[k]) {
      assert targets[k] in targets;
      PlanIsFaithful(fs, list, targets[k]);
    }
  }

  lemma SubtreesFromRoots(fs: FileSystem, targets: seq<DeleteTarget>)
    ensures BelowRoots(fs, Roots(targets)) == Subtrees(fs, targets)
  {
    forall q | q in BelowRoots(fs, Roots(targets)) ensures q in Subtrees(fs, targets) {
      var k :| 0 <= k < |targets| && AtOrBelow(Roots(targets)[k], q);
      assert targets[k] in targets;
    }
    forall q | q in Subtrees(fs, targets) ensures q in BelowRoots(fs, Roots(targets)) {
      var t :| t in targets && AtOrBelow(Parts(t.path), q);
      var k :| 0 <= k < |targets| && targets[k] == t;
      assert AtOrBelow(Roots(targets)[k], q);
    }
  }

  /** Carrying out the merged plan of an unchanged file system runs every step exactly when no target is reached
      from another and nothing lies below a target's limit but earlier targets; what it then removes is exactly
      the targets' subtrees. */
  lemma MergedPlanRunsIff(fs: FileSystem, list: Lister, targets: seq<DeleteTarget>)
    requires TrueTargets(fs, list, targets)
    ensures var d := Denoted(AllPlannedSteps(list, targets));
            && (Removable(fs, Roots(targets)) <==> Executed(fs, d).1 == |d|)
            && (Removable(fs, Roots(targets)) ==> Executed(fs, d).0 == fs - Subtrees(fs, targets))
  {
    PlansAreFaithful(fs, list, targets);
    MergedIsFlat(list, targets);
    SubtreesFromRoots(fs, targets);
    FaithfulRunsIff(fs, Roots(targets), Plans(list, targets));
  }

  /** Targets none of which lies at or below another. */
  ghost predicate Apart(roots: seq<Path>) {
    forall i, j | 0 <= i < |roots| && 0 <= j < |roots| && i != j :: !AtOrBelow(roots[i], roots[j])
  }

  lemma WithinDepthApart(fs: FileSystem, roots: seq<Path>)
    requires forall k | 0 <= k < |roots| :: roots[k] in fs && WithinDepth(fs, roots[k])
    ensures Removable(fs, roots) <==> Apart(roots)
  {}

  /** With everything within the limit, a merged plan removes exactly its targets' subtrees, exactly when they
      lie apart. */
  lemma MergedPlanRemovesSubtrees(fs: FileSystem, list: Lister, targets: seq<DeleteTarget>)
    requires TrueTargets(fs, list, targets) && forall t | t in targets :: WithinDepth(fs, Parts(t.path))
    ensures var d := Denoted(AllPlannedSteps(list, targets));
            && (Apart(Roots(targets)) <==> Executed(fs, d).1 == |d|)
            && (Apart(Roots(targets)) ==> Executed(fs, d).0 == fs - Subtrees(fs, targets))
  {
    var roots := Roots(targets);
    forall k | 0 <= k < |roots| ensures roots[k] in fs && WithinDepth(fs, roots[k]) { assert targets[k] in targets; }
    WithinDepthApart(fs, roots);
    MergedPlanRunsIff(fs, list, targets);
  }

  /** Nothing reached through a link is planned: everything between the target and a step is a real
      directory. */
  lemma NothingThroughLinks(fs: FileSystem, list: Lister, target: DeleteTarget, i: nat, n: nat)
    requires IsTree(fs) && TrueLister(fs, list) && TrueTarget(fs, target)
    requires i < |PlannedSteps(list, target)|
    ensures var path := Parts(PlannedSteps(list, target)[i].path);
            |Parts(target.path)| <= n < |path| ==> path[..n] in fs && fs[path[..n]] == Directory
  {
    PlannedIsInSubtree(fs, list, target, i);
    var d := Denoted(PlannedSteps(list, target));
    if n < |d[i].path| { PrefixesExist(fs, d[i].path, n); }
  }
}
