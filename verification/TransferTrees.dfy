/** The walk over a finite tree, to its end: every file and link in it, down to the depth limit, gets its job,
    and every directory is to be made after the one it lies in (src/fs/TransferQueue.cpp:155-360). */
module TransferTrees {
  import opened Style
  import opened TransferQueue
  import opened TransferSafety
  import opened TransferTargets
  import opened TransferDebts
  import opened TransferWalk
  import RemotePath

  /** What the source holds: the rows of each of its directories, by path. */
  type Listing = string -> seq<Info>

  // ------------------------------------------------------------------ what there is to do

  /** The job a row asks for, but for its id. */
  function JobOf(dir: PendingDir, e: Info, skipLinks: bool): Job {
    var src, dst := RemotePath.Join(dir.sourcePath, e.name), RemotePath.Join(dir.destPath, e.name);
    if e.isSymlink then NewJob(LinkJob, dir.source, src, dir.destination, dst, if skipLinks then Skipped else Queued)
    else NewJob(Copy, dir.source, src, dir.destination, dst, Queued)
  }

  function JobsIn(dir: PendingDir, entries: seq<Info>, skipLinks: bool): multiset<Job> {
    if entries == [] then multiset{}
    else
      (if entries[0].isSymlink || !entries[0].isDir then multiset{JobOf(dir, entries[0], skipLinks)} else multiset{})
      + JobsIn(dir, entries[1..], skipLinks)
  }

  /** How much deeper the walk may still go. */
  function Reach(dirs: seq<PendingDir>): nat {
    if dirs == [] then 0
    else
      var rest := Reach(dirs[1..]);
      if dirs[0].depth < MAX_TREE_DEPTH && MAX_TREE_DEPTH - dirs[0].depth > rest then MAX_TREE_DEPTH - dirs[0].depth else rest
  }

  lemma {:induction false} FoundReach(dir: PendingDir, entries: seq<Info>)
    ensures var found := FoundDirs(dir, entries);
            if dir.depth + 1 < MAX_TREE_DEPTH then Reach(found) <= MAX_TREE_DEPTH - dir.depth - 1 else found == []
    decreases |entries|
  {
    if entries != [] {
      FoundReach(dir, entries[1..]);
      var found, rest := FoundDirs(dir, entries), FoundDirs(dir, entries[1..]);
      if found != rest { assert found[1..] == rest; }
    }
  }

  lemma FoundReachesLess(dirs: seq<PendingDir>, entries: seq<Info>)
    requires dirs != []
    ensures var found := FoundDirs(dirs[0], entries);
            Reach(found) < Reach(dirs) || (Reach(found) <= Reach(dirs) && |found| < |dirs|)
  {
    FoundReach(dirs[0], entries);
  }

  /** A job for each file and link in the directories and below. */
  function JobsBelow(ls: Listing, dirs: seq<PendingDir>, skipLinks: bool): multiset<Job>
    decreases Reach(dirs), |dirs|
  {
    if dirs == [] then multiset{}
    else
      var rows := ls(dirs[0].sourcePath);
      FoundReachesLess(dirs, rows);
      JobsIn(dirs[0], rows, skipLinks) + JobsBelow(ls, FoundDirs(dirs[0], rows), skipLinks) + JobsBelow(ls, dirs[1..], skipLinks)
  }

  /** The directories themselves and all below them. */
  function DirsBelow(ls: Listing, dirs: seq<PendingDir>): multiset<PendingDir>
    decreases Reach(dirs), |dirs|
  {
    if dirs == [] then multiset{}
    else
      var rows := ls(dirs[0].sourcePath);
      FoundReachesLess(dirs, rows);
      multiset{dirs[0]} + DirsBelow(ls, FoundDirs(dirs[0], rows)) + DirsBelow(ls, dirs[1..])
  }

  lemma {:induction false} BelowBoth(ls: Listing, a: seq<PendingDir>, b: seq<PendingDir>, skipLinks: bool)
    ensures JobsBelow(ls, a + b, skipLinks) == JobsBelow(ls, a, skipLinks) + JobsBelow(ls, b, skipLinks)
    ensures DirsBelow(ls, a + b) == DirsBelow(ls, a) + DirsBelow(ls, b)
    decreases |a|
  {
    if a == [] {
      assert a + b == b;
    } else {
      assert (a + b)[1..] == a[1..] + b;
      BelowBoth(ls, a[1..], b, skipLinks);
    }
  }

  // ------------------------------------------------------------------ what one listing does

  function Anonymous(jobs: seq<Job>): multiset<Job> {
    if jobs == [] then multiset{} else Anonymous(jobs[..|jobs| - 1]) + multiset{jobs[|jobs| - 1].(id := NO_JOB)}
  }

  function CreateOf(dir: PendingDir): DirCreate {
    DirCreate(dir.destination, dir.destPath)
  }

  function CreatesOf(dirs: seq<PendingDir>): seq<DirCreate> {
    if dirs == [] then [] else [CreateOf(dirs[0])] + CreatesOf(dirs[1..])
  }

  /** The state after the rows of a directory, none of which starts anything while the walk runs. */
  ghost predicate TakesIn(s: State, t: State, dir: PendingDir, rows: seq<Info>) {
    && t == s.(jobs := t.jobs, nextId := t.nextId, toVisit := t.toVisit, dirsToCreate := t.dirsToCreate)
    && t.toVisit == s.toVisit + FoundDirs(dir, rows) && t.dirsToCreate == s.dirsToCreate + CreatesOf(FoundDirs(dir, rows))
    && s.jobs <= t.jobs && Anonymous(t.jobs) == Anonymous(s.jobs) + JobsIn(dir, rows, s.config.skipLinks)
  }

  lemma AddedAnonymously(s: State, job: Job)
    requires job.id == NO_JOB
    ensures Anonymous(WithNewJob(s, job).jobs) == Anonymous(s.jobs) + multiset{job}
  {
    var t := WithNewJob(s, job);
    assert t.jobs[..|t.jobs| - 1] == s.jobs;
    assert job.(id := s.nextId).(id := NO_JOB) == job;
  }

  lemma FileTakenIn(s: State, dir: PendingDir, e: Info)
    requires s.enumerating && (e.isSymlink || !e.isDir)
    ensures TakesIn(s, AbsorbOne(s, dir, e), dir, [e])
  {
    var job := JobOf(dir, e, s.config.skipLinks);
    assert [e][1..] == [];
    assert FoundDirs(dir, [e]) == [];
    assert s.toVisit + [] == s.toVisit && s.dirsToCreate + [] == s.dirsToCreate;
    assert AbsorbOne(s, dir, e) == WithNewJob(s, job);
    AddedAnonymously(s, job);
    assert JobsIn(dir, [e], s.config.skipLinks) == multiset{job};
  }

  lemma DirTakenIn(s: State, dir: PendingDir, e: Info)
    requires e.isDir && !e.isSymlink
    ensures TakesIn(s, AbsorbOne(s, dir, e), dir, [e])
  {
    assert [e][1..] == [];
    assert FoundDirs(dir, []) == [];
    var found := FoundDirs(dir, [e]);
    if found != [] { assert found[1..] == []; }
    assert s.toVisit + [] == s.toVisit && s.dirsToCreate + [] == s.dirsToCreate;
    assert JobsIn(dir, [e], s.config.skipLinks) == multiset{};
  }

  lemma Regroup<T>(a: seq<T>, b: seq<T>, c: seq<T>)
    ensures a + (b + c) == a + b + c
  {}

  lemma TakenInBoth(s: State, t: State, u: State, dir: PendingDir, rows: seq<Info>)
    requires rows != [] && TakesIn(s, t, dir, [rows[0]]) && TakesIn(t, u, dir, rows[1..])
    ensures TakesIn(s, u, dir, rows)
  {
    RowsSplit(dir, rows, s.config.skipLinks);
    var one, rest := FoundDirs(dir, [rows[0]]), FoundDirs(dir, rows[1..]);
    Regroup(s.toVisit, one, rest);
    Regroup(s.dirsToCreate, CreatesOf(one), CreatesOf(rest));
  }

  lemma {:induction false} RowsTakenIn(s: State, dir: PendingDir, rows: seq<Info>)
    requires s.enumerating
    ensures TakesIn(s, AbsorbEntries(s, dir, rows), dir, rows)
    decreases |rows|
  {
    if rows == [] {
      assert s.toVisit + [] == s.toVisit && s.dirsToCreate + [] == s.dirsToCreate;
    } else {
      var t := AbsorbOne(s, dir, rows[0]);
      if rows[0].isDir && !rows[0].isSymlink { DirTakenIn(s, dir, rows[0]); } else { FileTakenIn(s, dir, rows[0]); }
      RowsTakenIn(t, dir, rows[1..]);
      TakenInBoth(s, t, AbsorbEntries(t, dir, rows[1..]), dir, rows);
    }
  }

  lemma RowsSplit(dir: PendingDir, rows: seq<Info>, skipLinks: bool)
    requires rows != []
    ensures JobsIn(dir, rows, skipLinks) == JobsIn(dir, [rows[0]], skipLinks) + JobsIn(dir, rows[1..], skipLinks)
    ensures FoundDirs(dir, rows) == FoundDirs(dir, [rows[0]]) + FoundDirs(dir, rows[1..])
    ensures CreatesOf(FoundDirs(dir, rows)) == CreatesOf(FoundDirs(dir, [rows[0]])) + CreatesOf(FoundDirs(dir, rows[1..]))
  {
    FoundSplit(dir, rows);
    CreatesBoth(FoundDirs(dir, [rows[0]]), FoundDirs(dir, rows[1..]));
    assert [rows[0]][1..] == [];
  }

  lemma FoundSplit(dir: PendingDir, rows: seq<Info>)
    requires rows != []
    ensures FoundDirs(dir, rows) == FoundDirs(dir, [rows[0]]) + FoundDirs(dir, rows[1..])
  {
    assert [rows[0]][1..] == [];
  }

  lemma {:induction false} CreatesBoth(a: seq<PendingDir>, b: seq<PendingDir>)
    ensures CreatesOf(a + b) == CreatesOf(a) + CreatesOf(b)
    decreases |a|
  {
    if a == [] {
      assert a + b == b;
    } else {
      assert (a + b)[1..] == a[1..] + b;
      CreatesBoth(a[1..], b);
    }
  }

  // ---------------------------------------------------------------------- the whole walk

  /** The directory's listing, answered truthfully. */
  function Tell(ls: Listing, dir: PendingDir): Event {
    Answer(List(dir), GO.(entries := ls(dir.sourcePath)))
  }

  predicate Truthful(ls: Listing, events: seq<Event>) {
    forall e | e in events :: e.Answer? && e.request.List? && e == Tell(ls, e.request.dir)
  }

  function ListedIn(events: seq<Event>): multiset<PendingDir> {
    if events == [] then multiset{}
    else (if events[0].Answer? && events[0].request.List? then multiset{events[0].request.dir} else multiset{}) + ListedIn(events[1..])
  }

  /** The directory of that name in another. */
  function ChildOf(dir: PendingDir, name: string): PendingDir {
    PendingDir(dir.source, dir.destination, RemotePath.Join(dir.sourcePath, name), RemotePath.Join(dir.destPath, name), dir.depth + 1)
  }

  ghost predicate IsChildOf(dir: PendingDir, parent: PendingDir) {
    exists name :: dir == ChildOf(parent, name)
  }

  /** From there on every directory comes after the one it lies in. */
  ghost predicate ParentsFirst(dirs: seq<PendingDir>, start: nat) {
    forall j | start <= j < |dirs| :: HasParent(dirs, j)
  }

  ghost predicate HasParent(dirs: seq<PendingDir>, j: nat)
    requires j < |dirs|
  {
    exists i :: 0 <= i < j && IsChildOf(dirs[j], dirs[i])
  }

  lemma {:induction false} FoundAreChildren(dir: PendingDir, rows: seq<Info>)
    ensures forall d | d in FoundDirs(dir, rows) :: IsChildOf(d, dir)
    decreases |rows|
  {
    if rows != [] {
      FoundAreChildren(dir, rows[1..]);
      assert IsChildOf(ChildOf(dir, rows[0].name), dir);
    }
  }

  lemma ParentShifts(cur: PendingDir, tail: seq<PendingDir>, j: nat)
    requires j < |tail| && HasParent(tail, j)
    ensures HasParent([cur] + tail, j + 1)
  {
    var i :| 0 <= i < j && IsChildOf(tail[j], tail[i]);
    assert ([cur] + tail)[i + 1] == tail[i] && ([cur] + tail)[j + 1] == tail[j];
  }

  lemma CurrentIsParent(cur: PendingDir, tail: seq<PendingDir>, j: nat)
    requires j < |tail| && IsChildOf(tail[j], cur)
    ensures HasParent([cur] + tail, j + 1)
  {
    assert ([cur] + tail)[0] == cur && ([cur] + tail)[j + 1] == tail[j];
  }

  lemma FoundComeNext(cur: PendingDir, rest: seq<PendingDir>, found: seq<PendingDir>, later: seq<PendingDir>)
    requires (forall d | d in found :: IsChildOf(d, cur)) && ParentsFirst(rest + found + later, |rest + found|)
    ensures ParentsFirst([cur] + rest + (found + later), |[cur] + rest|)
  {
    var tail := rest + found + later;
    assert [cur] + rest + (found + later) == [cur] + tail;
    forall j | |[cur] + rest| <= j < |[cur] + tail| ensures HasParent([cur] + tail, j) {
      var k := j - 1;
      if k < |rest + found| {
        assert tail[k] == found[k - |rest|] && found[k - |rest|] in found;
        CurrentIsParent(cur, tail, k);
      } else {
        ParentShifts(cur, tail, k);
      }
    }
  }

  /** A walk that is listing a directory and whose rows count. */
  ghost predicate AtWork(s: State, cur: PendingDir) {
    Sound(s) && List(cur) in s.out && s.enumerating && !s.enumCancelled
  }

  /** What the walk has done by its end, over the directories that were in line: `order` is the rest of them as
      they were found. */
  ghost predicate Done(s: State, w: State, ls: Listing, line: seq<PendingDir>, order: seq<PendingDir>) {
    && s.jobs <= w.jobs && Anonymous(w.jobs) == Anonymous(s.jobs) + JobsBelow(ls, line, s.config.skipLinks)
    && w.dirsToCreate == s.dirsToCreate + CreatesOf(order)
    && multiset(line + order) == DirsBelow(ls, line) && ParentsFirst(line + order, |line|)
  }

  lemma OneToldAtWork(s: State, cur: PendingDir, ls: Listing)
    requires AtWork(s, cur)
    ensures var rows := ls(cur.sourcePath);
            var g := AbsorbEntries(Answered(s, List(cur)), cur, rows);
            && TakesIn(Answered(s, List(cur)), g, cur, rows)
            && Handle(s, Tell(ls, cur)) == StepEnumeration(g) && g.enumerating && !g.enumCancelled
  {
    OnlyListing(s, cur);
    RowsTakenIn(Answered(s, List(cur)), cur, ls(cur.sourcePath));
  }

  lemma LineBelow(ls: Listing, cur: PendingDir, rest: seq<PendingDir>, skipLinks: bool)
    ensures var rows := ls(cur.sourcePath);
            var found := FoundDirs(cur, rows);
            && JobsBelow(ls, [cur] + rest, skipLinks) == JobsIn(cur, rows, skipLinks) + JobsBelow(ls, rest + found, skipLinks)
            && DirsBelow(ls, [cur] + rest) == multiset{cur} + DirsBelow(ls, rest + found)
  {
    var found := FoundDirs(cur, ls(cur.sourcePath));
    assert ([cur] + rest)[1..] == rest;
    BelowBoth(ls, rest, found, skipLinks);
  }

  lemma DoneAtLast(s: State, cur: PendingDir, ls: Listing, w: State)
    requires s.toVisit == [] && FoundDirs(cur, ls(cur.sourcePath)) == []
    requires s.jobs <= w.jobs && Anonymous(w.jobs) == Anonymous(s.jobs) + JobsIn(cur, ls(cur.sourcePath), s.config.skipLinks)
    requires w.dirsToCreate == s.dirsToCreate
    ensures Done(s, w, ls, [cur] + s.toVisit, [])
  {
    LineBelow(ls, cur, [], s.config.skipLinks);
    assert [cur] + s.toVisit == [cur] && [] + FoundDirs(cur, ls(cur.sourcePath)) == [];
    assert [cur] + s.toVisit + [] == [cur];
    assert s.dirsToCreate + CreatesOf([]) == s.dirsToCreate;
  }

  lemma DoneBefore(s: State, cur: PendingDir, ls: Listing, t: State, w: State, order: seq<PendingDir>)
    requires var rows := ls(cur.sourcePath);
             var found := FoundDirs(cur, rows);
             && t.config == s.config && s.jobs <= t.jobs && Anonymous(t.jobs) == Anonymous(s.jobs) + JobsIn(cur, rows, s.config.skipLinks)
             && t.dirsToCreate == s.dirsToCreate + CreatesOf(found) && Done(t, w, ls, s.toVisit + found, order)
    ensures Done(s, w, ls, [cur] + s.toVisit, FoundDirs(cur, ls(cur.sourcePath)) + order)
  {
    var rows := ls(cur.sourcePath);
    var found := FoundDirs(cur, rows);
    LineBelow(ls, cur, s.toVisit, s.config.skipLinks);
    CreatesBoth(found, order);
    Regroup(s.dirsToCreate, CreatesOf(found), CreatesOf(order));
    FoundAreChildren(cur, rows);
    FoundComeNext(cur, s.toVisit, found, order);
    OneMore(cur, s.toVisit, found, order);
  }

  lemma OneMore(cur: PendingDir, rest: seq<PendingDir>, found: seq<PendingDir>, later: seq<PendingDir>)
    ensures multiset([cur] + rest + (found + later)) == multiset{cur} + multiset(rest + found + later)
  {
    assert [cur] + rest + (found + later) == [cur] + (rest + found + later);
  }

  /** The run lists each directory in line and each one below exactly once, and `w` is where the walk has ended. */
  ghost predicate Ends(s: State, cur: PendingDir, ls: Listing, events: seq<Event>, w: State, order: seq<PendingDir>) {
    && PossibleRun(s, events) && Truthful(ls, events) && ListedIn(events) == DirsBelow(ls, [cur] + s.toVisit)
    && Run(s, events) == Pump(w) && !w.enumerating && w.toVisit == []
    && Done(s, w, ls, [cur] + s.toVisit, order)
  }

  lemma LastListing(s: State, cur: PendingDir, ls: Listing) returns (w: State)
    requires AtWork(s, cur) && AbsorbEntries(Answered(s, List(cur)), cur, ls(cur.sourcePath)).toVisit == []
    ensures Ends(s, cur, ls, [Tell(ls, cur)], w, [])
  {
    var g := AbsorbEntries(Answered(s, List(cur)), cur, ls(cur.sourcePath));
    OneToldAtWork(s, cur, ls);
    w := g.(enumerating := false, enumCancelled := false);
    var found := FoundDirs(cur, ls(cur.sourcePath));
    assert s.toVisit == [] && found == [];
    DoneAtLast(s, cur, ls, w);
    OneListed(s, cur, ls);
  }

  lemma OneListed(s: State, cur: PendingDir, ls: Listing)
    requires List(cur) in s.out
    ensures var events := [Tell(ls, cur)];
            && PossibleRun(s, events) && Truthful(ls, events) && ListedIn(events) == multiset{cur}
            && Run(s, events) == Handle(s, Tell(ls, cur))
  {
    assert [Tell(ls, cur)][1..] == [];
  }

  /** Another directory is listed, and the line is what was in it and what was found. */
  ghost predicate Moves(s: State, cur: PendingDir, ls: Listing, t: State, next: PendingDir) {
    var rows := ls(cur.sourcePath);
    var found := FoundDirs(cur, rows);
    && AtWork(t, next) && [next] + t.toVisit == s.toVisit + found
    && t.config == s.config && s.jobs <= t.jobs && Anonymous(t.jobs) == Anonymous(s.jobs) + JobsIn(cur, rows, s.config.skipLinks)
    && t.dirsToCreate == s.dirsToCreate + CreatesOf(found)
  }

  lemma LineMoves(s: State, cur: PendingDir, ls: Listing) returns (next: PendingDir)
    requires AtWork(s, cur) && AbsorbEntries(Answered(s, List(cur)), cur, ls(cur.sourcePath)).toVisit != []
    ensures Moves(s, cur, ls, Handle(s, Tell(ls, cur)), next)
  {
    var g := AbsorbEntries(Answered(s, List(cur)), cur, ls(cur.sourcePath));
    next := g.toVisit[0];
    OneToldAtWork(s, cur, ls);
    NextAtWork(s, cur, ls);
    GatheredMoves(s, cur, ls, g, Handle(s, Tell(ls, cur)));
  }

  lemma GatheredMoves(s: State, cur: PendingDir, ls: Listing, g: State, t: State)
    requires TakesIn(Answered(s, List(cur)), g, cur, ls(cur.sourcePath)) && g.toVisit != [] && AtWork(t, g.toVisit[0])
    requires t.toVisit == g.toVisit[1..] && t.jobs == g.jobs && t.dirsToCreate == g.dirsToCreate && t.config == s.config
    ensures Moves(s, cur, ls, t, g.toVisit[0])
  {
    assert [g.toVisit[0]] + g.toVisit[1..] == g.toVisit;
  }

  lemma LineShrinks(s: State, cur: PendingDir, ls: Listing, t: State, next: PendingDir)
    requires Moves(s, cur, ls, t, next)
    ensures DirsBelow(ls, [cur] + s.toVisit) == multiset{cur} + DirsBelow(ls, [next] + t.toVisit)
    ensures |DirsBelow(ls, [next] + t.toVisit)| < |DirsBelow(ls, [cur] + s.toVisit)|
  {
    LineBelow(ls, cur, s.toVisit, s.config.skipLinks);
  }

  lemma MoreListed(s: State, cur: PendingDir, ls: Listing, rest: seq<Event>)
    requires List(cur) in s.out && PossibleRun(Handle(s, Tell(ls, cur)), rest) && Truthful(ls, rest)
    ensures var events := [Tell(ls, cur)] + rest;
            && PossibleRun(s, events) && Truthful(ls, events) && ListedIn(events) == multiset{cur} + ListedIn(rest)
            && Run(s, events) == Run(Handle(s, Tell(ls, cur)), rest)
  {
    assert ([Tell(ls, cur)] + rest)[1..] == rest;
  }

  lemma MoreListings(s: State, cur: PendingDir, ls: Listing, next: PendingDir, rest: seq<Event>, w: State, later: seq<PendingDir>)
    requires List(cur) in s.out && Moves(s, cur, ls, Handle(s, Tell(ls, cur)), next)
    requires Ends(Handle(s, Tell(ls, cur)), next, ls, rest, w, later)
    ensures Ends(s, cur, ls, [Tell(ls, cur)] + rest, w, FoundDirs(cur, ls(cur.sourcePath)) + later)
  {
    var t := Handle(s, Tell(ls, cur));
    LineShrinks(s, cur, ls, t, next);
    MoreListed(s, cur, ls, rest);
    DoneBefore(s, cur, ls, t, w, later);
  }

  /** Told the truth about every directory it lists, the walk comes to its end: it lists each directory in line
      and each one below exactly once, and has by then queued a job for each file and link in them and put each
      directory found behind the one it lies in. */
  lemma {:induction false} WalkComesToItsEnd(s: State, cur: PendingDir, ls: Listing)
    returns (events: seq<Event>, w: State, order: seq<PendingDir>)
    requires AtWork(s, cur)
    ensures Ends(s, cur, ls, events, w, order)
    decreases |DirsBelow(ls, [cur] + s.toVisit)|
  {
    if AbsorbEntries(Answered(s, List(cur)), cur, ls(cur.sourcePath)).toVisit == [] {
      w := LastListing(s, cur, ls);
      events, order := [Tell(ls, cur)], [];
      return;
    }
    var next := LineMoves(s, cur, ls);
    LineShrinks(s, cur, ls, Handle(s, Tell(ls, cur)), next);
    var rest, later;
    rest, w, later := WalkComesToItsEnd(Handle(s, Tell(ls, cur)), next, ls);
    MoreListings(s, cur, ls, next, rest, w, later);
    events, order := [Tell(ls, cur)] + rest, FoundDirs(cur, ls(cur.sourcePath)) + later;
  }

  lemma NextAtWork(s: State, cur: PendingDir, ls: Listing)
    requires AtWork(s, cur)
    requires AbsorbEntries(Answered(s, List(cur)), cur, ls(cur.sourcePath)).toVisit != []
    ensures var g, t := AbsorbEntries(Answered(s, List(cur)), cur, ls(cur.sourcePath)), Handle(s, Tell(ls, cur));
            && AtWork(t, g.toVisit[0]) && t.toVisit == g.toVisit[1..] && t.jobs == g.jobs && t.dirsToCreate == g.dirsToCreate
            && t.config == s.config
  {
    OneToldAtWork(s, cur, ls);
    EventKeepsSound(s, Tell(ls, cur));
    var g := AbsorbEntries(Answered(s, List(cur)), cur, ls(cur.sourcePath));
    assert List(g.toVisit[0]) in StepEnumeration(g).out;
  }

  /** After a tree has been asked for: the run answers nothing but listings, truthfully, each directory in the tree
      exactly once; every file and link in it down to the depth limit then has its job; and its directories are to be
      made parents first, after those that were already waiting. */
  ghost predicate Walked(s: State, e: Event, ls: Listing, events: seq<Event>, w: State, order: seq<PendingDir>)
    requires e.EnqueueEvent?
  {
    var t, tree := Handle(s, e), TreeOf(e);
    && PossibleRun(t, events) && Truthful(ls, events) && ListedIn(events) == DirsBelow(ls, [tree])
    && Run(t, events) == Pump(w) && !w.enumerating && w.toVisit == []
    && s.jobs <= w.jobs && Anonymous(w.jobs) == Anonymous(s.jobs) + JobsBelow(ls, [tree], s.config.skipLinks)
    && w.dirsToCreate == s.dirsToCreate + CreatesOf([tree] + order)
    && multiset([tree] + order) == DirsBelow(ls, [tree]) && ParentsFirst([tree] + order, 1)
  }

  /** A tree asked for with no walk running is walked to its end, whatever is in it. */
  lemma TreeIsWalked(s: State, e: Event, ls: Listing) returns (events: seq<Event>, w: State, order: seq<PendingDir>)
    requires Sound(s) && !s.enumerating && !s.enumCancelled && s.toVisit == [] && Accepted(e)
    ensures Walked(s, e, ls, events, w, order)
  {
    var t, tree := Handle(s, e), TreeOf(e);
    EventKeepsSound(s, e);
    TreeIsListed(s, e);
    events, w, order := WalkComesToItsEnd(t, tree, ls);
    assert [tree] + t.toVisit == [tree];
    CreatesBoth([tree], order);
    assert [tree][1..] == [];
    Regroup(s.dirsToCreate, [CreateOf(tree)], CreatesOf(order));
  }

  lemma TreeIsListed(s: State, e: Event)
    requires !s.enumerating && !s.enumCancelled && s.toVisit == [] && Accepted(e)
    ensures var t := Handle(s, e);
            && List(TreeOf(e)) in t.out && t.enumerating && !t.enumCancelled && t.toVisit == [] && t.jobs == s.jobs
            && t.config == s.config && t.dirsToCreate == s.dirsToCreate + [CreateOf(TreeOf(e))]
  {
    assert (s.toVisit + [TreeOf(e)])[1..] == [] && (s.toVisit + [TreeOf(e)])[0] == TreeOf(e);
    assert List(TreeOf(e)) in Handle(s, e).out;
  }
}
