/** Declining at the space prompt while a directory is being listed. The check is never started with a walk
    running, but a tree asked for while it runs starts one, and the listing that is then at the server is not
    taken back (src/fs/TransferQueue.cpp:1071-1100, 155-180). */
module TransferDeclines {
  import opened Style
  import opened TransferQueue
  import opened TransferSafety
  import opened TransferTargets
  import opened TransferDrive
  import opened TransferWalk
  import opened TransferDebts
  import opened TransferFindings
  import RemotePath

  /** A listing whose rows go to the volume, answered and heeded. */
  predicate Refills(s: State, e: Event, volume: Option<nat>) {
    e.Answer? && e.request.List? && !s.enumCancelled && e.request.dir.destination.fs == volume
  }

  predicate RefillRun(s: State, events: seq<Event>, volume: Option<nat>)
    requires PossibleRun(s, events)
    decreases |events|
  {
    events != [] && (Refills(s, events[0], volume) || RefillRun(Handle(s, events[0]), events[1..], volume))
  }

  /** No new tree is bound for the volume. */
  predicate TreesElsewhere(events: seq<Event>, volume: Option<nat>) {
    forall e | e in events :: e.EnqueueEvent? && Accepted(e) ==> e.destination.fs != volume
  }

  /** The walk has nothing to do with the volume, but for a listing that will be ignored. */
  ghost predicate Away(s: State, volume: Option<nat>) {
    && (forall dir | dir in s.toVisit :: dir.destination.fs != volume)
    && (forall dir | List(dir) in s.out :: s.enumCancelled || dir.destination.fs != volume)
  }

  /** A directory at the server, or about to be listed, whose rows would go to the volume. */
  ghost predicate BeingListed(s: State, volume: Option<nat>) {
    exists dir :: List(dir) in s.out && !s.enumCancelled && dir.destination.fs == volume
  }

  // ------------------------------------------------------------ what keeps a walk away

  lemma {:induction false} FoundLikeParent(dir: PendingDir, entries: seq<Info>)
    ensures forall d | d in FoundDirs(dir, entries) :: d.source == dir.source && d.destination == dir.destination
    decreases |entries|
  {
    if entries != [] { FoundLikeParent(dir, entries[1..]); }
  }

  lemma RestIsAway(s: State, volume: Option<nat>)
    requires Sound(s) && Walking(s) && !s.enumerating
    ensures Away(s, volume)
  {
    NoWalkNoListing(s);
  }

  lemma StaysAway(s: State, t: State, volume: Option<nat>)
    requires WalkStays(s, t) && Away(s, volume) && s.enumerating
    ensures Away(t, volume)
  {}

  lemma ListedStaysAway(s: State, dir: PendingDir, r: Reply, volume: Option<nat>)
    requires Sound(s) && List(dir) in s.out && Away(s, volume)
    ensures var t := Handle(s, Answer(List(dir), r)); t.enumerating ==> Away(t, volume)
  {
    var u := Answered(s, List(dir));
    OnlyListing(s, dir);
    GatheredVisits(u, dir, r);
    FoundLikeParent(dir, r.entries);
    var g := Gathered(u, dir, r);
    StepWalks(g);
    assert forall d | d in g.toVisit :: d in NextVisits(u, dir, r);
    if g.toVisit != [] { NextIsAway(g, volume); }
  }

  lemma NextIsAway(s: State, volume: Option<nat>)
    requires s.toVisit != [] && NoListing(s) && forall d | d in s.toVisit :: d.destination.fs != volume
    ensures Away(StepEnumeration(s), volume)
  {
    var t := StepEnumeration(s);
    forall d | List(d) in t.out ensures d == s.toVisit[0] { assert List(d) !in s.out; }
  }

  lemma FewerAway(s: State, t: State, volume: Option<nat>, other: Option<nat>)
    requires Away(s, volume) && t.toVisit == VisitsElsewhere(s.toVisit, other) && t.enumCancelled == s.enumCancelled
    requires forall dir :: List(dir) in t.out <==> List(dir) in s.out
    ensures Away(t, volume)
  {
    FewerVisits(s.toVisit, [], other);
  }

  lemma AnswerStaysAway(s: State, q: Request, r: Reply, volume: Option<nat>)
    requires Sound(s) && q in s.out && Away(s, volume) && s.enumerating
    ensures var t := Handle(s, Answer(q, r)); t.enumerating ==> Away(t, volume)
  {
    if q.List? { ListedStaysAway(s, q.dir, r, volume); return; }
    var t := Answered(s, q);
    assert WalkStays(s, t);
    StaysAway(s, t, volume);
    if q.SpacePrompt? && !r.proceed {
      DeclineWalks(t, q.volume);
      FewerAway(t, OnAnswer(t, q, r), volume, q.volume);
    } else {
      OtherAnswerStays(t, q, r);
      StaysAway(t, OnAnswer(t, q, r), volume);
    }
  }

  lemma TreeStaysAway(s: State, e: Event, volume: Option<nat>)
    requires Sound(s) && Walking(s) && Away(s, volume) && e.EnqueueEvent? && (Accepted(e) ==> e.destination.fs != volume)
    ensures Handle(s, e).enumerating ==> Away(Handle(s, e), volume)
  {
    EnqueueWalks(s, e);
    if !s.enumerating { NoWalkNoListing(s); }
  }

  lemma EventStaysAway(s: State, e: Event, volume: Option<nat>)
    requires Sound(s) && Walking(s) && Possible(s, e) && Away(s, volume) && TreesElsewhere([e], volume)
    ensures Away(Handle(s, e), volume)
  {
    EventKeepsSound(s, e);
    EventKeepsWalking(s, e);
    assert e in [e];
    if !Handle(s, e).enumerating { RestIsAway(Handle(s, e), volume); return; }
    if e.EnqueueEvent? { TreeStaysAway(s, e, volume); return; }
    OnlyTreesStartWalks(s, e);
    match e {
      case Answer(q, r) => AnswerStaysAway(s, q, r, volume); return;
      case CancelEvent(id) => CancelStays(s, id); return;
      case CancelAllEvent => CancelsStay(DropPending(s), Unfinished(s.jobs, None)); return;
      case CancelBatchEvent(other) =>
        BatchWalks(s, other);
        FewerAway(s, Handle(s, e), volume, other);
        return;
      case CloseEvent(fs) => ClosingLeavesWalk(s, Unfinishing(s.jobs, fs), fs); return;
      case ResumeEvent => PumpStays(s.(paused := false)); return;
      case _ => return;
    }
  }

  /** No other event has a walk running that was not running before. */
  lemma OnlyTreesStartWalks(s: State, e: Event)
    requires Sound(s) && Possible(s, e) && !e.EnqueueEvent? && Handle(s, e).enumerating
    ensures s.enumerating
  {
    match e {
      case Answer(q, r) => AnswerStartsNoWalk(s, q, r); return;
      case CancelEvent(id) => CancelStays(s, id); return;
      case CancelAllEvent => CancelsStay(DropPending(s), Unfinished(s.jobs, None)); return;
      case CancelBatchEvent(other) => BatchWalks(s, other); return;
      case CloseEvent(fs) => ClosingLeavesWalk(s, Unfinishing(s.jobs, fs), fs); return;
      case ResumeEvent => PumpStays(s.(paused := false)); return;
      case _ => return;
    }
  }

  lemma AnswerStartsNoWalk(s: State, q: Request, r: Reply)
    requires Sound(s) && q in s.out && Handle(s, Answer(q, r)).enumerating
    ensures s.enumerating
  {
    var t := Answered(s, q);
    if q.List? { OnlyListing(s, q.dir); return; }
    if q.SpacePrompt? && !r.proceed { DeclineWalks(t, q.volume); return; }
    OtherAnswerStays(t, q, r);
  }

  // ------------------------------------------------------------------- main results

  lemma {:induction false} AwayNeverRefills(s: State, events: seq<Event>, volume: Option<nat>)
    requires Sound(s) && Walking(s) && Away(s, volume) && PossibleRun(s, events) && TreesElsewhere(events, volume)
    ensures !RefillRun(s, events, volume) && Away(Run(s, events), volume)
    ensures Sound(Run(s, events)) && Walking(Run(s, events))
    decreases |events|
  {
    if events != [] {
      var e := events[0];
      EventKeepsSound(s, e);
      EventKeepsWalking(s, e);
      assert TreesElsewhere([e], volume);
      EventStaysAway(s, e, volume);
      AwayNeverRefills(Handle(s, e), events[1..], volume);
    }
  }

  lemma DeclinedIsAway(s: State, volume: Option<nat>, r: Reply)
    requires Sound(s) && Walking(s) && SpacePrompt(volume) in s.out && !r.proceed && !BeingListed(s, volume)
    ensures Away(Handle(s, Answer(SpacePrompt(volume), r)), volume)
  {
    var q := SpacePrompt(volume);
    var t, u := Answered(s, q), Handle(s, Answer(q, r));
    EventKeepsSound(s, Answer(q, r));
    EventKeepsWalking(s, Answer(q, r));
    if !u.enumerating { RestIsAway(u, volume); return; }
    DeclineWalks(t, volume);
    FewerVisits(s.toVisit, [], volume);
    forall dir | List(dir) in u.out ensures u.enumCancelled || dir.destination.fs != volume { assert List(dir) in s.out; }
  }

  lemma DeclinedStillListed(s: State, volume: Option<nat>, r: Reply, dir: PendingDir)
    requires Sound(s) && SpacePrompt(volume) in s.out && !r.proceed && List(dir) in s.out
    ensures var u := Handle(s, Answer(SpacePrompt(volume), r)); List(dir) in u.out && u.enumCancelled == s.enumCancelled
  {
    OnlyListing(s, dir);
    DeclineWalks(Answered(s, SpacePrompt(volume)), volume);
  }

  /** What was declined is put back, with no new tree asked for, exactly when at the moment of declining a
      directory bound for that volume is at the server. */
  lemma DeclinedRefillsIff(s: State, volume: Option<nat>, r: Reply)
    requires Sound(s) && Walking(s) && SpacePrompt(volume) in s.out && !r.proceed
    ensures var u := Handle(s, Answer(SpacePrompt(volume), r));
            BeingListed(s, volume) <==>
            exists events :: PossibleRun(u, events) && TreesElsewhere(events, volume) && RefillRun(u, events, volume)
  {
    var u := Handle(s, Answer(SpacePrompt(volume), r));
    if BeingListed(s, volume) {
      var dir :| List(dir) in s.out && !s.enumCancelled && dir.destination.fs == volume;
      DeclinedStillListed(s, volume, r, dir);
      var events := [Answer(List(dir), GO)];
      assert PossibleRun(u, events) && TreesElsewhere(events, volume) && RefillRun(u, events, volume);
    } else {
      DeclinedIsAway(s, volume, r);
      EventKeepsSound(s, Answer(SpacePrompt(volume), r));
      EventKeepsWalking(s, Answer(SpacePrompt(volume), r));
      forall events | PossibleRun(u, events) && TreesElsewhere(events, volume) ensures !RefillRun(u, events, volume) {
        AwayNeverRefills(u, events, volume);
      }
    }
  }

  /** A check never starts with a walk running. */
  lemma CheckStartsAtRest(s: State, e: Event)
    requires Sound(s) && Possible(s, e) && s.preflight != CheckingSpace && Handle(s, e).preflight == CheckingSpace
    ensures !Handle(s, e).enumerating
  {
    match e {
      case Answer(q, r) => AnswerChecksAtRest(s, q, r); return;
      case EnqueueEvent(_, _, _, _, _) => EnqueueWalks(s, e); return;
      case CancelEvent(id) => CancelStays(s, id); return;
      case CancelAllEvent => CancelsStay(DropPending(s), Unfinished(s.jobs, None)); return;
      case CancelBatchEvent(other) => BatchWalks(s, other); return;
      case CloseEvent(fs) => ClosingChecksAtRest(s, Unfinishing(s.jobs, fs), fs); return;
      case ResumeEvent => PumpStays(s.(paused := false)); return;
      case _ => return;
    }
  }

  lemma {:induction false} ClosingChecksAtRest(s: State, ids: seq<JobId>, fs: nat)
    ensures WalkStays(s, DropJobs(s, ids, fs))
    decreases |ids|
  {
    if ids != [] {
      var t := DropJob(s, ids[0], fs);
      var i := Index(s.jobs, ids[0]);
      var u := if i < |s.jobs| then WithJob(s, i, Parted(s.jobs[i], fs)) else s;
      FinishStays(u, ids[0], Cancelled);
      StaysThenStays(s, u, t);
      ClosingChecksAtRest(t, ids[1..], fs);
      StaysThenStays(s, t, DropJobs(s, ids, fs));
    }
  }

  lemma AnswerChecksAtRest(s: State, q: Request, r: Reply)
    requires Sound(s) && q in s.out && s.preflight != CheckingSpace && Handle(s, Answer(q, r)).preflight == CheckingSpace
    ensures !Handle(s, Answer(q, r)).enumerating
  {
    var t := Answered(s, q);
    if q.List? {
      OnlyListing(s, q.dir);
      GatheredVisits(t, q.dir, r);
      AbsorbingOnlyAdds(if r.endpointGone then t.(toVisit := []) else t, q.dir, r.entries);
      StepWalks(Gathered(t, q.dir, r));
      return;
    }
    assert ClassOf(q) != Space;
    OtherAnswerStays(t, q, r);
  }

  /** So if no tree bound for the volume is asked for between the start of the check and the answer, declining leaves
      nothing behind: no listing brings any of it back, before or after. */
  lemma DecliningIsFinal(s: State, events: seq<Event>, volume: Option<nat>, r: Reply, more: seq<Event>)
    requires Sound(s) && Walking(s) && !s.enumerating && PossibleRun(s, events) && TreesElsewhere(events, volume)
    requires SpacePrompt(volume) in Run(s, events).out && !r.proceed
    requires PossibleRun(Handle(Run(s, events), Answer(SpacePrompt(volume), r)), more) && TreesElsewhere(more, volume)
    ensures !RefillRun(Handle(Run(s, events), Answer(SpacePrompt(volume), r)), more, volume)
  {
    RestIsAway(s, volume);
    AwayNeverRefills(s, events, volume);
    DeclinedRefillsIff(Run(s, events), volume, r);
  }

  // ------------------------------------------------------------------ a run where it does

  const FILE := Info("f", false, false)
  const DECLINE := GO.(proceed := false)

  function Brings(dir: PendingDir): Event {
    Answer(List(dir), GO.(entries := [FILE]))
  }

  /** The listing that was left comes back with a file, and its job is queued for the volume. */
  lemma RefillAddsJob(s: State, dir: PendingDir)
    requires Sound(s) && List(dir) in s.out && !s.enumCancelled
    ensures var t := Handle(s, Brings(dir));
            |t.jobs| == |s.jobs| + 1 && t.jobs[|s.jobs|].id == s.nextId && t.jobs[|s.jobs|].destination == dir.destination
  {
    OnlyListing(s, dir);
    var u := Answered(s, List(dir));
    var v := AddedFile(u, dir);
    if v.toVisit == [] { PumpOnlyLooks(v.(enumerating := false, enumCancelled := false)); }
  }

  lemma AddedFile(s: State, dir: PendingDir) returns (v: State)
    requires s.enumerating && !s.enumCancelled
    ensures OnListed(s, dir, [FILE], false) == StepEnumeration(v)
    ensures |v.jobs| == |s.jobs| + 1 && v.jobs[|s.jobs|].id == s.nextId && v.jobs[|s.jobs|].destination == dir.destination
  {
    v := WithNewJob(s, NewJob(Copy, dir.source, RemotePath.Join(dir.sourcePath, FILE.name), dir.destination,
                              RemotePath.Join(dir.destPath, FILE.name), Queued));
    assert AbsorbOne(s, dir, FILE) == v;
    assert AbsorbEntries(s, dir, [FILE]) == AbsorbEntries(v, dir, []);
  }

  /** A tree asked for while the user is being asked about its volume: its listing is outstanding together with
      the question, and survives the answer. */
  lemma TreeDuringQuestion(s: State, e: Event)
    requires Sound(s) && !s.enumerating && s.toVisit == [] && !s.enumCancelled && Accepted(e)
    requires SpacePrompt(e.destination.fs) in s.out
    ensures var q, t := SpacePrompt(e.destination.fs), Handle(s, e);
            && q in t.out && List(TreeOf(e)) in t.out && BeingListed(t, e.destination.fs)
            && var u := Handle(t, Answer(q, DECLINE));
               && List(TreeOf(e)) in u.out
               && var v := Handle(u, Brings(TreeOf(e)));
                  |v.jobs| == |u.jobs| + 1 && v.jobs[|u.jobs|].destination == e.destination
  {
    var q, t := SpacePrompt(e.destination.fs), Handle(s, e);
    EnqueueWalks(s, e);
    assert List(TreeOf(e)) in t.out && q in t.out;
    EventKeepsSound(s, e);
    DeclinedStillListed(t, e.destination.fs, DECLINE, TreeOf(e));
    EventKeepsSound(t, Answer(q, DECLINE));
    RefillAddsJob(Handle(t, Answer(q, DECLINE)), TreeOf(e));
  }

  /** Such a question comes up from the start: one file is queued and does not fit. */
  lemma QuestionIsReached(config: Config)
    requires !config.skipLinks && config.concerning && config.hasSpacePrompt
    ensures var s := Handle(Handle(Initial(config), Copying(false)), Answer(Measured(), DONE));
            && Possible(Handle(Initial(config), Copying(false)), Answer(Measured(), DONE))
            && Sound(s) && !s.enumerating && s.toVisit == [] && !s.enumCancelled && SpacePrompt(SERVER.fs) in s.out
  {
    var t := Handle(Initial(config), Copying(false));
    QueueFirst(config, false);
    InitialIsSound(config);
    EventKeepsSound(Initial(config), Copying(false));
    EventKeepsSound(t, Answer(Measured(), DONE));
    assert FirstUnchecked(t.jobs) == 0;
    var u := Answered(t, Measured());
    assert Verdict(u) == (Issue(u.(jobs := MarkWeighed(u.jobs, SERVER.fs)), SpacePrompt(SERVER.fs), true), false);
  }
}
