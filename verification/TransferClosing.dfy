/** What the transfer queue still asks of a file system that has closed. Closing retires the jobs that use it and
    leaves the walk, the directories waiting to be made and the space check as they are
    (src/fs/TransferQueue.cpp:1109-1123). */
module TransferClosing {
  import opened Style
  import opened TransferQueue
  import opened TransferSafety
  import opened TransferSlot
  import opened TransferDiscipline
  import opened TransferRuns
  import opened TransferProgress
  import opened TransferBreaks
  import opened TransferBatches
  import opened TransferTargets
  import opened TransferDrive
  import opened TransferDebts
  import opened TransferWalk
  import opened TransferFindings
  import RemotePath

  /** What is left on the file system: a directory to be listed on it; one to be listed or being listed for it,
      unless the walk is cancelled and the rows will be ignored; a directory to be made on it; a space question that
      an error passes on to the parent. */
  ghost predicate Left(t: State, fs: nat) {
    || (exists dir :: dir in t.toVisit && (dir.source.fs == Some(fs) || (!t.enumCancelled && !DirShuns(dir, Some(fs)))))
    || (exists dir :: List(dir) in t.out && !t.enumCancelled && !DirShuns(dir, Some(fs)))
    || (exists create :: create in t.dirsToCreate && create.destination.fs == Some(fs))
    || (exists path, left :: QuerySpace(fs, path, left) in t.out && Climbs(path, left))
  }

  // -------------------------------------------------- what closing does to jobs and calls

  lemma {:induction false} DropsKeepAsked(s: State, ids: seq<JobId>, fs: nat, r: Request)
    requires r in s.out
    ensures r in DropJobs(s, ids, fs).out
    decreases |ids|
  {
    if ids != [] {
      RetiringPumps(s, ids[0], Using(fs));
      GoneQuietly(s, ids[0], Using(fs));
      PumpKeepsOut(Gone(s, ids[0], Using(fs)), r);
      DropsKeepAsked(DropJob(s, ids[0], fs), ids[1..], fs, r);
    }
  }

  predicate StayParted(a: seq<Job>, b: seq<Job>, fs: nat) {
    |a| == |b| && forall i | 0 <= i < |a| :: b[i].id == a[i].id && (JobShuns(a[i], Some(fs)) ==> JobShuns(b[i], Some(fs)))
  }

  lemma SameStayParted(a: seq<Job>, b: seq<Job>, c: seq<Job>, fs: nat)
    requires StayParted(a, b, fs) && SameEnds(b, c)
    ensures StayParted(a, c, fs)
  {}

  lemma DroppedParts(s: State, i: nat, fs: nat)
    requires i < |s.jobs|
    ensures StayParted(s.jobs, Dropped(s, i, fs).jobs, fs) && JobShuns(Dropped(s, i, fs).jobs[i], Some(fs))
  {}

  lemma DropParts(s: State, id: JobId, fs: nat)
    ensures StayParted(s.jobs, DropJob(s, id, fs).jobs, fs)
    ensures Index(s.jobs, id) < |s.jobs| ==> JobShuns(DropJob(s, id, fs).jobs[Index(s.jobs, id)], Some(fs))
  {
    var i := Index(s.jobs, id);
    if i == |s.jobs| {
      PumpOnlyLooks(SlotFreed(s, id));
      SameStayParted(s.jobs, s.jobs, DropJob(s, id, fs).jobs, fs);
      return;
    }
    var u := SlotFreed(Dropped(s, i, fs), id);
    DropIsPump(s, id, fs);
    DroppedParts(s, i, fs);
    PumpOnlyLooks(u);
    SameStayParted(s.jobs, u.jobs, Pump(u).jobs, fs);
  }

  /** A job that uses the file system and is retired for it uses it no longer. */
  lemma {:induction false} DropsPart(s: State, ids: seq<JobId>, fs: nat, i: nat)
    requires Knows(s)
    ensures |DropJobs(s, ids, fs).jobs| == |s.jobs|
    ensures i < |s.jobs| ==> DropJobs(s, ids, fs).jobs[i].id == s.jobs[i].id
    ensures i < |s.jobs| && (JobShuns(s.jobs[i], Some(fs)) || s.jobs[i].id in ids) ==> JobShuns(DropJobs(s, ids, fs).jobs[i], Some(fs))
    decreases |ids|
  {
    if ids != [] {
      DropParts(s, ids[0], fs);
      if i < |s.jobs| { NumberedFinds(s.jobs, s.nextId, i); }
      DropKnows(s, ids[0], fs);
      DropsPart(DropJob(s, ids[0], fs), ids[1..], fs, i);
    }
  }

  /** Every call is about a job that has been queued, and ids are not given twice. */
  ghost predicate Knows(s: State) {
    Numbered(s.jobs, s.nextId) && forall q | q in s.out :: Known(q, s.nextId)
  }

  ghost predicate NewAreLooks(s: State, t: State) {
    forall q | q in t.out && ClassOf(q) == Calling :: q in s.out || q.Stat?
  }

  lemma KnownLooks(s: State, t: State)
    requires OnlyLooks(s, t) && Knows(s)
    ensures Knows(t) && NewAreLooks(s, t)
  {
    DroppedNumbered(s.jobs, t.jobs, s.nextId);
    forall q | q in t.out && ClassOf(q) == Calling && q !in s.out ensures q.id < s.nextId {
      assert s.jobs[Index(s.jobs, q.id)].id == q.id;
    }
  }

  lemma PumpKnows(s: State)
    requires Knows(s)
    ensures Knows(Pump(s)) && NewAreLooks(s, Pump(s))
  {
    PumpOnlyLooks(s);
    KnownLooks(s, Pump(s));
  }

  lemma DroppedKnows(s: State, i: nat, fs: nat)
    requires Knows(s) && i < |s.jobs|
    ensures var u := SlotFreed(Dropped(s, i, fs), s.jobs[i].id); Knows(u) && u.out == s.out
  {
    DroppedNumbered(s.jobs, Dropped(s, i, fs).jobs, s.nextId);
  }

  /** Dropping a job calls nothing but a first look at a job there is. */
  lemma DropKnows(s: State, id: JobId, fs: nat)
    requires Knows(s)
    ensures Knows(DropJob(s, id, fs)) && NewAreLooks(s, DropJob(s, id, fs))
  {
    var i := Index(s.jobs, id);
    if i == |s.jobs| { PumpKnows(SlotFreed(s, id)); return; }
    DropIsPump(s, id, fs);
    DroppedKnows(s, i, fs);
    PumpKnows(SlotFreed(Dropped(s, i, fs), id));
  }

  lemma DroppedNumbered(a: seq<Job>, b: seq<Job>, nextId: JobId)
    requires Numbered(a, nextId) && |b| == |a| && forall j | 0 <= j < |a| :: b[j].id == a[j].id
    ensures Numbered(b, nextId)
  {}

  lemma {:induction false} DropsKnow(s: State, ids: seq<JobId>, fs: nat)
    requires Knows(s)
    ensures Knows(DropJobs(s, ids, fs)) && NewAreLooks(s, DropJobs(s, ids, fs))
    decreases |ids|
  {
    if ids != [] {
      DropKnows(s, ids[0], fs);
      DropsKnow(DropJob(s, ids[0], fs), ids[1..], fs);
    }
  }

  lemma GoodKnows(s: State)
    requires Good(ViewOf(s))
    ensures Knows(s)
  {
    var v := ViewOf(s);
    assert forall i | 0 <= i < |s.jobs| :: v.rows[i] == Row(s.jobs[i].id, s.jobs[i].state);
    forall q | q in s.out && ClassOf(q) == Calling ensures q.id < s.nextId {
      assert v.rows[Pos(v.rows, s.activeId)].id == q.id;
    }
  }

  lemma MemberUnlessShuns(job: Job, fs: nat)
    requires !job.state.Terminal() && !JobShuns(job, Some(fs))
    ensures Member(job, Using(fs))
  {}

  lemma UnfinishedIsCutOff(s: State, fs: nat, i: nat)
    requires Knows(s) && i < |s.jobs| && !s.jobs[i].state.Terminal()
    ensures var t := CancelJobsUsing(s, fs);
            |t.jobs| == |s.jobs| && t.jobs[i].id == s.jobs[i].id && JobShuns(t.jobs[i], Some(fs))
  {
    if !JobShuns(s.jobs[i], Some(fs)) {
      MemberUnlessShuns(s.jobs[i], fs);
      MembersAsListed(s.jobs);
      MembersAre(s.jobs, Using(fs));
    }
    DropsPart(s, Unfinishing(s.jobs, fs), fs, i);
  }

  /** Once the file system has closed no unfinished job uses it. */
  lemma ClosedJobsShun(s: State, fs: nat)
    requires Good(ViewOf(s))
    ensures JobsShun(CancelJobsUsing(s, fs).jobs, Some(fs))
  {
    var t := CancelJobsUsing(s, fs);
    GoodKnows(s);
    ClosingKeepsRetired(s, fs);
    DropsPart(s, Unfinishing(s.jobs, fs), fs, 0);
    forall i | 0 <= i < |t.jobs| && !t.jobs[i].state.Terminal() ensures JobShuns(t.jobs[i], Some(fs)) {
      UnfinishedBefore(s, t, i);
      UnfinishedIsCutOff(s, fs, i);
    }
  }

  lemma UnfinishedBefore(s: State, t: State, i: nat)
    requires Keeps(ViewOf(s), ViewOf(t)) && i < |s.jobs| == |t.jobs| && !t.jobs[i].state.Terminal()
    ensures !s.jobs[i].state.Terminal()
  {
    assert ViewOf(s).rows[i] == Row(s.jobs[i].id, s.jobs[i].state) && ViewOf(t).rows[i] == Row(t.jobs[i].id, t.jobs[i].state);
  }

  /** What was asked about the job in the slot does not lead there either: that job has been cut off. */
  lemma ClosedCallsShun(s: State, fs: nat, q: Request)
    requires Good(ViewOf(s)) && q in CancelJobsUsing(s, fs).out && ClassOf(q) == Calling
    ensures CallShuns(CancelJobsUsing(s, fs).jobs, q, Some(fs))
  {
    var t := CancelJobsUsing(s, fs);
    GoodKnows(s);
    DropsKnow(s, Unfinishing(s.jobs, fs), fs);
    if q.Stat? { return; }
    PosIsIndex(s.jobs, s.activeId);
    var k := Index(s.jobs, s.activeId);
    assert ViewOf(s).rows[k] == Row(s.jobs[k].id, s.jobs[k].state);
    UnfinishedIsCutOff(s, fs, k);
    NumberedFinds(t.jobs, t.nextId, k);
  }

  lemma ClosedShunsUnlessLeft(s: State, fs: nat)
    requires Good(ViewOf(s))
    ensures var t := CancelJobsUsing(s, fs); Shuns(t, Some(fs)) <==> !Left(t, fs)
  {
    var t := CancelJobsUsing(s, fs);
    GoodKnows(s);
    DropsKnow(s, Unfinishing(s.jobs, fs), fs);
    ClosedJobsShun(s, fs);
    forall q | q in t.out && ClassOf(q) == Calling ensures CallShuns(t.jobs, q, Some(fs)) { ClosedCallsShun(s, fs, q); }
    LeftExactly(t, fs);
  }

  /** Of all that would lead to the file system, only these can be left. */
  lemma LeftExactly(t: State, fs: nat)
    requires Knows(t) && JobsShun(t.jobs, Some(fs))
    requires forall q | q in t.out && ClassOf(q) == Calling :: CallShuns(t.jobs, q, Some(fs))
    ensures Shuns(t, Some(fs)) <==> !Left(t, fs)
  {
    WalkExactly(t, fs);
    if Left(t, fs) && WalkShuns(t, Some(fs)) {
      var path, left :| QuerySpace(fs, path, left) in t.out && Climbs(path, left);
      assert !CallShuns(t.jobs, QuerySpace(fs, path, left), Some(fs));
    }
    if !Left(t, fs) {
      forall q | q in t.out ensures CallShuns(t.jobs, q, Some(fs)) {
        if q.QuerySpace? && q.fs == fs { assert QuerySpace(fs, q.path, q.ancestorsLeft) in t.out; }
      }
    }
  }

  lemma WalkExactly(t: State, fs: nat)
    ensures !Left(t, fs) ==> WalkShuns(t, Some(fs))
    ensures WalkShuns(t, Some(fs)) && Left(t, fs) ==> exists path, left :: QuerySpace(fs, path, left) in t.out && Climbs(path, left)
  {}

  // ------------------------------------------------------------------ it is asked again

  /** Quiet events, with no new work at the endpoint. */
  predicate Later(s: State, events: seq<Event>, ban: Option<nat>) {
    PossibleRun(s, events) && forall e | e in events :: Quiet(e) && NewElsewhere(e, ban)
  }

  /** The run asks something at the endpoint. */
  predicate Revisits(s: State, events: seq<Event>, ban: Option<nat>) {
    Later(s, events, ban) && s.log <= Run(s, events).log && AskedAt(s, Run(s, events), ban)
  }

  ghost predicate LeadsThere(s: State, ban: Option<nat>) {
    exists events :: Revisits(s, events, ban)
  }

  lemma RunsOn(s: State, first: seq<Event>, more: seq<Event>)
    requires PossibleRun(s, first) && PossibleRun(Run(s, first), more)
    ensures PossibleRun(s, first + more) && Run(s, first + more) == Run(Run(s, first), more)
  {
    RunFollows(s, first);
    RunFollows(Run(s, first), more);
    RunFollows(s, first + more);
    FollowBoth(Tried, s, first, more);
  }

  lemma AskedOn(s: State, t: State, u: State, ban: Option<nat>)
    requires s.log <= t.log && t.log <= u.log && (AskedAt(s, t, ban) || AskedAt(t, u, ban))
    ensures AskedAt(s, u, ban)
  {
    if AskedAt(s, t, ban) {
      var k :| |s.log| <= k < |t.log| && MadeAt(t.log[k], ban);
      assert u.log[k] == t.log[k];
    } else {
      var k :| |t.log| <= k < |u.log| && MadeAt(u.log[k], ban);
      assert |s.log| <= k;
    }
  }

  /** A few quiet events first, and then what they lead to. */
  lemma LedThere(s: State, first: seq<Event>, ban: Option<nat>)
    requires Later(s, first, ban) && s.log <= Run(s, first).log
    requires AskedAt(s, Run(s, first), ban) || LeadsThere(Run(s, first), ban)
    ensures LeadsThere(s, ban)
  {
    var t := Run(s, first);
    if AskedAt(s, t, ban) {
      assert Revisits(s, first, ban);
    } else {
      var more :| Revisits(t, more, ban);
      RunsOn(s, first, more);
      AskedOn(s, t, Run(t, more), ban);
      assert Revisits(s, first + more, ban);
    }
  }

  lemma LedThereAtOnce(s: State, e: Event, ban: Option<nat>)
    requires Possible(s, e) && Quiet(e) && NewElsewhere(e, ban) && s.log <= Handle(s, e).log
    requires AskedAt(s, Handle(s, e), ban) || LeadsThere(Handle(s, e), ban)
    ensures LeadsThere(s, ban)
  {
    assert [e][1..] == [];
    LedThere(s, [e], ban);
  }

  // A walk goes on listing one directory after the other.

  lemma WalkGoesOn(s: State, current: PendingDir)
    requires Running(s) && Knows(s) && s.toVisit != [] && List(current) in s.out
    ensures var t := Handle(s, Answer(List(current), GO));
            && t == Issue(Answered(s, List(current)).(toVisit := s.toVisit[1..]), List(s.toVisit[0]), true)
            && Running(t) && Knows(t) && List(s.toVisit[0]) in t.out
  {
    AnswerRuns(s, List(current), GO);
    var t := Handle(s, Answer(List(current), GO));
    assert OnListed(Answered(s, List(current)), current, [], false) == StepEnumeration(Answered(s, List(current)));
    assert List(s.toVisit[0]) in t.out;
    forall q | q in t.out && q != List(s.toVisit[0]) ensures Known(q, s.nextId) { assert q in s.out; }
  }

  ghost function Current(s: State): (dir: PendingDir)
    requires Sound(s) && s.enumerating
    ensures List(dir) in s.out
  {
    var q :| q in s.out && ClassOf(q) == Listing;
    q.dir
  }

  /** A directory waiting to be listed on the file system is listed there, and one to be listed for it brings a
      link that leads there. */
  lemma {:induction false} VisitLeadsThere(s: State, k: nat, fs: nat)
    requires Running(s) && Knows(s) && k < |s.toVisit|
    requires s.toVisit[k].source.fs == Some(fs) ||
             (!s.enumCancelled && s.toVisit[k].destination.fs == Some(fs) && s.toVisit[k].source.fs.Some?)
    ensures LeadsThere(s, Some(fs))
    decreases k
  {
    var current, dir := Current(s), s.toVisit[k];
    var t := Handle(s, Answer(List(current), GO));
    WalkGoesOn(s, current);
    if k > 0 {
      assert t.toVisit[k - 1] == dir;
      VisitLeadsThere(t, k - 1, fs);
    } else if dir.source.fs == Some(fs) {
      assert MadeAt(t.log[|s.log|], Some(fs));
    } else {
      ListingLeadsThere(t, dir, fs);
    }
    LedThereAtOnce(s, Answer(List(current), GO), Some(fs));
  }

  // A link in a listing is queued, begun and read.

  const LINK := Info("a", false, true)

  function LinkIn(dir: PendingDir): Job {
    NewJob(LinkJob, dir.source, RemotePath.Join(dir.sourcePath, LINK.name), dir.destination,
           RemotePath.Join(dir.destPath, LINK.name), Queued)
  }

  function Brings(dir: PendingDir): Event {
    Answer(List(dir), GO.(entries := [LINK]))
  }

  lemma RowIsTaken(s: State, dir: PendingDir)
    requires s.enumerating && !s.enumCancelled && !s.config.skipLinks
    ensures OnListed(s, dir, [LINK], false) == StepEnumeration(WithNewJob(s, LinkIn(dir)))
  {
    assert AbsorbEntries(s, dir, [LINK]) == AbsorbEntries(AbsorbOne(s, dir, LINK), dir, []);
    assert AbsorbOne(s, dir, LINK) == AddJob(s, LinkIn(dir));
  }

  lemma NewJobNumbered(s: State, job: Job)
    requires WellNumbered(s)
    ensures WellNumbered(WithNewJob(s, job)) && Index(WithNewJob(s, job).jobs, s.nextId) == |s.jobs|
    ensures Index(s.jobs, s.activeId) < |s.jobs| ==> Index(WithNewJob(s, job).jobs, s.activeId) == Index(s.jobs, s.activeId)
  {
    var t := WithNewJob(s, job);
    assert forall i | 0 <= i < |s.jobs| :: t.jobs[i] == s.jobs[i] && t.jobs[i].id != s.nextId;
    assert t.jobs[|s.jobs|].id == s.nextId;
  }

  lemma AddedOwes(s: State, job: Job, debt: Debt)
    requires Knows(s) && WellNumbered(s) && job.state == Queued && Due(job, debt) && debt.id == s.nextId
    ensures Owes(WithNewJob(s, job), debt)
  {
    NewJobNumbered(s, job);
    forall q | q in s.out && ClassOf(q) == Calling ensures q.id != debt.id { assert Known(q, s.nextId); }
  }

  lemma RowRuns(s: State, dir: PendingDir)
    requires Running(s) && List(dir) in s.out && !s.enumCancelled && !s.config.skipLinks
    ensures Running(Handle(s, Brings(dir)))
  {
    OnlyListing(s, dir);
    var u := Answered(s, List(dir));
    EventKeepsSound(s, Brings(dir));
    RowIsTaken(u, dir);
    TakingKeeps(s, List(dir));
    AddedIsManned(u, LinkIn(dir));
    WalkRuns(WithNewJob(u, LinkIn(dir)));
  }

  lemma AddedIsManned(s: State, job: Job)
    requires WellNumbered(s) && Manned(s)
    ensures WellNumbered(WithNewJob(s, job)) && Manned(WithNewJob(s, job))
  {
    NewJobNumbered(s, job);
  }

  lemma RowIsOwed(s: State, dir: PendingDir, debt: Debt)
    requires Running(s) && Knows(s) && List(dir) in s.out && !s.enumCancelled && !s.config.skipLinks
    requires dir.source.fs.Some? && dir.destination.fs.Some? && debt == ReadingOf(s.nextId, dir.source.fs.value, dir.destination.fs.value)
    ensures var t := Handle(s, Brings(dir));
            s.log <= t.log && (Owes(t, debt) || Paid(s, t, debt))
  {
    OnlyListing(s, dir);
    var u := Answered(s, List(dir));
    var v := WithNewJob(u, LinkIn(dir));
    RowIsTaken(u, dir);
    AnsweredKnows(s, List(dir));
    AddedOwes(u, LinkIn(dir), debt);
    NewJobNumbered(u, LinkIn(dir));
    WalkHonours(v, debt);
  }

  lemma AnsweredKnows(s: State, q: Request)
    requires Knows(s)
    ensures Knows(Answered(s, q))
  {
    forall r | r in Answered(s, q).out ensures r in s.out {}
  }

  /** The listing under way brings a link; its job is begun and looks up the destination, and then reads the source. */
  lemma ListingLeadsThere(s: State, dir: PendingDir, fs: nat)
    requires Running(s) && Knows(s) && List(dir) in s.out && !s.enumCancelled
    requires dir.source.fs.Some? && dir.destination.fs.Some? && !DirShuns(dir, Some(fs))
    ensures LeadsThere(s, Some(fs))
  {
    var e := ConfigureEvent(s.config.(skipLinks := false));
    var t := s.(config := s.config.(skipLinks := false));
    assert t == Handle(s, e);
    LinkLeadsThere(t, dir, fs);
    LedThereAtOnce(s, e, Some(fs));
  }

  lemma LinkLeadsThere(s: State, dir: PendingDir, fs: nat)
    requires Running(s) && Knows(s) && List(dir) in s.out && !s.enumCancelled && !s.config.skipLinks
    requires dir.source.fs.Some? && dir.destination.fs.Some? && !DirShuns(dir, Some(fs))
    ensures LeadsThere(s, Some(fs))
  {
    var debt := ReadingOf(s.nextId, dir.source.fs.value, dir.destination.fs.value);
    RowRuns(s, dir);
    RowIsOwed(s, dir, debt);
    var t := Handle(s, Brings(dir));
    if Owes(t, debt) {
      OwedLeadsThere(t, debt, fs);
      LedThereAtOnce(s, Brings(dir), Some(fs));
    } else {
      assert [Brings(dir)][1..] == [];
      PaidLeadsThere(s, [Brings(dir)], debt, fs);
    }
  }

  lemma PaidLeadsThere(s: State, events: seq<Event>, debt: Debt, fs: nat)
    requires debt.ReadingOf? && (debt.source == fs || debt.destination == fs)
    requires Later(s, events, Some(fs)) && s.log <= Run(s, events).log && Paid(s, Run(s, events), debt)
    ensures LeadsThere(s, Some(fs))
  {
    if debt.source == fs { BegunLeadsThere(Run(s, events), debt, fs); }
    LedThere(s, events, Some(fs));
  }

  lemma BegunLeadsThere(s: State, debt: Debt, fs: nat)
    requires debt.ReadingOf? && debt.source == fs && DueIn(s.jobs, debt, Checking) && Stat(debt.id) in s.out
    ensures LeadsThere(s, Some(fs))
  {
    BegunIsRead(s, debt);
    LedThereAtOnce(s, Answer(Stat(debt.id), GO), Some(fs));
  }

  lemma OwedLeadsThere(s: State, debt: Debt, fs: nat)
    requires Running(s) && Owes(s, debt)
    requires match debt
             case MakingOf(create) => create.destination.fs == Some(fs)
             case ReadingOf(_, source, destination) => source == fs || destination == fs
    ensures LeadsThere(s, Some(fs))
  {
    var events := DebtIsPaid(s, debt);
    assert forall e | e in events :: Quiet(e) && NewElsewhere(e, Some(fs));
    if debt.MakingOf? { LedThere(s, events, Some(fs)); } else { PaidLeadsThere(s, events, debt, fs); }
  }


  /** A queue that has resumed asks it there if it did so before. */
  lemma ResumedLeadsThere(s: State, fs: nat)
    requires s.log <= Handle(s, ResumeEvent).log
    requires LeadsThere(Handle(s, ResumeEvent), Some(fs)) || AskedAt(s, Handle(s, ResumeEvent), Some(fs))
    ensures LeadsThere(s, Some(fs))
  {
    LedThereAtOnce(s, ResumeEvent, Some(fs));
  }

  lemma DirectoryLeadsThere(s: State, create: DirCreate, fs: nat)
    requires Able(s) && create in s.dirsToCreate && create.destination.fs == Some(fs)
    ensures LeadsThere(s, Some(fs))
  {
    var debt := MakingOf(create);
    var t := Handle(s, ResumeEvent);
    ResumedRuns(s);
    if s.paused { PumpHonours(s.(paused := false), debt); }
    if Owes(t, debt) { OwedLeadsThere(t, debt, fs); }
    ResumedLeadsThere(s, fs);
  }

  lemma SpaceLeadsThere(s: State, fs: nat, path: string, left: nat)
    requires QuerySpace(fs, path, left) in s.out && Climbs(path, left)
    ensures LeadsThere(s, Some(fs))
  {
    var q, no := QuerySpace(fs, path, left), GO.(ok := false);
    var t := Handle(s, Answer(q, no));
    var parent := RemotePath.Parent(path);
    assert t == Issue(Answered(s, q), QuerySpace(fs, parent, left - 1), true);
    assert MadeAt(t.log[|s.log|], Some(fs));
    LedThereAtOnce(s, Answer(q, no), Some(fs));
  }

  /** While a walk runs, resuming starts nothing. */
  lemma WalkingLeadsThere(s: State, fs: nat)
    requires Able(s) && s.enumerating
    requires LeadsThere(s.(paused := false), Some(fs))
    ensures LeadsThere(s, Some(fs))
  {
    if s.paused {
      assert Handle(s, ResumeEvent) == s.(paused := false);
      ResumedLeadsThere(s, fs);
    } else {
      assert s.(paused := false) == s;
    }
  }

  /** The trees being walked have both their endpoints. */
  ghost predicate LiveWalk(s: State) {
    && (forall dir | dir in s.toVisit :: dir.source.fs.Some? && (s.enumCancelled || dir.destination.fs.Some?))
    && (forall dir | List(dir) in s.out :: s.enumCancelled || DirShuns(dir, None))
  }

  /** Whatever is left leads there. */
  lemma LeftLeadsThere(s: State, fs: nat)
    requires Able(s) && Knows(s) && LiveWalk(s) && Left(s, fs)
    ensures LeadsThere(s, Some(fs))
  {
    if path, left :| QuerySpace(fs, path, left) in s.out && Climbs(path, left) { SpaceLeadsThere(s, fs, path, left); return; }
    if create :| create in s.dirsToCreate && create.destination.fs == Some(fs) { DirectoryLeadsThere(s, create, fs); return; }
    if !s.enumerating { NoWalkNoListing(s); }
    ResumedRuns(s);
    WalkLeadsThere(s.(paused := false), fs);
    WalkingLeadsThere(s, fs);
  }

  lemma WalkLeadsThere(s: State, fs: nat)
    requires Running(s) && Knows(s) && LiveWalk(s)
    requires || (exists dir :: dir in s.toVisit && (dir.source.fs == Some(fs) || (!s.enumCancelled && !DirShuns(dir, Some(fs)))))
             || (exists dir :: List(dir) in s.out && !s.enumCancelled && !DirShuns(dir, Some(fs)))
    ensures LeadsThere(s, Some(fs))
  {
    if dir :| List(dir) in s.out && !s.enumCancelled && !DirShuns(dir, Some(fs)) { ListingLeadsThere(s, dir, fs); return; }
    var dir :| dir in s.toVisit && (dir.source.fs == Some(fs) || (!s.enumCancelled && !DirShuns(dir, Some(fs))));
    var k :| 0 <= k < |s.toVisit| && s.toVisit[k] == dir;
    VisitLeadsThere(s, k, fs);
  }

  // -------------------------------------------------------------------- main result

  /** What a queue is like on every run that only does what is allowed and only walks trees with both endpoints. */
  ghost predicate Sane(s: State) {
    Good(ViewOf(s)) && Sound(s) && Live(s) && Walking(s) && Shuns(s, None)
  }

  lemma GoodIsManned(s: State)
    requires Good(ViewOf(s))
    ensures Manned(s) && WellNumbered(s)
  {
    GoodKnows(s);
    GoodIsPositive(s);
    PosIsIndex(s.jobs, s.activeId);
    var k := Index(s.jobs, s.activeId);
    if s.activeId != NO_JOB { assert ViewOf(s).rows[k] == Row(s.jobs[k].id, s.jobs[k].state); }
  }

  /** The walk is as it was. */
  lemma ClosingKeepsWalk(s: State, fs: nat)
    requires Sane(s)
    ensures var t := CancelJobsUsing(s, fs); Able(t) && Knows(t) && LiveWalk(t)
  {
    var t, ids := CancelJobsUsing(s, fs), Unfinishing(s.jobs, fs);
    GoodIsManned(s);
    GoodKnows(s);
    DropsKnow(s, ids, fs);
    ClosingIsOrderly(s, ids, fs);
    DroppingIsSound(s, ids, fs);
    ClosingLeavesWalk(s, ids, fs);
    if !t.enumerating { NoWalkNoListing(t); }
  }

  lemma NothingLeftIsAsked(t: State, fs: nat)
    requires Sound(t) && Shuns(t, Some(fs))
    ensures forall events | PossibleRun(t, events) && AllElsewhere(t, events, Some(fs)) :: !AskedAt(t, Run(t, events), Some(fs))
    ensures !LeadsThere(t, Some(fs))
  {
    forall events | PossibleRun(t, events) && AllElsewhere(t, events, Some(fs)) ensures !AskedAt(t, Run(t, events), Some(fs)) {
      EveryRunAvoids(t, events, Some(fs));
    }
    forall events | Later(t, events, Some(fs)) ensures AllElsewhere(t, events, Some(fs)) { LaterIsElsewhere(t, events, fs); }
  }

  /** After a file system has closed, some quiet run without new work there asks it exactly when something is left on
      it; and when nothing is, no run at all does. */
  lemma ClosedIsAskedIff(s: State, fs: nat)
    requires Sane(s)
    ensures var t := CancelJobsUsing(s, fs);
            && (Left(t, fs) <==> LeadsThere(t, Some(fs)))
            && (!Left(t, fs) ==> forall events | PossibleRun(t, events) && AllElsewhere(t, events, Some(fs)) ::
                                   !AskedAt(t, Run(t, events), Some(fs)))
  {
    ClosingKeepsWalk(s, fs);
    ClosedShunsUnlessLeft(s, fs);
    if Left(CancelJobsUsing(s, fs), fs) { LeftLeadsThere(CancelJobsUsing(s, fs), fs); }
    else { NothingLeftIsAsked(CancelJobsUsing(s, fs), fs); }
  }

  lemma {:induction false} LaterIsElsewhere(s: State, events: seq<Event>, fs: nat)
    requires Later(s, events, Some(fs))
    ensures AllElsewhere(s, events, Some(fs))
    decreases |events|
  {
    if events != [] {
      assert Quiet(events[0]) && NewElsewhere(events[0], Some(fs));
      LaterIsElsewhere(Handle(s, events[0]), events[1..], fs);
    }
  }

  // -------------------------------------------------------- what allowed runs keep

  /** A file system may close without a call outstanding that leads to it. */
  lemma AllowedCloseIsSafe(s: State, fs: nat)
    requires Good(ViewOf(s)) && Allowed(s, CloseEvent(fs))
    ensures SafeClose(s, fs)
  {
    if !NoCall(s.out) {
      var k := OutsiderHolds(s, fs);
      forall q | q in s.out && ClassOf(q) == Calling ensures CallShuns(s.jobs, q, Some(fs)) { assert q.id == s.activeId; }
    }
  }

  lemma OutsiderHolds(s: State, fs: nat) returns (k: nat)
    requires Good(ViewOf(s)) && Allowed(s, CloseEvent(fs)) && !NoCall(s.out)
    ensures k < |s.jobs| && k == Index(s.jobs, s.activeId) && JobShuns(s.jobs[k], Some(fs))
  {
    PosIsIndex(s.jobs, s.activeId);
    k := Index(s.jobs, s.activeId);
    assert ViewOf(s).rows[k] == Row(s.jobs[k].id, s.jobs[k].state);
    MembersAre(s.jobs, Using(fs));
    assert !Member(s.jobs[k], Using(fs));
  }

  /** Whatever is allowed, with both endpoints there for every new tree, keeps the queue sane, and nothing is asked
      through an endpoint that is not there. */
  lemma SaneStays(s: State, e: Event)
    requires Sane(s) && Possible(s, e) && Allowed(s, e) && NewElsewhere(e, None)
    ensures Sane(Handle(s, e)) && Silent(s, Handle(s, e), None)
  {
    AllowedKeepsGood(s, e);
    EventKeepsSound(s, e);
    EventKeepsLive(s, e);
    GoodIsManned(s);
    EventKeepsWalking(s, e);
    if e.CloseEvent? { AllowedCloseIsSafe(s, e.fs); }
    EventAvoids(s, e, None);
  }

  lemma AllowedKeepsGood(s: State, e: Event)
    requires Good(ViewOf(s)) && Possible(s, e) && Allowed(s, e)
    ensures Good(ViewOf(Handle(s, e)))
  {
    DisciplinedIsAllowed(s, e);
    EventExactly(s, e);
  }

  ghost predicate AllAllowed(s: State, events: seq<Event>)
    requires PossibleRun(s, events)
    decreases |events|
  {
    events == [] || (Allowed(s, events[0]) && NewElsewhere(events[0], None) && AllAllowed(Handle(s, events[0]), events[1..]))
  }

  lemma {:induction false} EveryAllowedRunIsSane(s: State, events: seq<Event>)
    requires Sane(s) && PossibleRun(s, events) && AllAllowed(s, events)
    ensures Sane(Run(s, events)) && Silent(s, Run(s, events), None)
    decreases |events|
  {
    if events != [] {
      var t := Handle(s, events[0]);
      SaneStays(s, events[0]);
      EveryAllowedRunIsSane(t, events[1..]);
      AvoidsComposes(s, t, Run(s, events), None);
    }
  }

  lemma InitialIsSane(config: Config)
    ensures Sane(Initial(config))
  {
    InitialIsGood(config);
    InitialIsSound(config);
    InitialIsLive(config);
    InitialShuns(config, None);
  }

  // ------------------------------------------------------------ the walk's very next step

  ghost predicate Lists(s: State, fs: nat) {
    exists dir :: List(dir) in s.out && dir.source.fs == Some(fs)
  }

  /** With no listing outstanding, the walk's next step lists the next directory to visit. */
  lemma NextListingIff(s: State, fs: nat)
    requires LogIsSound(s.log) && Watches(s.out, false, s.preflight == CheckingSpace)
    ensures Lists(StepEnumeration(s), fs) <==> s.toVisit != [] && s.toVisit[0].source.fs == Some(fs)
  {
    forall dir ensures List(dir) !in s.out { assert ClassOf(List(dir)) == Listing; }
    if s.toVisit == [] {
      PumpIsSound(s.(enumerating := false, enumCancelled := false));
      NoWalkNoListing(StepEnumeration(s));
      return;
    }
    var t := StepEnumeration(s);
    assert forall dir :: List(dir) in t.out <==> dir == s.toVisit[0];
  }

  /** Closing a file system leaves the walk as it was: whatever the listing under way brings, the next one is asked of
      the closed file system exactly when the directory that is first in line by then lies on it. */
  lemma ClosedIsListedIff(s: State, fs: nat, first: PendingDir, r: Reply)
    requires Sound(s) && List(first) in s.out
    ensures var t, next := CancelJobsUsing(s, fs), NextVisits(s, first, r);
            && Possible(t, Answer(List(first), r))
            && (Lists(Handle(t, Answer(List(first), r)), fs) <==> next != [] && next[0].source.fs == Some(fs))
  {
    var t := CancelJobsUsing(s, fs);
    OnlyListing(s, first);
    ClosingLeavesWalk(s, Unfinishing(s.jobs, fs), fs);
    DroppingIsSound(s, Unfinishing(s.jobs, fs), fs);
    var v := Answered(t, List(first));
    AnswerKeepsWatches(t.out, List(first), true, t.preflight == CheckingSpace);
    GatheredVisits(v, first, r);
    AbsorbingOnlyAdds(if r.endpointGone then v.(toVisit := []) else v, first, r.entries);
    NextListingIff(Gathered(v, first, r), fs);
  }
}
