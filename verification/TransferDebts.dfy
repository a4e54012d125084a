/** What the transfer queue owes it pays: a directory waiting to be made is made, and a link waiting in the queue
    has its destination looked up and its target read, by answers alone. */
module TransferDebts {
  import opened Style
  import opened TransferQueue
  import opened TransferSafety
  import opened TransferSlot
  import opened TransferProgress
  import opened TransferDrain
  import opened TransferTargets
  import opened TransferDrive
  import RemotePath

  /** A directory to be made, or a link to be read from one file system and written to another. */
  datatype Debt = MakingOf(create: DirCreate) | ReadingOf(id: JobId, source: nat, destination: nat)

  predicate Concerns(id: JobId, debt: Debt) {
    debt.ReadingOf? && id == debt.id
  }

  predicate Due(job: Job, debt: Debt) {
    debt.ReadingOf? && job.kind == LinkJob && job.source.fs == Some(debt.source) && job.destination.fs == Some(debt.destination)
  }

  predicate DueIn(jobs: seq<Job>, debt: Debt, state: JobState) {
    debt.ReadingOf? && Listed(jobs, debt.id) && jobs[Index(jobs, debt.id)].state == state && Due(jobs[Index(jobs, debt.id)], debt)
  }

  ghost predicate Owes(s: State, debt: Debt) {
    match debt
    case MakingOf(create) => create in s.dirsToCreate
    case ReadingOf(id, _, _) => DueIn(s.jobs, debt, Queued) && !CallFor(s.out, id)
  }

  /** Between the two states something was asked at the endpoint. */
  predicate AskedAt(s: State, t: State, ban: Option<nat>) {
    exists k :: |s.log| <= k < |t.log| && MadeAt(t.log[k], ban)
  }

  /** The directory is being made, or the link has just been begun. */
  ghost predicate Paid(s: State, t: State, debt: Debt) {
    match debt
    case MakingOf(create) => AskedAt(s, t, create.destination.fs)
    case ReadingOf(id, _, destination) => AskedAt(s, t, Some(destination)) && DueIn(t.jobs, debt, Checking) && Stat(id) in t.out
  }

  ghost predicate Honours(s: State, t: State, debt: Debt) {
    s.log <= t.log && (WellNumbered(s) && Owes(s, debt) ==> Owes(t, debt) || Paid(s, t, debt))
  }

  /** A part of a step on which the debt stands. */
  ghost predicate Leaves(s: State, t: State, debt: Debt) {
    s.log <= t.log && (WellNumbered(s) ==> WellNumbered(t)) && (Owes(s, debt) ==> Owes(t, debt))
  }

  lemma LeavesThenHonours(s: State, t: State, u: State, debt: Debt)
    requires Leaves(s, t, debt) && Honours(t, u, debt)
    ensures Honours(s, u, debt)
  {}

  lemma LeavesComposes(s: State, t: State, u: State, debt: Debt)
    requires Leaves(s, t, debt) && Leaves(t, u, debt)
    ensures Leaves(s, u, debt)
  {}

  // ------------------------------------------------------------------- small steps

  lemma IssueLeaves(s: State, q: Request, weighed: bool, debt: Debt)
    requires ClassOf(q) == Calling ==> !Concerns(q.id, debt)
    ensures Leaves(s, Issue(s, q, weighed), debt)
  {
    if Owes(s, debt) && debt.ReadingOf? {
      forall r | r in Issue(s, q, weighed).out && ClassOf(r) == Calling ensures r.id != debt.id {
        if r != q { assert r in s.out; }
      }
    }
  }

  lemma JobLeaves(s: State, i: nat, job: Job, debt: Debt)
    requires i < |s.jobs| && job.id == s.jobs[i].id
    requires Concerns(job.id, debt) ==> job.state == Queued && Due(job, debt)
    ensures Leaves(s, WithJob(s, i, job), debt)
  {
    var t := WithJob(s, i, job);
    if debt.ReadingOf? { IdsFound(s.jobs, t.jobs, debt.id); }
  }

  lemma TakenLeaves(s: State, q: Request, debt: Debt)
    ensures Leaves(s, Answered(s, q), debt)
  {
    forall r | r in Answered(s, q).out ensures r in s.out {}
  }

  lemma MarkedLeaves(s: State, volume: Option<nat>, debt: Debt)
    ensures Leaves(s, s.(jobs := MarkWeighed(s.jobs, volume)), debt)
  {
    var jobs := MarkWeighed(s.jobs, volume);
    AlikeCarries(s, jobs);
    if debt.ReadingOf? { MarkedDue(s.jobs, volume, debt); }
  }

  lemma MarkedDue(jobs: seq<Job>, volume: Option<nat>, debt: Debt)
    requires debt.ReadingOf?
    ensures DueIn(jobs, debt, Queued) ==> DueIn(MarkWeighed(jobs, volume), debt, Queued)
  {
    IdsFound(jobs, MarkWeighed(jobs, volume), debt.id);
  }

  lemma VerdictLeaves(s: State, debt: Debt)
    ensures Leaves(s, Verdict(s).0, debt)
  {
    var first := FirstUnchecked(s.jobs);
    if first < |s.jobs| {
      var volume := s.jobs[first].destination.fs;
      var t := s.(jobs := MarkWeighed(s.jobs, volume));
      MarkedLeaves(s, volume, debt);
      IssueLeaves(t, SpacePrompt(volume), true, debt);
      LeavesComposes(s, t, Issue(t, SpacePrompt(volume), true), debt);
    }
  }

  lemma QueryLeaves(s: State, fs: nat, path: string, left: nat, debt: Debt)
    ensures Leaves(s, QuerySpaceFrom(s, fs, path, left).0, debt)
  {
    if path == "" { VerdictLeaves(s, debt); } else { IssueLeaves(s, QuerySpace(fs, path, left), true, debt); }
  }

  lemma PreflightLeaves(s: State, debt: Debt)
    ensures Leaves(s, BeginPreflight(s).0, debt)
  {
    var t := s.(preflight := CheckingSpace);
    var first := FirstUnchecked(t.jobs);
    if first == |t.jobs| { return; }
    var job := t.jobs[first];
    if job.destination.fs.None? {
      if Owes(s, debt) && Concerns(job.id, debt) && WellNumbered(s) { NumberedFinds(s.jobs, s.nextId, first); }
      MarkingLeaves(t, first, debt);
      return;
    }
    MeasuringLeaves(t, job.destination.fs.value, RemotePath.Parent(job.destPath), debt);
  }

  lemma MeasuringLeaves(t: State, fs: nat, path: string, debt: Debt)
    ensures Leaves(t, QuerySpaceFrom(t, fs, path, MAX_SPACE_PROBE_ANCESTORS).0, debt)
  {
    QueryLeaves(t, fs, path, MAX_SPACE_PROBE_ANCESTORS, debt);
  }

  lemma MarkingLeaves(s: State, i: nat, debt: Debt)
    requires i < |s.jobs|
    ensures Leaves(s, WithJob(s, i, s.jobs[i].(spaceChecked := true)), debt)
  {
    var t := WithJob(s, i, s.jobs[i].(spaceChecked := true));
    if debt.ReadingOf? { IdsFound(s.jobs, t.jobs, debt.id); }
  }

  // ------------------------------------------------------------------------ the pump

  lemma MakingHonours(s: State, debt: Debt)
    requires s.dirsToCreate != [] && !s.enumerating && !Unweighed(s.jobs)
    ensures Honours(s, CreateNextDirectory(s), debt)
  {
    var t := s.(dirsToCreate := s.dirsToCreate[1..]);
    var u := CreateNextDirectory(s);
    IssueLeaves(t, MakeDir(s.dirsToCreate[0]), true, debt);
    assert u.log[|s.log|].request == MakeDir(s.dirsToCreate[0]);
    if debt.MakingOf? && debt.create in s.dirsToCreate && debt.create != s.dirsToCreate[0] { assert debt.create in t.dirsToCreate; }
  }

  lemma BegunHonours(s: State, i: nat, debt: Debt)
    requires i < |s.jobs| && s.jobs[i].state == Queued
    ensures var job := s.jobs[i];
            Honours(s, Issue(WithJob(s.(activeId := job.id), i, job.(state := Checking)), Stat(job.id), job.spaceChecked), debt)
  {
    var job := s.jobs[i];
    var t := WithJob(s.(activeId := job.id), i, job.(state := Checking));
    var u := Issue(t, Stat(job.id), job.spaceChecked);
    if Concerns(job.id, debt) {
      if WellNumbered(s) && Owes(s, debt) {
        NumberedFinds(s.jobs, s.nextId, i);
        IdsFound(s.jobs, t.jobs, job.id);
        assert u.log[|s.log|].target == Some(debt.destination);
        assert Stat(job.id) in u.out;
      }
    } else {
      JobLeaves(s.(activeId := job.id), i, job.(state := Checking), debt);
      IssueLeaves(t, Stat(job.id), job.spaceChecked, debt);
    }
  }

  lemma RefusedLeaves(s: State, i: nat, debt: Debt)
    requires i < |s.jobs| && (s.jobs[i].source.fs.None? || s.jobs[i].destination.fs.None?) && WellNumbered(s)
    ensures Leaves(s, Retired(s.(activeId := s.jobs[i].id), i, Failed), debt)
  {
    var job := s.jobs[i];
    if Concerns(job.id, debt) { NumberedFinds(s.jobs, s.nextId, i); }
    else { JobLeaves(s, i, job.(state := Failed), debt); }
    AlikeIds(s, i, job.(state := Failed));
  }

  lemma AlikeIds(s: State, i: nat, job: Job)
    requires i < |s.jobs| && job.id == s.jobs[i].id && WellNumbered(s)
    ensures WellNumbered(WithJob(s, i, job))
  {}

  lemma {:induction false} PumpHonours(s: State, debt: Debt)
    ensures Honours(s, Pump(s), debt)
    decreases QueuedCount(s.jobs), UnweighedCount(s.jobs), if s.preflight == Cleared then 0 else 1
  {
    if !s.enumerating {
      var i := FirstQueued(s.jobs);
      if i == |s.jobs| {
        NoneQueuedNoneUnweighed(s.jobs);
        if s.dirsToCreate != [] { MakingHonours(s, debt); }
      } else if s.preflight != Cleared || Unweighed(s.jobs) {
        if s.preflight != CheckingSpace {
          BeginPreflightDecreases(s);
          PreflightLeaves(s, debt);
          var (next, over) := BeginPreflight(s);
          if over {
            var n := next.(preflight := Cleared);
            PumpHonours(n, debt);
            LeavesThenHonours(s, n, Pump(n), debt);
          }
        }
      } else if !s.paused && s.activeId == NO_JOB {
        if s.dirsToCreate != [] { MakingHonours(s, debt); } else { PumpBeginHonours(s, i, debt); }
      }
    }
  }

  lemma {:induction false} PumpBeginHonours(s: State, i: nat, debt: Debt)
    requires !s.enumerating && s.preflight == Cleared && !Unweighed(s.jobs)
    requires i == FirstQueued(s.jobs) < |s.jobs| && !s.paused && s.activeId == NO_JOB && s.dirsToCreate == []
    ensures Honours(s, Pump(s), debt)
    decreases QueuedCount(s.jobs), UnweighedCount(s.jobs), 0, 0
  {
    var job := s.jobs[i];
    if job.source.fs.None? || job.destination.fs.None? {
      var t := Retired(s.(activeId := job.id), i, Failed);
      CountsUpdate(s.jobs, i, job.(state := Failed));
      PumpHonours(t, debt);
      if WellNumbered(s) {
        RefusedLeaves(s, i, debt);
        LeavesThenHonours(s, t, Pump(t), debt);
      }
    } else {
      BegunHonours(s, i, debt);
    }
  }

  // -------------------------------------------------------------- the friendly answers

  lemma FinishHonours(s: State, id: JobId, outcome: JobState, debt: Debt)
    requires !Concerns(id, debt)
    ensures Honours(s, FinishJob(s, id, outcome), debt)
  {
    var i := Index(s.jobs, id);
    if i < |s.jobs| {
      JobLeaves(s, i, s.jobs[i].(state := outcome), debt);
      PumpHonours(Retired(s, i, outcome), debt);
      LeavesThenHonours(s, Retired(s, i, outcome), FinishJob(s, id, outcome), debt);
    } else {
      PumpHonours(SlotFreed(s, id), debt);
      LeavesThenHonours(s, SlotFreed(s, id), FinishJob(s, id, outcome), debt);
    }
  }

  lemma AbandonHonours(s: State, debt: Debt)
    ensures Honours(s, Abandon(s), debt)
  {
    PumpHonours(s.(activeId := NO_JOB), debt);
    LeavesThenHonours(s, s.(activeId := NO_JOB), Abandon(s), debt);
  }

  lemma CallHonours(s: State, owner: Option<nat>, q: Request, debt: Debt)
    requires ClassOf(q) == Calling && !Concerns(q.id, debt)
    ensures Honours(s, Issue(s.(activeOwner := owner), q, true), debt) && Honours(s, Issue(s, q, true), debt)
  {
    IssueLeaves(s.(activeOwner := owner), q, true, debt);
    IssueLeaves(s, q, true, debt);
  }

  lemma LaunchHonours(s: State, id: JobId, job: Job, debt: Debt)
    requires !Concerns(id, debt)
    ensures Honours(s, Launched(s, id, job), debt)
  {
    if job.kind == LinkJob { CallHonours(s, None, ReadLink(id, job.destExisted), debt); return; }
    if job.destination.IsLocalDisk() { CallHonours(s, job.source.fs, Transfer(id, false), debt); return; }
    if job.source.IsLocalDisk() { CallHonours(s, job.destination.fs, Transfer(id, false), debt); return; }
    if !s.config.relayRoot { FinishHonours(s, id, Failed, debt); return; }
    CallHonours(s, job.source.fs, Transfer(id, true), debt);
  }

  lemma StartHonours(s: State, id: JobId, debt: Debt)
    requires !Concerns(id, debt)
    ensures Honours(s, StartTransfer(s, id), debt)
  {
    var i := Index(s.jobs, id);
    if i == |s.jobs| { AbandonHonours(s, debt); return; }
    var job := s.jobs[i].(state := Active);
    JobLeaves(s, i, job, debt);
    LaunchHonours(WithJob(s, i, job), id, job, debt);
    LeavesThenHonours(s, WithJob(s, i, job), StartTransfer(s, id), debt);
  }

  lemma FreeNameHonours(s: State, id: JobId, candidate: string, attempt: nat, debt: Debt)
    requires !Concerns(id, debt)
    ensures Honours(s, OnFreeNameKnown(s, id, candidate, attempt, false), debt)
  {
    var i := Index(s.jobs, id);
    if i == |s.jobs| { StartHonours(s, id, debt); return; }
    var job := s.jobs[i].(destPath := candidate, destExisted := false);
    JobLeaves(s, i, job, debt);
    StartHonours(WithJob(s, i, job), id, debt);
    LeavesThenHonours(s, WithJob(s, i, job), StartTransfer(WithJob(s, i, job), id), debt);
  }

  lemma LegHonours(s: State, id: JobId, firstLeg: bool, debt: Debt)
    requires !Concerns(id, debt)
    ensures Honours(s, OnLegDone(s, id, firstLeg, true, false), debt)
  {
    var i := Index(s.jobs, id);
    if i == |s.jobs| { AbandonHonours(s, debt); return; }
    if firstLeg { CallHonours(s, s.jobs[i].destination.fs, Transfer(id, false), debt); return; }
    FinishHonours(s, id, Completed, debt);
  }

  lemma WriteHonours(s: State, id: JobId, debt: Debt)
    requires !Concerns(id, debt)
    ensures Honours(s, WriteLink(s, id), debt)
  {
    if Index(s.jobs, id) == |s.jobs| { AbandonHonours(s, debt); return; }
    CallHonours(s, None, MakeLink(id), debt);
  }

  lemma ReadHonours(s: State, id: JobId, mustUnlink: bool, debt: Debt)
    requires !Concerns(id, debt)
    ensures Honours(s, OnLinkRead(s, id, mustUnlink, true), debt)
  {
    if Index(s.jobs, id) == |s.jobs| { AbandonHonours(s, debt); return; }
    if !mustUnlink { WriteHonours(s, id, debt); return; }
    CallHonours(s, None, Unlink(id), debt);
  }

  lemma LookHonours(s: State, id: JobId, debt: Debt)
    requires !Concerns(id, debt)
    ensures Honours(s, OnConflictKnown(s, id, false), debt)
  {
    var i := Index(s.jobs, id);
    if i == |s.jobs| || s.jobs[i].state != Checking { AbandonHonours(s, debt); return; }
    StartHonours(s, id, debt);
  }

  /** A prompt about the job that is owed has nothing to wait for. */
  lemma PromptHonours(s: State, id: JobId, debt: Debt)
    ensures Honours(s, OnPromptAnswered(s, id, Overwrite, false), debt)
  {
    var i := Index(s.jobs, id);
    if i == |s.jobs| || s.jobs[i].state != AwaitingResolution { return; }
    if !Concerns(id, debt) { StartHonours(s, id, debt); return; }
    StartsOn(s, id);
  }

  /** Whatever starts, the log only grows. */
  lemma StartsOn(s: State, id: JobId)
    ensures s.log <= StartTransfer(s, id).log
  {
    StartHonours(s, id, MakingOf(DirCreate(Endpoint(None, false), "")));
  }

  /** The answer that keeps everything going: it is there to be done, it worked, go ahead. */
  const GO := Reply(true, false, false, false, false, [], Overwrite, false, true)

  lemma CallGoHonours(s: State, q: Request, debt: Debt)
    requires ClassOf(q) == Calling && !Concerns(q.id, debt)
    ensures Honours(s, OnAnswer(s, q, GO), debt)
  {
    match q {
      case Stat(id) => LookHonours(s, id, debt); return;
      case StatFree(id, candidate, attempt) => FreeNameHonours(s, id, candidate, attempt, debt); return;
      case Transfer(id, firstLeg) => LegHonours(s, id, firstLeg, debt); return;
      case ReadLink(id, mustUnlink) => ReadHonours(s, id, mustUnlink, debt); return;
      case Unlink(id) => WriteHonours(s, id, debt); return;
      case MakeLink(id) => FinishHonours(s, id, Completed, debt); return;
    }
  }

  lemma SpaceGoHonours(s: State, q: Request, debt: Debt)
    requires ClassOf(q) == Space
    ensures Honours(s, OnAnswer(s, q, GO), debt)
  {
    if q.SpacePrompt? {
      PumpHonours(s.(preflight := Cleared), debt);
      LeavesThenHonours(s, s.(preflight := Cleared), OnAnswer(s, q, GO), debt);
      return;
    }
    VerdictLeaves(s, debt);
    var (next, over) := Verdict(s);
    if over {
      PumpHonours(next.(preflight := Cleared), debt);
      LeavesThenHonours(s, next.(preflight := Cleared), Pump(next.(preflight := Cleared)), debt);
    }
    assert OnAnswer(s, q, GO) == Settled(Verdict(s));
  }

  lemma WalkHonours(s: State, debt: Debt)
    ensures Honours(s, StepEnumeration(s), debt)
  {
    if s.toVisit == [] {
      var t := s.(enumerating := false, enumCancelled := false);
      PumpHonours(t, debt);
      LeavesThenHonours(s, t, Pump(t), debt);
    } else {
      IssueLeaves(s.(toVisit := s.toVisit[1..]), List(s.toVisit[0]), true, debt);
    }
  }

  lemma GoHonours(s: State, q: Request, debt: Debt)
    requires q in s.out
    ensures Honours(s, Handle(s, Answer(q, GO)), debt)
  {
    var t := Answered(s, q);
    TakenLeaves(s, q, debt);
    if ClassOf(q) == Calling && Concerns(q.id, debt) {
      assert Owes(s, debt) ==> !CallFor(s.out, q.id);
      LogGrows(t, q);
      return;
    }
    match ClassOf(q) {
      case Calling => CallGoHonours(t, q, debt);
      case Prompting => PromptHonours(t, q.id, debt);
      case Making => PumpHonours(t, debt);
      case Listing =>
        WalkHonours(t, debt);
        assert OnListed(t, q.dir, [], false) == StepEnumeration(t);
      case Space => SpaceGoHonours(t, q, debt);
    }
    LeavesThenHonours(s, t, OnAnswer(t, q, GO), debt);
  }

  lemma LogGrows(s: State, q: Request)
    requires ClassOf(q) == Calling
    ensures s.log <= OnAnswer(s, q, GO).log
  {
    CallGoHonours(s, q, MakingOf(DirCreate(Endpoint(None, false), "")));
  }

  // -------------------------------------------------------------------- main results

  predicate AllGo(events: seq<Event>) {
    forall e | e in events :: e.Answer? && e.reply == GO
  }

  lemma PaidEarlier(s: State, t: State, u: State, debt: Debt)
    requires s.log <= t.log && t.log <= u.log && Paid(t, u, debt)
    ensures Paid(s, u, debt)
  {
    var ban := if debt.MakingOf? then debt.create.destination.fs else Some(debt.destination);
    var k :| |t.log| <= k < |u.log| && MadeAt(u.log[k], ban);
    assert |s.log| <= k;
  }

  lemma OwingIsWork(s: State, debt: Debt)
    requires Owes(s, debt)
    ensures Work(s)
  {
    if debt.ReadingOf? { assert s.jobs[Index(s.jobs, debt.id)].state == Queued; }
  }

  /** Answering one outstanding request after the other comes to the directory or the link: the queue cannot stop
      before, and it cannot go on for ever. */
  lemma {:induction false} DebtIsPaid(s: State, debt: Debt) returns (events: seq<Event>)
    requires Running(s) && Owes(s, debt)
    ensures PossibleRun(s, events) && AllGo(events)
    ensures Running(Run(s, events)) && s.log <= Run(s, events).log && Paid(s, Run(s, events), debt)
    decreases Measure(s)
  {
    var q := Outstanding(s, debt);
    var t := Handle(s, Answer(q, GO));
    GoGoesOn(s, q, debt);
    if Paid(s, t, debt) {
      events := [Answer(q, GO)];
      assert events[1..] == [];
      return;
    }
    var rest := DebtIsPaid(t, debt);
    events := [Answer(q, GO)] + rest;
    OneMoreGo(s, q, rest, debt);
  }

  lemma Outstanding(s: State, debt: Debt) returns (q: Request)
    requires Running(s) && Owes(s, debt)
    ensures q in s.out
  {
    OwingIsWork(s, debt);
    RunningAwaits(s);
    q :| q in s.out;
  }

  lemma GoGoesOn(s: State, q: Request, debt: Debt)
    requires Running(s) && Owes(s, debt) && q in s.out
    ensures var t := Handle(s, Answer(q, GO));
            Running(t) && s.log <= t.log && (Owes(t, debt) || Paid(s, t, debt)) && Measure(t) < Measure(s)
  {
    GoHonours(s, q, debt);
    AnswerRuns(s, q, GO);
    AnswerMeasures(s, q, GO);
  }

  lemma OneMoreGo(s: State, q: Request, rest: seq<Event>, debt: Debt)
    requires q in s.out && s.log <= Handle(s, Answer(q, GO)).log
    requires var t := Handle(s, Answer(q, GO));
             PossibleRun(t, rest) && AllGo(rest) && t.log <= Run(t, rest).log && Paid(t, Run(t, rest), debt)
    ensures var events := [Answer(q, GO)] + rest;
            && PossibleRun(s, events) && AllGo(events) && Run(s, events) == Run(Handle(s, Answer(q, GO)), rest)
            && s.log <= Run(s, events).log && Paid(s, Run(s, events), debt)
  {
    assert ([Answer(q, GO)] + rest)[1..] == rest;
    PaidEarlier(s, Handle(s, Answer(q, GO)), Run(Handle(s, Answer(q, GO)), rest), debt);
  }

  /** A link just begun, whose destination turns out free, is read at its source. */
  lemma BegunIsRead(s: State, debt: Debt)
    requires debt.ReadingOf? && DueIn(s.jobs, debt, Checking) && Stat(debt.id) in s.out
    ensures AskedAt(s, Handle(s, Answer(Stat(debt.id), GO)), Some(debt.source))
    ensures s.log <= Handle(s, Answer(Stat(debt.id), GO)).log
  {
    var t := Answered(s, Stat(debt.id));
    var i := Index(t.jobs, debt.id);
    var job := t.jobs[i].(state := Active);
    var u := WithJob(t, i, job);
    IdsFound(t.jobs, u.jobs, debt.id);
    var v := Handle(s, Answer(Stat(debt.id), GO));
    assert v == Issue(u, ReadLink(debt.id, job.destExisted), true);
    assert MadeAt(v.log[|s.log|], Some(debt.source));
  }
}
