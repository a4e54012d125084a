/** The transfer queue goes on by answers alone: whatever has happened to it, as long as the job in the slot has
    a question outstanding, some request is outstanding while there is anything to start, and answering it
    keeps that so. */
module TransferDrive {
  import opened Style
  import opened TransferQueue
  import opened TransferSafety
  import opened TransferSlot
  import opened TransferDiscipline
  import opened TransferRuns
  import opened TransferProgress
  import opened TransferDrain
  import opened TransferTargets
  import RemotePath

  predicate WellNumbered(s: State) {
    Numbered(s.jobs, s.nextId) && Positive(s)
  }

  /** The job in the slot has a call outstanding, or waits for the answer to its prompt. */
  ghost predicate Manned(s: State) {
    || s.activeId == NO_JOB
    || CallFor(s.out, s.activeId)
    || (Prompt(s.activeId) in s.out && Waits(s.jobs, s.activeId))
  }

  predicate Waits(jobs: seq<Job>, id: JobId) {
    Listed(jobs, id) && jobs[Index(jobs, id)].state == AwaitingResolution
  }

  /** Directories wait to be listed only while a walk runs. */
  predicate Walking(s: State) {
    s.toVisit != [] ==> s.enumerating
  }

  /** What part of a step leaves in order. */
  ghost predicate Carries(s: State, t: State) {
    && t.paused == s.paused && (Walking(s) ==> Walking(t))
    && (WellNumbered(s) ==> WellNumbered(t) && (Live(s) ==> Live(t)))
  }

  lemma CarriesComposes(s: State, t: State, u: State)
    requires Carries(s, t) && Carries(t, u)
    ensures Carries(s, u)
  {}

  /** What becomes of the slot over the answer to a call about the job: whoever holds it is still manned. */
  ghost predicate Mans(s: State, t: State, id: JobId) {
    WellNumbered(s) ==> if s.activeId == id then Manned(t) else Manned(s) ==> Manned(t)
  }

  // ------------------------------------------------------------------- small steps

  lemma IssueCarries(s: State, q: Request, weighed: bool)
    ensures Carries(s, Issue(s, q, weighed)) && (Manned(s) ==> Manned(Issue(s, q, weighed)))
    ensures ClassOf(q) == Calling && q.id == s.activeId ==> Manned(Issue(s, q, weighed))
  {
    var t := Issue(s, q, weighed);
    assert forall r | r in s.out :: r in t.out;
    assert q in t.out;
    if Outstanding(s.out, Making) {
      var r :| r in s.out && ClassOf(r) == Making;
      assert r in t.out;
    }
    if CallFor(s.out, s.activeId) {
      var r :| r in s.out && ClassOf(r) == Calling && r.id == s.activeId;
      assert r in t.out;
    }
  }

  /** A job moves on, or is rewritten where it is. */
  lemma JobCarries(s: State, i: nat, job: Job)
    requires i < |s.jobs| && job.id == s.jobs[i].id && (job.state != Queued || s.jobs[i].state == Queued)
    ensures var t := WithJob(s, i, job);
            Carries(s, t) && Index(t.jobs, job.id) == Index(s.jobs, job.id)
    ensures job.state == s.jobs[i].state || job.id != s.activeId ==> (WellNumbered(s) && Manned(s) ==> Manned(WithJob(s, i, job)))
  {
    var t := WithJob(s, i, job);
    IdsFound(s.jobs, t.jobs, job.id);
    IdsFound(s.jobs, t.jobs, s.activeId);
    var k := FirstQueued(t.jobs);
    if k < |t.jobs| { assert s.jobs[k].state == Queued; }
    if WellNumbered(s) && Waits(s.jobs, s.activeId) { assert Index(s.jobs, s.activeId) < |s.jobs|; }
  }

  lemma PreflightCarries(s: State)
    ensures var next := BeginPreflight(s).0;
            next.paused == s.paused && next.toVisit == s.toVisit && next.enumerating == s.enumerating
    ensures WellNumbered(s) ==> WellNumbered(BeginPreflight(s).0)
    ensures Manned(s) ==> Manned(BeginPreflight(s).0)
  {
    var q := PreflightAsks(s);
    PreflightMovesNothing(s);
    PreflightLeavesRest(s);
    var next := BeginPreflight(s).0;
    RowsSay(s, next);
    assert forall r | r in s.out :: r in next.out;
    IdsFound(s.jobs, next.jobs, s.activeId);
    if CallFor(s.out, s.activeId) {
      var r :| r in s.out && ClassOf(r) == Calling && r.id == s.activeId;
      assert r in next.out;
    }
  }

  lemma VerdictLeavesRest(s: State)
    ensures var t := Verdict(s).0; t == s.(jobs := t.jobs, out := t.out, log := t.log)
  {}

  lemma AskingLeavesRest(s: State, fs: nat, path: string, left: nat)
    ensures var t := QuerySpaceFrom(s, fs, path, left).0; t == s.(jobs := t.jobs, out := t.out, log := t.log)
  {
    if path == "" { VerdictLeavesRest(s); }
  }

  /** The check concerns nothing but the jobs and what is asked. */
  lemma PreflightLeavesRest(s: State)
    ensures var t := BeginPreflight(s).0; t == s.(jobs := t.jobs, preflight := CheckingSpace, out := t.out, log := t.log)
  {
    var t := s.(preflight := CheckingSpace);
    var first := FirstUnchecked(t.jobs);
    if first == |t.jobs| || t.jobs[first].destination.fs.None? { return; }
    PreflightAsksAbout(t, t.jobs[first].destination.fs.value, RemotePath.Parent(t.jobs[first].destPath));
  }

  lemma PreflightAsksAbout(s: State, fs: nat, path: string)
    ensures var t := QuerySpaceFrom(s, fs, path, MAX_SPACE_PROBE_ANCESTORS).0; t == s.(jobs := t.jobs, out := t.out, log := t.log)
  {
    AskingLeavesRest(s, fs, path, MAX_SPACE_PROBE_ANCESTORS);
  }

  lemma RowsSay(s: State, t: State)
    requires Rows(s.jobs) == Rows(t.jobs)
    ensures |s.jobs| == |t.jobs|
    ensures forall i | 0 <= i < |s.jobs| :: t.jobs[i].id == s.jobs[i].id && t.jobs[i].state == s.jobs[i].state
  {
    assert |Rows(s.jobs)| == |s.jobs| && |Rows(t.jobs)| == |t.jobs|;
    forall i | 0 <= i < |s.jobs| ensures t.jobs[i].id == s.jobs[i].id && t.jobs[i].state == s.jobs[i].state {
      assert Rows(s.jobs)[i] == Row(s.jobs[i].id, s.jobs[i].state) && Rows(t.jobs)[i] == Row(t.jobs[i].id, t.jobs[i].state);
    }
  }

  // ------------------------------------------------------------------------ the pump

  /** What the pump keeps beside liveness. */
  ghost predicate Keeping(s: State, t: State) {
    && t.paused == s.paused && (Walking(s) ==> Walking(t))
    && (WellNumbered(s) ==> WellNumbered(t) && (Manned(s) ==> Manned(t)))
  }

  lemma {:induction false} PumpKeeping(s: State)
    ensures Keeping(s, Pump(s))
    decreases QueuedCount(s.jobs), UnweighedCount(s.jobs), if s.preflight == Cleared then 0 else 1
  {
    if !s.enumerating {
      var i := FirstQueued(s.jobs);
      if i == |s.jobs| {
        NoneQueuedNoneUnweighed(s.jobs);
        if s.dirsToCreate != [] { MakingKeeps(s); }
      } else if s.preflight != Cleared || Unweighed(s.jobs) {
        if s.preflight != CheckingSpace {
          BeginPreflightDecreases(s);
          PreflightCarries(s);
          var (next, over) := BeginPreflight(s);
          if over { PumpKeeping(next.(preflight := Cleared)); }
        }
      } else if !s.paused && s.activeId == NO_JOB {
        if s.dirsToCreate != [] { MakingKeeps(s); } else { PumpBeginKeeps(s, i); }
      }
    }
  }

  lemma MakingKeeps(s: State)
    requires s.dirsToCreate != [] && !s.enumerating && !Unweighed(s.jobs)
    ensures Keeping(s, CreateNextDirectory(s))
  {
    IssueCarries(s.(dirsToCreate := s.dirsToCreate[1..]), MakeDir(s.dirsToCreate[0]), true);
  }

  lemma {:induction false} PumpBeginKeeps(s: State, i: nat)
    requires !s.enumerating && s.preflight == Cleared && !Unweighed(s.jobs)
    requires i == FirstQueued(s.jobs) < |s.jobs| && !s.paused && s.activeId == NO_JOB && s.dirsToCreate == []
    ensures Keeping(s, Pump(s))
    decreases QueuedCount(s.jobs), UnweighedCount(s.jobs), 0, 0
  {
    var job := s.jobs[i];
    if job.source.fs.None? || job.destination.fs.None? {
      CountsUpdate(s.jobs, i, job.(state := Failed));
      RefusedKeeps(s, i);
      PumpKeeping(Retired(s.(activeId := job.id), i, Failed));
    } else {
      BegunKeeps(s, i);
    }
  }

  lemma RefusedKeeps(s: State, i: nat)
    requires i < |s.jobs| && s.activeId == NO_JOB && s.jobs[i].state == Queued
    ensures Keeping(s, Retired(s.(activeId := s.jobs[i].id), i, Failed))
  {
    JobCarries(s, i, s.jobs[i].(state := Failed));
  }

  lemma BegunKeeps(s: State, i: nat)
    requires i < |s.jobs| && s.activeId == NO_JOB && s.jobs[i].state == Queued
    ensures var job := s.jobs[i];
            Keeping(s, Issue(WithJob(s.(activeId := job.id), i, job.(state := Checking)), Stat(job.id), job.spaceChecked))
  {
    var job := s.jobs[i];
    JobCarries(s, i, job.(state := Checking));
    IssueCarries(WithJob(s.(activeId := job.id), i, job.(state := Checking)), Stat(job.id), job.spaceChecked);
  }

  lemma PumpCarries(s: State)
    ensures Carries(s, Pump(s)) && (WellNumbered(s) && Manned(s) ==> Manned(Pump(s)))
  {
    PumpKeeping(s);
    if WellNumbered(s) { PumpIsLive(s); }
  }

  // ----------------------------------------------------------------- answers about jobs

  /** What answering a call about the job leaves in order. */
  ghost predicate Answers(s: State, t: State, id: JobId) {
    Carries(s, t) && Mans(s, t, id)
  }

  lemma FinishAnswers(s: State, id: JobId, outcome: JobState)
    requires outcome.Terminal()
    ensures Answers(s, FinishJob(s, id, outcome), id)
  {
    var i := Index(s.jobs, id);
    if i < |s.jobs| {
      var job := s.jobs[i].(state := outcome);
      JobCarries(s, i, job);
      PumpCarries(Retired(s, i, outcome));
    } else {
      PumpCarries(SlotFreed(s, id));
    }
    if WellNumbered(s) { FinishIsLive(s, id, outcome); }
  }

  lemma AbandonAnswers(s: State, id: JobId)
    ensures Answers(s, Abandon(s), id)
  {
    var t := s.(activeId := NO_JOB);
    PumpCarries(t);
    if WellNumbered(s) { PumpIsLive(t); }
  }

  /** The job is asked the next thing. */
  lemma IssueAnswers(s: State, q: Request)
    requires ClassOf(q) == Calling
    ensures Answers(s, Issue(s, q, true), q.id)
  {
    IssueCarries(s, q, true);
  }

  /** The job is rewritten on the way. */
  lemma ThenAnswers(s: State, i: nat, job: Job, t: State)
    requires i < |s.jobs| && job.id == s.jobs[i].id && (job.state != Queued || s.jobs[i].state == Queued)
    requires Answers(WithJob(s, i, job), t, job.id)
    ensures Answers(s, t, job.id)
  {
    JobCarries(s, i, job);
    CarriesComposes(s, WithJob(s, i, job), t);
  }

  lemma OwnerAnswers(s: State, owner: Option<nat>, id: JobId, firstLeg: bool)
    ensures Answers(s, Issue(s.(activeOwner := owner), Transfer(id, firstLeg), true), id)
  {
    IssueAnswers(s.(activeOwner := owner), Transfer(id, firstLeg));
  }

  lemma LaunchAnswers(s: State, id: JobId, job: Job)
    ensures Answers(s, Launched(s, id, job), id)
  {
    if job.kind == LinkJob { IssueAnswers(s, ReadLink(id, job.destExisted)); return; }
    if job.destination.IsLocalDisk() { OwnerAnswers(s, job.source.fs, id, false); return; }
    if job.source.IsLocalDisk() { OwnerAnswers(s, job.destination.fs, id, false); return; }
    if !s.config.relayRoot { FinishAnswers(s, id, Failed); return; }
    OwnerAnswers(s, job.source.fs, id, true);
  }

  lemma StartAnswers(s: State, id: JobId)
    ensures Answers(s, StartTransfer(s, id), id)
  {
    var i := Index(s.jobs, id);
    if i == |s.jobs| { AbandonAnswers(s, id); return; }
    var job := s.jobs[i].(state := Active);
    LaunchAnswers(WithJob(s, i, job), id, job);
    ThenAnswers(s, i, job, StartTransfer(s, id));
  }

  lemma FreeNameAnswers(s: State, id: JobId, attempt: nat)
    ensures Answers(s, ResolveFreeName(s, id, attempt), id)
  {
    if Index(s.jobs, id) == |s.jobs| { AbandonAnswers(s, id); return; }
    if attempt > MAX_RENAME_ATTEMPTS { FinishAnswers(s, id, Failed); return; }
    forall candidate: string ensures Answers(s, Issue(s, StatFree(id, candidate, attempt), true), id) {
      IssueAnswers(s, StatFree(id, candidate, attempt));
    }
  }

  lemma ResolveAnswers(s: State, id: JobId, resolution: Resolution)
    ensures Answers(s, Resolve(s, id, resolution), id)
  {
    if resolution == Overwrite { StartAnswers(s, id); }
    else if resolution == Skip { FinishAnswers(s, id, Skipped); }
    else { FreeNameAnswers(s, id, 1); }
  }

  lemma TakenAnswers(s: State, id: JobId)
    requires Index(s.jobs, id) < |s.jobs|
    ensures Answers(s, Taken(s, id), id)
  {
    if s.config.policy != Ask { ResolveAnswers(s, id, s.config.policy); return; }
    if !s.config.hasPrompt { FinishAnswers(s, id, Skipped); return; }
    var i := Index(s.jobs, id);
    PromptAnswers(s, i, s.jobs[i].(state := AwaitingResolution));
  }

  lemma PromptAnswers(s: State, i: nat, job: Job)
    requires i < |s.jobs| && i == Index(s.jobs, job.id) && job.state == AwaitingResolution
    ensures Answers(s, Issue(WithJob(s, i, job), Prompt(job.id), true), job.id)
  {
    JobCarries(s, i, job);
    var t := WithJob(s, i, job);
    IssueCarries(t, Prompt(job.id), true);
    assert Prompt(job.id) in Issue(t, Prompt(job.id), true).out;
  }

  lemma ConflictAnswers(s: State, id: JobId, found: bool)
    ensures Answers(s, OnConflictKnown(s, id, found), id)
  {
    var i := Index(s.jobs, id);
    if i == |s.jobs| || s.jobs[i].state != Checking { AbandonAnswers(s, id); return; }
    if !found { StartAnswers(s, id); return; }
    var job := s.jobs[i].(destExisted := true);
    var t := WithJob(s, i, job);
    JobCarries(s, i, job);
    TakenAnswers(t, id);
    ThenAnswers(s, i, job, Taken(t, id));
    assert OnConflictKnown(s, id, found) == Taken(t, id);
  }

  lemma FreeNameAnswerAnswers(s: State, id: JobId, candidate: string, attempt: nat, found: bool)
    ensures Answers(s, OnFreeNameKnown(s, id, candidate, attempt, found), id)
  {
    if found { FreeNameAnswers(s, id, attempt + 1); return; }
    var i := Index(s.jobs, id);
    if i == |s.jobs| { StartAnswers(s, id); return; }
    var job := s.jobs[i].(destPath := candidate, destExisted := false);
    StartAnswers(WithJob(s, i, job), id);
    ThenAnswers(s, i, job, OnFreeNameKnown(s, id, candidate, attempt, found));
  }

  lemma LegAnswers(s: State, id: JobId, firstLeg: bool, ok: bool, cancelled: bool)
    ensures Answers(s, OnLegDone(s, id, firstLeg, ok, cancelled), id)
  {
    var i := Index(s.jobs, id);
    if i == |s.jobs| { AbandonAnswers(s, id); return; }
    if !ok { FinishAnswers(s, id, if cancelled then Cancelled else Failed); return; }
    if firstLeg { OwnerAnswers(s, s.jobs[i].destination.fs, id, false); return; }
    FinishAnswers(s, id, Completed);
  }

  lemma WriteAnswers(s: State, id: JobId)
    ensures Answers(s, WriteLink(s, id), id)
  {
    if Index(s.jobs, id) == |s.jobs| { AbandonAnswers(s, id); return; }
    IssueAnswers(s, MakeLink(id));
  }

  lemma LinkReadAnswers(s: State, id: JobId, mustUnlink: bool, ok: bool)
    ensures Answers(s, OnLinkRead(s, id, mustUnlink, ok), id)
  {
    if !ok { FinishAnswers(s, id, Failed); return; }
    if Index(s.jobs, id) == |s.jobs| { AbandonAnswers(s, id); return; }
    if mustUnlink { IssueAnswers(s, Unlink(id)); return; }
    WriteAnswers(s, id);
  }

  lemma UnlinkedAnswers(s: State, id: JobId, ok: bool)
    ensures Answers(s, OnUnlinked(s, id, ok), id)
  {
    if ok { WriteAnswers(s, id); } else { FinishAnswers(s, id, Failed); }
  }

  lemma CallAnswers(s: State, q: Request, r: Reply)
    requires ClassOf(q) == Calling
    ensures Answers(s, OnAnswer(s, q, r), q.id)
  {
    match q {
      case Stat(id) => ConflictAnswers(s, id, r.found); return;
      case StatFree(id, candidate, attempt) => FreeNameAnswerAnswers(s, id, candidate, attempt, r.found); return;
      case Transfer(id, firstLeg) => LegAnswers(s, id, firstLeg, r.ok, r.cancelled); return;
      case ReadLink(id, mustUnlink) => LinkReadAnswers(s, id, mustUnlink, r.ok); return;
      case Unlink(id) => UnlinkedAnswers(s, id, r.ok); return;
      case MakeLink(id) => FinishAnswers(s, id, if r.ok then Completed else Failed); return;
    }
  }

  // ------------------------------------------------------------------- every answer

  /** An answer is taken off: what was in order is, unless the answer was the one waited for. */
  lemma TakingKeeps(s: State, q: Request)
    requires q in s.out
    ensures ClassOf(q) != Making && Live(s) ==> Live(Answered(s, q))
    ensures ClassOf(q) == Calling && q.id != s.activeId && Manned(s) ==> Manned(Answered(s, q))
    ensures ClassOf(q) != Calling && q != Prompt(s.activeId) && Manned(s) ==> Manned(Answered(s, q))
  {
    var t := Answered(s, q);
    if ClassOf(q) != Making { AnsweringOther(s.out, q, Making); }
    if CallFor(s.out, s.activeId) && (ClassOf(q) == Calling ==> q.id != s.activeId) {
      var r :| r in s.out && ClassOf(r) == Calling && r.id == s.activeId;
      assert r in t.out;
    }
  }

  lemma PromptedAnswers(s: State, id: JobId, resolution: Resolution, applyToAll: bool)
    ensures Carries(s, OnPromptAnswered(s, id, resolution, applyToAll))
    ensures Waits(s.jobs, id) ==> Mans(s, OnPromptAnswered(s, id, resolution, applyToAll), id)
    ensures !Waits(s.jobs, id) ==> OnPromptAnswered(s, id, resolution, applyToAll) == s
  {
    if Waits(s.jobs, id) {
      var t := if applyToAll then s.(config := s.config.(policy := resolution)) else s;
      ResolveAnswers(t, id, resolution);
      assert OnPromptAnswered(s, id, resolution, applyToAll) == Resolve(t, id, resolution);
      ConfiguredAnswers(s, t.config, Resolve(t, id, resolution), id);
    }
  }

  lemma ConfiguredAnswers(s: State, config: Config, t: State, id: JobId)
    requires Answers(s.(config := config), t, id)
    ensures Answers(s, t, id)
  {}

  /** In order, and able to move. */
  ghost predicate Running(s: State) {
    Sound(s) && Live(s) && Manned(s) && Walking(s) && WellNumbered(s) && !s.paused
  }

  /** Such a queue has a request outstanding while there is anything to start, make or visit. */
  lemma RunningAwaits(s: State)
    requires Running(s) && (Work(s) || s.toVisit != [])
    ensures s.out != multiset{}
  {
    if CallFor(s.out, s.activeId) {
      var r :| r in s.out && ClassOf(r) == Calling && r.id == s.activeId;
    }
  }

  predicate Alike(a: seq<Job>, b: seq<Job>) {
    |a| == |b| && forall i | 0 <= i < |a| :: b[i].id == a[i].id && b[i].state == a[i].state
  }

  lemma AlikeNumbered(a: seq<Job>, b: seq<Job>, nextId: JobId)
    requires Alike(a, b) && Numbered(a, nextId)
    ensures Numbered(b, nextId)
  {}

  lemma AlikeQueued(a: seq<Job>, b: seq<Job>)
    requires Alike(a, b)
    ensures FirstQueued(a) == FirstQueued(b)
  {}

  lemma AlikeCarries(s: State, jobs: seq<Job>)
    requires Alike(s.jobs, jobs)
    ensures Carries(s, s.(jobs := jobs)) && (Manned(s) ==> Manned(s.(jobs := jobs)))
  {
    if WellNumbered(s) { AlikeNumbered(s.jobs, jobs, s.nextId); }
    AlikeQueued(s.jobs, jobs);
    IdsFound(s.jobs, jobs, s.activeId);
  }

  lemma VerdictCarries(s: State)
    ensures Carries(s, Verdict(s).0) && (WellNumbered(s) && Manned(s) ==> Manned(Verdict(s).0))
  {
    var first := FirstUnchecked(s.jobs);
    if first < |s.jobs| {
      var volume := s.jobs[first].destination.fs;
      var t := s.(jobs := MarkWeighed(s.jobs, volume));
      AlikeCarries(s, t.jobs);
      IssueCarries(t, SpacePrompt(volume), true);
      CarriesComposes(s, t, Issue(t, SpacePrompt(volume), true));
    }
  }

  lemma SpaceAnswersCarry(s: State, fs: nat, path: string, left: nat, ok: bool, unsupported: bool)
    requires s.preflight == CheckingSpace && WellNumbered(s) && Manned(s)
    ensures var t := OnSpaceAnswered(s, fs, path, left, ok, unsupported);
            t.paused == s.paused && (Walking(s) ==> Walking(t)) && WellNumbered(t) && Live(t) && Manned(t)
  {
    SpaceIsLive(s, fs, path, left, ok, unsupported);
    var parent := RemotePath.Parent(path);
    var r := SpaceKnown(s, fs, path, parent, left, ok, unsupported);
    VerdictCarries(s);
    if !(ok || unsupported || left == 0 || parent == "" || parent == path) { IssueCarries(s, QuerySpace(fs, parent, left - 1), true); }
    if r.1 { PumpCarries(r.0.(preflight := Cleared)); }
  }

  /** The walk goes on, its listing answered. */
  lemma WalkRuns(s: State)
    requires s.enumerating && WellNumbered(s) && Manned(s)
    ensures var t := StepEnumeration(s);
            t.paused == s.paused && Walking(t) && WellNumbered(t) && Live(t) && Manned(t)
  {
    WalkIsLive(s);
    if s.toVisit == [] { PumpCarries(s.(enumerating := false, enumCancelled := false)); }
    else { IssueCarries(s.(toVisit := s.toVisit[1..]), List(s.toVisit[0]), true); }
  }

  lemma HousekeepingRuns(s: State, q: Request, r: Reply)
    requires Running(s) && q in s.out && Barren(Answer(q, r)) && (q.SpacePrompt? ==> r.proceed)
    requires ClassOf(q) != Calling && ClassOf(q) != Prompting
    ensures Running(Handle(s, Answer(q, r)))
  {
    var t := Answered(s, q);
    EventKeepsSound(s, Answer(q, r));
    TakingKeeps(s, q);
    match q {
      case List(dir) =>
        OnlyListing(s, dir);
        WalkRuns(if !t.enumCancelled && r.endpointGone then t.(toVisit := []) else t);
        assert OnListed(t, dir, [], r.endpointGone) == StepEnumeration(if !t.enumCancelled && r.endpointGone then t.(toVisit := []) else t);
        return;
      case QuerySpace(fs, path, left) => SpaceAnswersCarry(t, fs, path, left, r.ok, r.unsupported); return;
      case SpacePrompt(_) =>
        PumpCarries(t.(preflight := Cleared));
        PumpIsLive(t.(preflight := Cleared));
        return;
      case MakeDir(_) =>
        PumpCarries(t);
        PumpIsLive(t);
        return;
    }
  }

  /** Every answer that brings nothing new, and declines nothing, leaves the queue running, whatever else has
      become of it. */
  lemma AnswerRuns(s: State, q: Request, r: Reply)
    requires Running(s) && q in s.out && Barren(Answer(q, r)) && (q.SpacePrompt? ==> r.proceed)
    ensures Running(Handle(s, Answer(q, r)))
  {
    if ClassOf(q) != Calling && ClassOf(q) != Prompting { HousekeepingRuns(s, q, r); return; }
    EventKeepsSound(s, Answer(q, r));
    TakingKeeps(s, q);
    var t := Answered(s, q);
    if ClassOf(q) == Calling { CallAnswers(t, q, r); return; }
    PromptedAnswers(t, q.id, r.resolution, r.applyToAll);
    if q.id == s.activeId && !Waits(s.jobs, q.id) {
      assert CallFor(s.out, s.activeId) || s.activeId == NO_JOB;
      var c := if s.activeId == NO_JOB then q else ActiveCall(s);
      assert c in t.out || s.activeId == NO_JOB;
    }
  }

  ghost function ActiveCall(s: State): (q: Request)
    requires CallFor(s.out, s.activeId)
    ensures q in s.out && ClassOf(q) == Calling && q.id == s.activeId
  {
    var q :| q in s.out && ClassOf(q) == Calling && q.id == s.activeId;
    q
  }

  // ----------------------------------------------------------------- closing and resuming

  /** What closing a file system leaves in order. */
  ghost predicate Orderly(s: State, t: State) {
    && t.paused == s.paused && (Walking(s) ==> Walking(t))
    && (WellNumbered(s) ==> WellNumbered(t) && (Live(s) ==> Live(t)) && (Manned(s) ==> Manned(t)))
  }

  lemma DropIsOrderly(s: State, id: JobId, fs: nat)
    ensures Orderly(s, DropJob(s, id, fs))
  {
    var i := Index(s.jobs, id);
    if i == |s.jobs| { FinishAnswers(s, id, Cancelled); return; }
    var t := WithJob(s, i, Parted(s.jobs[i], fs));
    JobCarries(s, i, Parted(s.jobs[i], fs));
    FinishAnswers(t, id, Cancelled);
    CarriesComposes(s, t, DropJob(s, id, fs));
  }

  lemma {:induction false} ClosingIsOrderly(s: State, ids: seq<JobId>, fs: nat)
    ensures Orderly(s, DropJobs(s, ids, fs))
    decreases |ids|
  {
    if ids != [] {
      DropIsOrderly(s, ids[0], fs);
      ClosingIsOrderly(DropJob(s, ids[0], fs), ids[1..], fs);
    }
  }

  /** Running, once it is not paused. */
  ghost predicate Able(s: State) {
    Sound(s) && Live(s) && Manned(s) && Walking(s) && WellNumbered(s)
  }

  lemma ResumedRuns(s: State)
    requires Able(s)
    ensures Running(Handle(s, ResumeEvent))
  {
    EventKeepsSound(s, ResumeEvent);
    if s.paused {
      PumpKeeping(s.(paused := false));
      PumpIsLive(s.(paused := false));
    }
  }
}
