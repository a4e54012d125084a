/** Where the transfer queue's requests go. `ban` is an endpoint no request should be made at: a file system that
    has closed, or no file system at all, which in the source is a null pointer
    (src/fs/TransferQueue.cpp:271-296, 362-375, 521-550, 668-995). */
module TransferTargets {
  import opened Style
  import opened TransferQueue
  import opened TransferSafety
  import RemotePath

  predicate IsPrompt(q: Request) {
    q.Prompt? || q.SpacePrompt?
  }

  /** A logged request that was made at the endpoint. */
  predicate MadeAt(e: Issued, ban: Option<nat>) {
    !IsPrompt(e.request) && e.target == ban
  }

  /** From one state to a later one nothing is asked at the endpoint. */
  predicate Silent(s: State, t: State, ban: Option<nat>) {
    s.log <= t.log && forall k | |s.log| <= k < |t.log| :: !MadeAt(t.log[k], ban)
  }

  // ---------------------------------------------------------------- what keeps it so

  predicate JobShuns(job: Job, ban: Option<nat>) {
    job.source.fs != ban && job.destination.fs != ban
  }

  /** A job under way has nothing to do with the endpoint; nor has one that will be begun, which a job with an
      endpoint missing never is. */
  predicate JobsShun(jobs: seq<Job>, ban: Option<nat>) {
    forall i | 0 <= i < |jobs| && (jobs[i].state.InProgress() || (jobs[i].state == Queued && ban.Some?)) :: JobShuns(jobs[i], ban)
  }

  /** An error to this question is followed by the same question about the parent. */
  predicate Climbs(path: string, ancestorsLeft: nat) {
    ancestorsLeft > 0 && RemotePath.Parent(path) != "" && RemotePath.Parent(path) != path
  }

  predicate Listed(jobs: seq<Job>, id: JobId) {
    Index(jobs, id) < |jobs|
  }

  predicate WritesElsewhere(jobs: seq<Job>, id: JobId, ban: Option<nat>) {
    Listed(jobs, id) ==> DestinationOf(jobs, id) != ban
  }

  /** No answer to the request makes the queue ask at the endpoint. */
  predicate CallShuns(jobs: seq<Job>, q: Request, ban: Option<nat>) {
    match q
    case StatFree(id, _, _) => WritesElsewhere(jobs, id, ban) && (Listed(jobs, id) ==> SourceOf(jobs, id) != ban)
    case ReadLink(id, _) => WritesElsewhere(jobs, id, ban)
    case Unlink(id) => WritesElsewhere(jobs, id, ban)
    case Transfer(id, firstLeg) => firstLeg ==> WritesElsewhere(jobs, id, ban)
    case QuerySpace(fs, path, left) => Some(fs) != ban || !Climbs(path, left)
    case _ => true
  }

  predicate DirShuns(dir: PendingDir, ban: Option<nat>) {
    dir.source.fs != ban && dir.destination.fs != ban
  }

  /** No directory is to be made there and none to be listed; the rows of what is listed do not lead there
      either, unless they will be ignored. */
  ghost predicate WalkShuns(s: State, ban: Option<nat>) {
    && (forall dir | dir in s.toVisit :: dir.source.fs != ban && (s.enumCancelled || DirShuns(dir, ban)))
    && (forall dir | List(dir) in s.out :: s.enumCancelled || DirShuns(dir, ban))
    && (forall create | create in s.dirsToCreate :: create.destination.fs != ban)
  }

  predicate Numbered(jobs: seq<Job>, nextId: JobId) {
    && (forall i | 0 <= i < |jobs| :: jobs[i].id < nextId)
    && (forall i, j | 0 <= i < j < |jobs| :: jobs[i].id != jobs[j].id)
  }

  /** A call is about a job that has been queued. */
  predicate Known(q: Request, nextId: JobId) {
    ClassOf(q) == Calling ==> q.id < nextId
  }

  ghost predicate Shuns(s: State, ban: Option<nat>) {
    && Numbered(s.jobs, s.nextId) && JobsShun(s.jobs, ban) && WalkShuns(s, ban)
    && forall q | q in s.out :: CallShuns(s.jobs, q, ban) && Known(q, s.nextId)
  }

  /** A part of a step that has nothing to do with the endpoint. */
  ghost predicate Avoids(s: State, t: State, ban: Option<nat>) {
    Shuns(s, ban) ==> Shuns(t, ban) && Silent(s, t, ban)
  }

  lemma AvoidsComposes(s: State, t: State, u: State, ban: Option<nat>)
    requires Avoids(s, t, ban) && Avoids(t, u, ban)
    ensures Avoids(s, u, ban)
  {
    if Shuns(s, ban) {
      forall k | |s.log| <= k < |u.log| ensures !MadeAt(u.log[k], ban) {
        if k < |t.log| { assert u.log[k] == t.log[k]; }
      }
    }
  }

  // --------------------------------------------------------------- one change at a time

  predicate SameEnds(a: seq<Job>, b: seq<Job>) {
    |a| == |b| && forall i | 0 <= i < |a| ::
      b[i].id == a[i].id && b[i].kind == a[i].kind && b[i].source == a[i].source && b[i].destination == a[i].destination
  }

  lemma EndsFound(a: seq<Job>, b: seq<Job>, id: JobId)
    requires SameEnds(a, b)
    ensures Index(a, id) == Index(b, id) && SourceOf(a, id) == SourceOf(b, id) && DestinationOf(a, id) == DestinationOf(b, id)
  {
    var i, j := Index(a, id), Index(b, id);
    if i < |a| { assert b[i].id == id; }
    if j < |b| { assert a[j].id == id; }
  }

  lemma SameCalls(a: seq<Job>, b: seq<Job>, q: Request, ban: Option<nat>)
    requires SameEnds(a, b)
    ensures CallShuns(a, q, ban) <==> CallShuns(b, q, ban)
  {
    match q
    case StatFree(id, _, _) => EndsFound(a, b, id);
    case ReadLink(id, _) => EndsFound(a, b, id);
    case Unlink(id) => EndsFound(a, b, id);
    case Transfer(id, _) => EndsFound(a, b, id);
    case _ =>
  }

  /** Jobs move on, the requests and the walk being what they were. */
  lemma MovingAvoids(s: State, t: State, ban: Option<nat>)
    requires SameEnds(s.jobs, t.jobs) && JobsShun(t.jobs, ban) && t.nextId == s.nextId
    requires t.out == s.out && t.log == s.log && t.toVisit == s.toVisit && t.dirsToCreate == s.dirsToCreate
    requires t.enumCancelled == s.enumCancelled
    ensures Avoids(s, t, ban)
  {
    forall q ensures CallShuns(s.jobs, q, ban) <==> CallShuns(t.jobs, q, ban) { SameCalls(s.jobs, t.jobs, q, ban); }
  }

  lemma JobAvoids(s: State, i: nat, job: Job, ban: Option<nat>)
    requires i < |s.jobs| && SameEnds([s.jobs[i]], [job])
    requires job.state.InProgress() || (job.state == Queued && ban.Some?) ==> JobShuns(job, ban)
    ensures Avoids(s, WithJob(s, i, job), ban)
  {
    assert [s.jobs[i]][0] == s.jobs[i] && [job][0] == job;
    if Shuns(s, ban) { MovingAvoids(s, WithJob(s, i, job), ban); }
  }

  lemma IssueAvoids(s: State, q: Request, weighed: bool, ban: Option<nat>)
    requires CallShuns(s.jobs, q, ban) && (q.List? ==> s.enumCancelled || DirShuns(q.dir, ban))
    requires (IsPrompt(q) || TargetOf(s, q) != ban) && Known(q, s.nextId)
    ensures Avoids(s, Issue(s, q, weighed), ban)
  {
    var t := Issue(s, q, weighed);
    forall r | r in t.out ensures r == q || r in s.out {}
  }

  lemma AnsweredAvoids(s: State, q: Request, ban: Option<nat>)
    ensures Avoids(s, Answered(s, q), ban)
  {
    forall r | r in Answered(s, q).out ensures r in s.out {}
  }

  // ------------------------------------------------------------------------ the pump

  lemma VerdictAvoids(s: State, ban: Option<nat>)
    ensures Avoids(s, Verdict(s).0, ban)
  {
    var first := FirstUnchecked(s.jobs);
    if first < |s.jobs| {
      var volume := s.jobs[first].destination.fs;
      var t := s.(jobs := MarkWeighed(s.jobs, volume));
      if Shuns(s, ban) { MovingAvoids(s, t, ban); }
      IssueAvoids(t, SpacePrompt(volume), true, ban);
      AvoidsComposes(s, t, Issue(t, SpacePrompt(volume), true), ban);
    }
  }

  lemma QueryAvoids(s: State, fs: nat, path: string, left: nat, ban: Option<nat>)
    requires Some(fs) != ban
    ensures Avoids(s, QuerySpaceFrom(s, fs, path, left).0, ban)
  {
    VerdictAvoids(s, ban);
    IssueAvoids(s, QuerySpace(fs, path, left), true, ban);
  }

  lemma PreflightAvoids(s: State, ban: Option<nat>)
    ensures Avoids(s, BeginPreflight(s).0, ban)
  {
    var t := s.(preflight := CheckingSpace);
    var first := FirstUnchecked(t.jobs);
    if first == |t.jobs| { return; }
    if t.jobs[first].destination.fs.None? { UnmeasuredAvoids(s, first, ban); return; }
    MeasuringAvoids(t, first, RemotePath.Parent(t.jobs[first].destPath), ban);
    CheckedAvoids(s, BeginPreflight(s).0, ban);
  }

  lemma UnmeasuredAvoids(s: State, first: nat, ban: Option<nat>)
    requires first < |s.jobs| && UnweighedJob(s.jobs[first])
    ensures Avoids(s, WithJob(s.(preflight := CheckingSpace), first, s.jobs[first].(spaceChecked := true)), ban)
  {
    if Shuns(s, ban) {
      JobAvoids(s.(preflight := CheckingSpace), first, s.jobs[first].(spaceChecked := true), ban);
      CheckedAvoids(s, WithJob(s.(preflight := CheckingSpace), first, s.jobs[first].(spaceChecked := true)), ban);
    }
  }

  /** That the check is marked as running is nobody's business. */
  lemma CheckedAvoids(s: State, t: State, ban: Option<nat>)
    requires Avoids(s.(preflight := CheckingSpace), t, ban)
    ensures Avoids(s, t, ban)
  {}

  lemma MeasuringAvoids(t: State, first: nat, path: string, ban: Option<nat>)
    requires first < |t.jobs| && UnweighedJob(t.jobs[first]) && t.jobs[first].destination.fs.Some?
    ensures Avoids(t, QuerySpaceFrom(t, t.jobs[first].destination.fs.value, path, MAX_SPACE_PROBE_ANCESTORS).0, ban)
  {
    if Shuns(t, ban) { QueryAvoids(t, t.jobs[first].destination.fs.value, path, MAX_SPACE_PROBE_ANCESTORS, ban); }
  }

  lemma MakingAvoids(s: State, ban: Option<nat>)
    requires s.dirsToCreate != [] && !s.enumerating && !Unweighed(s.jobs)
    ensures Avoids(s, CreateNextDirectory(s), ban)
  {
    if Shuns(s, ban) {
      assert s.dirsToCreate[0] in s.dirsToCreate;
      var t := s.(dirsToCreate := s.dirsToCreate[1..]);
      IssueAvoids(t, MakeDir(s.dirsToCreate[0]), true, ban);
    }
  }

  lemma NumberedFinds(jobs: seq<Job>, nextId: JobId, i: nat)
    requires Numbered(jobs, nextId) && i < |jobs|
    ensures Index(jobs, jobs[i].id) == i
  {}

  lemma BegunAvoids(s: State, i: nat, ban: Option<nat>)
    requires i < |s.jobs| && s.jobs[i].state == Queued && s.jobs[i].source.fs.Some? && s.jobs[i].destination.fs.Some?
    ensures var job := s.jobs[i];
            Avoids(s, Issue(WithJob(s.(activeId := job.id), i, job.(state := Checking)), Stat(job.id), job.spaceChecked), ban)
  {
    if Shuns(s, ban) {
      var job := s.jobs[i];
      assert ban.None? || JobShuns(job, ban);
      CheckingAvoids(s, i, ban);
      LookAvoids(WithJob(s.(activeId := job.id), i, job.(state := Checking)), i, job.spaceChecked, ban);
    }
  }

  lemma CheckingAvoids(s: State, i: nat, ban: Option<nat>)
    requires i < |s.jobs| && s.jobs[i].source.fs.Some? && s.jobs[i].destination.fs.Some? && (ban.None? || JobShuns(s.jobs[i], ban))
    ensures var job := s.jobs[i];
            Avoids(s, WithJob(s.(activeId := job.id), i, job.(state := Checking)), ban)
  {
    JobAvoids(s.(activeId := s.jobs[i].id), i, s.jobs[i].(state := Checking), ban);
  }

  lemma LookAvoids(s: State, i: nat, weighed: bool, ban: Option<nat>)
    requires Shuns(s, ban) && i < |s.jobs| && s.jobs[i].destination.fs != ban
    ensures Avoids(s, Issue(s, Stat(s.jobs[i].id), weighed), ban)
  {
    NumberedFinds(s.jobs, s.nextId, i);
    IssueAvoids(s, Stat(s.jobs[i].id), weighed, ban);
  }

  lemma RetiredAvoids(s: State, i: nat, outcome: JobState, ban: Option<nat>)
    requires i < |s.jobs| && outcome.Terminal()
    ensures Avoids(s, Retired(s, i, outcome), ban)
  {
    JobAvoids(s, i, s.jobs[i].(state := outcome), ban);
  }

  lemma {:induction false} PumpAvoids(s: State, ban: Option<nat>)
    ensures Avoids(s, Pump(s), ban)
    decreases QueuedCount(s.jobs), UnweighedCount(s.jobs), if s.preflight == Cleared then 0 else 1
  {
    if !s.enumerating {
      var i := FirstQueued(s.jobs);
      if i == |s.jobs| {
        NoneQueuedNoneUnweighed(s.jobs);
        if s.dirsToCreate != [] { MakingAvoids(s, ban); }
      } else if s.preflight != Cleared || Unweighed(s.jobs) {
        if s.preflight != CheckingSpace {
          BeginPreflightDecreases(s);
          PreflightAvoids(s, ban);
          var (next, over) := BeginPreflight(s);
          if over {
            PumpAvoids(next.(preflight := Cleared), ban);
            ThenAvoids(s, next, Pump(next.(preflight := Cleared)), ban);
          }
        }
      } else if !s.paused && s.activeId == NO_JOB {
        if s.dirsToCreate != [] { MakingAvoids(s, ban); } else { PumpBeginAvoids(s, i, ban); }
      }
    }
  }

  lemma ThenAvoids(s: State, next: State, t: State, ban: Option<nat>)
    requires Avoids(s, next, ban) && Avoids(next.(preflight := Cleared), t, ban)
    ensures Avoids(s, t, ban)
  {
    AvoidsComposes(s, next, t, ban);
  }

  lemma {:induction false} PumpBeginAvoids(s: State, i: nat, ban: Option<nat>)
    requires !s.enumerating && s.preflight == Cleared && !Unweighed(s.jobs)
    requires i == FirstQueued(s.jobs) < |s.jobs| && !s.paused && s.activeId == NO_JOB && s.dirsToCreate == []
    ensures Avoids(s, Pump(s), ban)
    decreases QueuedCount(s.jobs), UnweighedCount(s.jobs), 0, 0
  {
    var job := s.jobs[i];
    if job.source.fs.None? || job.destination.fs.None? {
      var t := Retired(s.(activeId := job.id), i, Failed);
      CountsUpdate(s.jobs, i, job.(state := Failed));
      PumpAvoids(t, ban);
      assert Pump(s) == Pump(t);
      RefusedAvoids(s, i, Pump(t), ban);
    } else {
      BegunAvoids(s, i, ban);
    }
  }

  lemma RefusedAvoids(s: State, i: nat, u: State, ban: Option<nat>)
    requires i < |s.jobs| && Avoids(Retired(s.(activeId := s.jobs[i].id), i, Failed), u, ban)
    ensures Avoids(s, u, ban)
  {
    RetiredAvoids(s.(activeId := s.jobs[i].id), i, Failed, ban);
    AvoidsComposes(s.(activeId := s.jobs[i].id), Retired(s.(activeId := s.jobs[i].id), i, Failed), u, ban);
  }

  // ----------------------------------------------------------------- answers about jobs

  lemma FinishAvoids(s: State, id: JobId, outcome: JobState, ban: Option<nat>)
    requires outcome.Terminal()
    ensures Avoids(s, FinishJob(s, id, outcome), ban)
  {
    var i := Index(s.jobs, id);
    if i < |s.jobs| { RetiredPumpAvoids(s, i, outcome, ban); } else { FreedPumpAvoids(s, id, ban); }
  }

  lemma FreedPumpAvoids(s: State, id: JobId, ban: Option<nat>)
    ensures Avoids(s, Pump(SlotFreed(s, id)), ban)
  {
    PumpAvoids(SlotFreed(s, id), ban);
  }

  lemma RetiredPumpAvoids(s: State, i: nat, outcome: JobState, ban: Option<nat>)
    requires i < |s.jobs| && outcome.Terminal()
    ensures Avoids(s, Pump(Retired(s, i, outcome)), ban)
  {
    var t := Retired(s, i, outcome);
    RetiredAvoids(s, i, outcome, ban);
    PumpAvoids(t, ban);
    AvoidsComposes(s, t, Pump(t), ban);
  }

  lemma AbandonAvoids(s: State, ban: Option<nat>)
    ensures Avoids(s, Abandon(s), ban)
  {
    PumpAvoids(s.(activeId := NO_JOB), ban);
  }

  /** A job that may be asked about has nothing to do with the endpoint. */
  predicate Free(s: State, id: JobId, ban: Option<nat>) {
    Index(s.jobs, id) < |s.jobs| ==> JobShuns(s.jobs[Index(s.jobs, id)], ban)
  }

  lemma LaunchAvoids(s: State, id: JobId, ban: Option<nat>)
    requires Index(s.jobs, id) < |s.jobs| && Free(s, id, ban) && id < s.nextId
    ensures Avoids(s, Launched(s, id, s.jobs[Index(s.jobs, id)]), ban)
  {
    var job := s.jobs[Index(s.jobs, id)];
    if job.kind == LinkJob { IssueAvoids(s, ReadLink(id, job.destExisted), true, ban); return; }
    if job.destination.IsLocalDisk() { LegAvoids(s, id, job.source.fs, false, ban); return; }
    if job.source.IsLocalDisk() { LegAvoids(s, id, job.destination.fs, false, ban); return; }
    if !s.config.relayRoot { FinishAvoids(s, id, Failed, ban); return; }
    LegAvoids(s, id, job.source.fs, true, ban);
  }

  lemma LegAvoids(s: State, id: JobId, owner: Option<nat>, firstLeg: bool, ban: Option<nat>)
    requires owner != ban && (firstLeg ==> Free(s, id, ban)) && id < s.nextId
    ensures Avoids(s, Issue(s.(activeOwner := owner), Transfer(id, firstLeg), true), ban)
  {
    IssueAvoids(s.(activeOwner := owner), Transfer(id, firstLeg), true, ban);
  }

  lemma StartAvoids(s: State, id: JobId, ban: Option<nat>)
    requires Free(s, id, ban) && id < s.nextId
    ensures Avoids(s, StartTransfer(s, id), ban)
  {
    var i := Index(s.jobs, id);
    if i == |s.jobs| { AbandonAvoids(s, ban); return; }
    var job := s.jobs[i].(state := Active);
    var t := WithJob(s, i, job);
    JobAvoids(s, i, job, ban);
    EndsFound(s.jobs, t.jobs, id);
    LaunchAvoids(t, id, ban);
    AvoidsComposes(s, t, StartTransfer(s, id), ban);
  }

  lemma FreeNameAvoids(s: State, id: JobId, attempt: nat, ban: Option<nat>)
    requires Free(s, id, ban) && id < s.nextId
    ensures Avoids(s, ResolveFreeName(s, id, attempt), ban)
  {
    if Index(s.jobs, id) == |s.jobs| { AbandonAvoids(s, ban); return; }
    if attempt > MAX_RENAME_ATTEMPTS { FinishAvoids(s, id, Failed, ban); return; }
    forall candidate: string ensures Avoids(s, Issue(s, StatFree(id, candidate, attempt), true), ban) {
      IssueAvoids(s, StatFree(id, candidate, attempt), true, ban);
    }
  }

  lemma ResolveAvoids(s: State, id: JobId, resolution: Resolution, ban: Option<nat>)
    requires Free(s, id, ban) && id < s.nextId
    ensures Avoids(s, Resolve(s, id, resolution), ban)
  {
    if resolution == Overwrite { StartAvoids(s, id, ban); }
    else if resolution == Skip { FinishAvoids(s, id, Skipped, ban); }
    else { FreeNameAvoids(s, id, 1, ban); }
  }

  lemma ConflictAvoids(s: State, id: JobId, found: bool, ban: Option<nat>)
    requires Shuns(s, ban) && id < s.nextId
    ensures Avoids(s, OnConflictKnown(s, id, found), ban)
  {
    var i := Index(s.jobs, id);
    if i == |s.jobs| || s.jobs[i].state != Checking { AbandonAvoids(s, ban); return; }
    if !found { StartAvoids(s, id, ban); return; }
    var job := s.jobs[i].(destExisted := true);
    var t := WithJob(s, i, job);
    JobAvoids(s, i, job, ban);
    EndsFound(s.jobs, t.jobs, id);
    FoundAvoids(t, id, ban);
    AvoidsComposes(s, t, OnConflictKnown(s, id, found), ban);
  }

  /** What becomes of a job whose destination is taken. */
  function Taken(s: State, id: JobId): State
    requires Index(s.jobs, id) < |s.jobs|
  {
    var i := Index(s.jobs, id);
    if s.config.policy != Ask then Resolve(s, id, s.config.policy)
    else if !s.config.hasPrompt then FinishJob(s, id, Skipped)
    else Issue(WithJob(s, i, s.jobs[i].(state := AwaitingResolution)), Prompt(id), true)
  }

  lemma FoundAvoids(s: State, id: JobId, ban: Option<nat>)
    requires Index(s.jobs, id) < |s.jobs| && Free(s, id, ban) && id < s.nextId
    ensures Avoids(s, Taken(s, id), ban)
  {
    if s.config.policy != Ask { ResolveAvoids(s, id, s.config.policy, ban); return; }
    if !s.config.hasPrompt { FinishAvoids(s, id, Skipped, ban); return; }
    var i := Index(s.jobs, id);
    var t := WithJob(s, i, s.jobs[i].(state := AwaitingResolution));
    JobAvoids(s, i, s.jobs[i].(state := AwaitingResolution), ban);
    IssueAvoids(t, Prompt(id), true, ban);
    AvoidsComposes(s, t, Issue(t, Prompt(id), true), ban);
  }

  lemma FreeNameAnswerAvoids(s: State, id: JobId, candidate: string, attempt: nat, found: bool, ban: Option<nat>)
    requires Free(s, id, ban) && id < s.nextId
    ensures Avoids(s, OnFreeNameKnown(s, id, candidate, attempt, found), ban)
  {
    if found { FreeNameAvoids(s, id, attempt + 1, ban); return; }
    var i := Index(s.jobs, id);
    if i == |s.jobs| { StartAvoids(s, id, ban); return; }
    var job := s.jobs[i].(destPath := candidate, destExisted := false);
    var t := WithJob(s, i, job);
    JobAvoids(s, i, job, ban);
    EndsFound(s.jobs, t.jobs, id);
    StartAvoids(t, id, ban);
    AvoidsComposes(s, t, StartTransfer(t, id), ban);
  }

  lemma PromptAvoids(s: State, id: JobId, resolution: Resolution, applyToAll: bool, ban: Option<nat>)
    ensures Avoids(s, OnPromptAnswered(s, id, resolution, applyToAll), ban)
  {
    var i := Index(s.jobs, id);
    if i == |s.jobs| || s.jobs[i].state != AwaitingResolution || !Shuns(s, ban) { return; }
    assert s.jobs[i].id < s.nextId && JobShuns(s.jobs[i], ban);
    var t := if applyToAll then s.(config := s.config.(policy := resolution)) else s;
    ResolveAvoids(t, id, resolution, ban);
    ConfiguredAvoids(s, t.config, Resolve(t, id, resolution), ban);
  }

  lemma ConfiguredAvoids(s: State, config: Config, t: State, ban: Option<nat>)
    requires Avoids(s.(config := config), t, ban)
    ensures Avoids(s, t, ban)
  {}

  lemma LegDoneAvoids(s: State, id: JobId, firstLeg: bool, ok: bool, cancelled: bool, ban: Option<nat>)
    requires CallShuns(s.jobs, Transfer(id, firstLeg), ban) && id < s.nextId
    ensures Avoids(s, OnLegDone(s, id, firstLeg, ok, cancelled), ban)
  {
    var i := Index(s.jobs, id);
    if i == |s.jobs| { AbandonAvoids(s, ban); return; }
    if !ok { FinishAvoids(s, id, if cancelled then Cancelled else Failed, ban); return; }
    if firstLeg { LegAvoids(s, id, s.jobs[i].destination.fs, false, ban); return; }
    FinishAvoids(s, id, Completed, ban);
  }

  lemma WriteAvoids(s: State, id: JobId, ban: Option<nat>)
    requires WritesElsewhere(s.jobs, id, ban) && id < s.nextId
    ensures Avoids(s, WriteLink(s, id), ban)
  {
    if Index(s.jobs, id) == |s.jobs| { AbandonAvoids(s, ban); return; }
    IssueAvoids(s, MakeLink(id), true, ban);
  }

  lemma LinkReadAvoids(s: State, id: JobId, mustUnlink: bool, ok: bool, ban: Option<nat>)
    requires WritesElsewhere(s.jobs, id, ban) && id < s.nextId
    ensures Avoids(s, OnLinkRead(s, id, mustUnlink, ok), ban) && Avoids(s, OnUnlinked(s, id, ok), ban)
  {
    FinishAvoids(s, id, Failed, ban);
    AbandonAvoids(s, ban);
    WriteAvoids(s, id, ban);
    if Index(s.jobs, id) < |s.jobs| { IssueAvoids(s, Unlink(id), true, ban); }
  }

  lemma JobAnswerAvoids(s: State, q: Request, r: Reply, ban: Option<nat>)
    requires Shuns(s, ban) && CallShuns(s.jobs, q, ban) && Known(q, s.nextId) && (ClassOf(q) == Calling || q.Prompt?)
    ensures Avoids(s, OnAnswer(s, q, r), ban)
  {
    match q {
      case Stat(id) => ConflictAvoids(s, id, r.found, ban); return;
      case StatFree(id, candidate, attempt) => FreeNameAnswerAvoids(s, id, candidate, attempt, r.found, ban); return;
      case Prompt(id) => PromptAvoids(s, id, r.resolution, r.applyToAll, ban); return;
      case Transfer(id, firstLeg) => LegDoneAvoids(s, id, firstLeg, r.ok, r.cancelled, ban); return;
      case ReadLink(id, mustUnlink) => LinkReadAvoids(s, id, mustUnlink, r.ok, ban); return;
      case Unlink(id) => LinkReadAvoids(s, id, false, r.ok, ban); return;
      case MakeLink(id) => FinishAvoids(s, id, if r.ok then Completed else Failed, ban); return;
    }
  }

  // ------------------------------------------------------------- the walk and new work

  lemma UnlistedStay(jobs: seq<Job>, job: Job, id: JobId)
    requires id < job.id
    ensures Index(jobs + [job], id) == if Listed(jobs, id) then Index(jobs, id) else |jobs| + 1
    ensures Listed(jobs + [job], id) <==> Listed(jobs, id)
    ensures SourceOf(jobs + [job], id) == SourceOf(jobs, id) && DestinationOf(jobs + [job], id) == DestinationOf(jobs, id)
  {
    var more := jobs + [job];
    var i, k := Index(jobs, id), Index(more, id);
    assert forall j | 0 <= j < |jobs| :: more[j] == jobs[j];
    assert more[|jobs|] == job;
    if i < |jobs| { assert more[i].id == id; }
  }

  lemma CallsStay(jobs: seq<Job>, job: Job, q: Request, ban: Option<nat>)
    requires Known(q, job.id)
    ensures CallShuns(jobs + [job], q, ban) <==> CallShuns(jobs, q, ban)
  {
    match q
    case StatFree(id, _, _) => UnlistedStay(jobs, job, id);
    case ReadLink(id, _) => UnlistedStay(jobs, job, id);
    case Unlink(id) => UnlistedStay(jobs, job, id);
    case Transfer(id, _) => UnlistedStay(jobs, job, id);
    case _ =>
  }

  lemma AddAvoids(s: State, job: Job, ban: Option<nat>)
    requires !job.state.InProgress() && (ban.None? || JobShuns(job, ban))
    ensures Avoids(s, AddJob(s, job), ban)
  {
    var t := WithNewJob(s, job);
    if Shuns(s, ban) {
      forall q | q in s.out ensures CallShuns(t.jobs, q, ban) { CallsStay(s.jobs, job.(id := s.nextId), q, ban); }
    }
    PumpAvoids(t, ban);
    AvoidsComposes(s, t, Pump(t), ban);
  }

  lemma AbsorbOneAvoids(s: State, dir: PendingDir, e: Info, ban: Option<nat>)
    requires DirShuns(dir, ban)
    ensures Avoids(s, AbsorbOne(s, dir, e), ban)
  {
    var src, dst := RemotePath.Join(dir.sourcePath, e.name), RemotePath.Join(dir.destPath, e.name);
    if e.isSymlink {
      AddAvoids(s, NewJob(LinkJob, dir.source, src, dir.destination, dst, if s.config.skipLinks then Skipped else Queued), ban);
    } else if !e.isDir {
      AddAvoids(s, NewJob(Copy, dir.source, src, dir.destination, dst, Queued), ban);
    }
  }

  lemma {:induction false} AbsorbAvoids(s: State, dir: PendingDir, entries: seq<Info>, ban: Option<nat>)
    requires DirShuns(dir, ban)
    ensures Avoids(s, AbsorbEntries(s, dir, entries), ban)
    decreases |entries|
  {
    if entries != [] {
      var next := AbsorbOne(s, dir, entries[0]);
      AbsorbOneAvoids(s, dir, entries[0], ban);
      AbsorbAvoids(next, dir, entries[1..], ban);
      AvoidsComposes(s, next, AbsorbEntries(next, dir, entries[1..]), ban);
    }
  }

  ghost predicate NoListing(s: State) {
    forall dir :: List(dir) !in s.out
  }

  lemma WalkAvoids(s: State, ban: Option<nat>)
    requires NoListing(s)
    ensures Avoids(s, StepEnumeration(s), ban)
  {
    if s.toVisit == [] {
      var t := s.(enumerating := false, enumCancelled := false);
      PumpAvoids(t, ban);
      assert Shuns(s, ban) ==> Shuns(t, ban);
    } else if Shuns(s, ban) {
      assert s.toVisit[0] in s.toVisit;
      IssueAvoids(s.(toVisit := s.toVisit[1..]), List(s.toVisit[0]), true, ban);
    }
  }

  lemma ListedAvoids(s: State, dir: PendingDir, entries: seq<Info>, gone: bool, ban: Option<nat>)
    requires s.enumerating && NoListing(s) && (s.enumCancelled || DirShuns(dir, ban))
    ensures Avoids(s, OnListed(s, dir, entries, gone), ban)
  {
    if s.enumCancelled { WalkAvoids(s, ban); return; }
    RowsAvoid(if gone then s.(toVisit := []) else s, dir, entries, ban);
  }

  lemma RowsAvoid(s: State, dir: PendingDir, entries: seq<Info>, ban: Option<nat>)
    requires s.enumerating && NoListing(s) && DirShuns(dir, ban)
    ensures Avoids(s, StepEnumeration(AbsorbEntries(s, dir, entries)), ban)
  {
    var t := AbsorbEntries(s, dir, entries);
    AbsorbingOnlyAdds(s, dir, entries);
    AbsorbAvoids(s, dir, entries, ban);
    WalkAvoids(t, ban);
    AvoidsComposes(s, t, StepEnumeration(t), ban);
  }

  /** What is queued has nothing to do with the endpoint; a single file or link may lack an endpoint, which it
      then fails for. */
  predicate NewElsewhere(e: Event, ban: Option<nat>) {
    e.EnqueueEvent? ==> (e.source.fs != ban && e.destination.fs != ban) || (ban.None? && (e.item.isSymlink || !e.item.isDir))
  }

  lemma TreeAvoids(s: State, source: Endpoint, path: string, destination: Endpoint, dest: string, ban: Option<nat>)
    requires source.fs != ban && destination.fs != ban && (s.enumerating || NoListing(s))
    ensures Avoids(s, EnqueueTree(s, source, path, destination, dest), ban)
  {
    if source.fs == destination.fs && RemotePath.ContainsResult(path, dest) { return; }
    var t := s.(toVisit := s.toVisit + [PendingDir(source, destination, path, dest, 0)],
                dirsToCreate := s.dirsToCreate + [DirCreate(destination, dest)]);
    assert Avoids(s, t, ban);
    if !s.enumerating {
      WalkAvoids(t.(enumerating := true), ban);
    }
  }

  lemma EnqueueAvoids(s: State, source: Endpoint, item: Info, path: string, destination: Endpoint, destDir: string, ban: Option<nat>)
    requires NewElsewhere(EnqueueEvent(source, item, path, destination, destDir), ban) && (s.enumerating || NoListing(s))
    ensures Avoids(s, EnqueueItem(s, source, item, path, destination, destDir), ban)
  {
    var dest := RemotePath.Join(destDir, item.name);
    if item.isSymlink {
      AddAvoids(s, NewJob(LinkJob, source, path, destination, dest, if s.config.skipLinks then Skipped else Queued), ban);
    } else if item.isDir {
      TreeAvoids(s, source, path, destination, dest, ban);
    } else {
      AddAvoids(s, NewJob(Copy, source, path, destination, dest, Queued), ban);
    }
  }

  // ------------------------------------------------------------------ the space check

  lemma SettledAvoids(s: State, r: (State, bool), ban: Option<nat>)
    requires Avoids(s, r.0, ban)
    ensures Avoids(s, Settled(r), ban)
  {
    if r.1 {
      PumpAvoids(r.0.(preflight := Cleared), ban);
      ThenAvoids(s, r.0, Settled(r), ban);
    }
  }

  lemma SpaceAvoids(s: State, fs: nat, path: string, left: nat, ok: bool, unsupported: bool, ban: Option<nat>)
    requires CallShuns(s.jobs, QuerySpace(fs, path, left), ban)
    ensures Avoids(s, OnSpaceAnswered(s, fs, path, left, ok, unsupported), ban)
  {
    var parent := RemotePath.Parent(path);
    KnownAvoids(s, fs, path, parent, left, ok, unsupported, ban);
    SettledAvoids(s, SpaceKnown(s, fs, path, parent, left, ok, unsupported), ban);
  }

  lemma KnownAvoids(s: State, fs: nat, path: string, parent: string, left: nat, ok: bool, unsupported: bool, ban: Option<nat>)
    requires Some(fs) != ban || !(left > 0 && parent != "" && parent != path)
    ensures Avoids(s, SpaceKnown(s, fs, path, parent, left, ok, unsupported).0, ban)
  {
    if ok || unsupported || left == 0 || parent == "" || parent == path { VerdictAvoids(s, ban); return; }
    QueryAvoids(s, fs, parent, left - 1, ban);
  }

  // ------------------------------------------------------------------------ retirements

  lemma CancelAvoids(s: State, id: JobId, ban: Option<nat>)
    ensures Avoids(s, CancelJob(s, id), ban)
  {
    FinishAvoids(s, id, Cancelled, ban);
  }

  lemma {:induction false} CancelsAvoid(s: State, ids: seq<JobId>, ban: Option<nat>)
    ensures Avoids(s, CancelJobs(s, ids), ban)
    decreases |ids|
  {
    if ids != [] {
      var t := CancelJob(s, ids[0]);
      CancelAvoids(s, ids[0], ban);
      CancelsAvoid(t, ids[1..], ban);
      AvoidsComposes(s, t, CancelJobs(t, ids[1..]), ban);
    }
  }

  lemma {:induction false} FewerVisits(toVisit: seq<PendingDir>, dirs: seq<DirCreate>, volume: Option<nat>)
    ensures forall dir :: dir in VisitsElsewhere(toVisit, volume) <==> dir in toVisit && dir.destination.fs != volume
    ensures forall create :: create in DirsElsewhere(dirs, volume) <==> create in dirs && create.destination.fs != volume
    decreases |toVisit| + |dirs|
  {
    if toVisit != [] { FewerVisits(toVisit[1..], [], volume); }
    if dirs != [] { FewerVisits([], dirs[1..], volume); }
  }

  lemma BatchAvoids(s: State, volume: Option<nat>, ban: Option<nat>)
    ensures Avoids(s, CancelBatchFor(s, volume), ban)
  {
    var d := DropPendingFor(s, volume);
    FewerVisits(s.toVisit, s.dirsToCreate, volume);
    CancelsAvoid(d, Unfinished(s.jobs, Some(volume)), ban);
    AvoidsComposes(s, d, CancelBatchFor(s, volume), ban);
  }

  lemma CancelAllAvoids(s: State, ban: Option<nat>)
    ensures Avoids(s, CancelAll(s), ban)
  {
    var d := DropPending(s);
    CancelsAvoid(d, Unfinished(s.jobs, None), ban);
    AvoidsComposes(s, d, CancelAll(s), ban);
  }

  lemma DeclinedAvoids(s: State, volume: Option<nat>, proceed: bool, ban: Option<nat>)
    ensures Avoids(s, OnSpacePromptAnswered(s, volume, proceed), ban)
  {
    var t := if proceed then s else CancelBatchFor(s, volume);
    BatchAvoids(s, volume, ban);
    PumpAvoids(t.(preflight := Cleared), ban);
    ThenAvoids(s, t, Pump(t.(preflight := Cleared)), ban);
  }

  // ---------------------------------------------------------- a file system that closes

  /** No call outstanding leads on to the file system that closes. Calls that end with their answer, a first look
      at the destination and a last leg, do not matter. */
  ghost predicate SafeClose(s: State, fs: nat) {
    forall q | q in s.out && ClassOf(q) == Calling :: CallShuns(s.jobs, q, Some(fs))
  }

  lemma PartedCalls(jobs: seq<Job>, i: nat, fs: nat, q: Request, ban: Option<nat>)
    requires i < |jobs| && CallShuns(jobs, q, ban) && (ban.None? && ClassOf(q) == Calling ==> CallShuns(jobs, q, Some(fs)))
    ensures CallShuns(jobs[i := Parted(jobs[i], fs)], q, ban)
    ensures ClassOf(q) == Calling && CallShuns(jobs, q, Some(fs)) ==> CallShuns(jobs[i := Parted(jobs[i], fs)], q, Some(fs))
  {
    var after := jobs[i := Parted(jobs[i], fs)];
    assert forall j | 0 <= j < |jobs| :: after[j].id == jobs[j].id;
    match q
    case StatFree(id, _, _) => IdsFound(jobs, after, id);
    case ReadLink(id, _) => IdsFound(jobs, after, id);
    case Unlink(id) => IdsFound(jobs, after, id);
    case Transfer(id, _) => IdsFound(jobs, after, id);
    case _ =>
  }

  lemma IdsFound(a: seq<Job>, b: seq<Job>, id: JobId)
    requires |a| == |b| && forall i | 0 <= i < |a| :: b[i].id == a[i].id
    ensures Index(a, id) == Index(b, id)
  {
    var i, j := Index(a, id), Index(b, id);
    if i < |a| { assert b[i].id == id; }
    if j < |b| { assert a[j].id == id; }
  }

  /** The job as it is once its file system is gone and it has retired. */
  function Dropped(s: State, i: nat, fs: nat): State
    requires i < |s.jobs|
  {
    WithJob(s, i, Parted(s.jobs[i], fs).(state := Cancelled))
  }

  lemma DroppedAvoids(s: State, i: nat, fs: nat, ban: Option<nat>)
    requires i < |s.jobs| && (ban.None? ==> SafeClose(s, fs))
    ensures Avoids(s, Dropped(s, i, fs), ban)
    ensures Shuns(s, ban) && SafeClose(s, fs) ==> SafeClose(Dropped(s, i, fs), fs)
  {
    var parted, gone := s.jobs[i := Parted(s.jobs[i], fs)], Dropped(s, i, fs).jobs;
    assert SameEnds(parted, gone);
    forall q | q in s.out && CallShuns(s.jobs, q, ban)
      ensures CallShuns(gone, q, ban)
      ensures ClassOf(q) == Calling && CallShuns(s.jobs, q, Some(fs)) ==> CallShuns(gone, q, Some(fs))
    {
      PartedCalls(s.jobs, i, fs, q, ban);
      SameCalls(parted, gone, q, ban);
      SameCalls(parted, gone, q, Some(fs));
    }
  }

  /** All the pump calls is a first look at the destination of a job it has; it moves nothing else. */
  ghost predicate OnlyLooks(s: State, t: State) {
    && SameEnds(s.jobs, t.jobs) && t.nextId == s.nextId
    && forall q | q in t.out && ClassOf(q) == Calling :: q in s.out || (q.Stat? && Listed(s.jobs, q.id))
  }

  lemma OnlyLooksComposes(s: State, t: State, u: State)
    requires OnlyLooks(s, t) && OnlyLooks(t, u)
    ensures OnlyLooks(s, u)
  {
    forall q | q in u.out && ClassOf(q) == Calling ensures q in s.out || (q.Stat? && Listed(s.jobs, q.id)) {
      if q !in t.out { EndsFound(s.jobs, t.jobs, q.id); }
    }
  }

  lemma IssueOnlyLooks(s: State, q: Request, weighed: bool)
    requires ClassOf(q) == Calling ==> q.Stat? && Listed(s.jobs, q.id)
    ensures OnlyLooks(s, Issue(s, q, weighed))
  {
    forall r | r in Issue(s, q, weighed).out ensures r == q || r in s.out {}
  }

  lemma VerdictOnlyLooks(s: State)
    ensures OnlyLooks(s, Verdict(s).0)
  {
    var first := FirstUnchecked(s.jobs);
    if first < |s.jobs| {
      var volume := s.jobs[first].destination.fs;
      IssueOnlyLooks(s.(jobs := MarkWeighed(s.jobs, volume)), SpacePrompt(volume), true);
    }
  }

  lemma MeasuringOnlyLooks(s: State, fs: nat, path: string)
    ensures OnlyLooks(s, QuerySpaceFrom(s, fs, path, MAX_SPACE_PROBE_ANCESTORS).0)
  {
    VerdictOnlyLooks(s);
    IssueOnlyLooks(s, QuerySpace(fs, path, MAX_SPACE_PROBE_ANCESTORS), true);
  }

  lemma PreflightOnlyLooks(s: State)
    ensures OnlyLooks(s, BeginPreflight(s).0)
  {
    var first := FirstUnchecked(s.jobs);
    if first < |s.jobs| && s.jobs[first].destination.fs.Some? {
      var t := s.(preflight := CheckingSpace);
      MeasuringOnlyLooks(t, s.jobs[first].destination.fs.value, RemotePath.Parent(s.jobs[first].destPath));
    }
  }

  lemma {:induction false} PumpOnlyLooks(s: State)
    ensures OnlyLooks(s, Pump(s))
    decreases QueuedCount(s.jobs), UnweighedCount(s.jobs), if s.preflight == Cleared then 0 else 1
  {
    if !s.enumerating && FirstQueued(s.jobs) < |s.jobs| {
      if s.preflight != Cleared || Unweighed(s.jobs) {
        if s.preflight != CheckingSpace {
          BeginPreflightDecreases(s);
          PreflightOnlyLooks(s);
          var (next, over) := BeginPreflight(s);
          if over {
            PumpOnlyLooks(next.(preflight := Cleared));
            OnlyLooksComposes(s, next.(preflight := Cleared), Pump(next.(preflight := Cleared)));
          }
        }
      } else if !s.paused && s.activeId == NO_JOB && s.dirsToCreate == [] {
        PumpBeginOnlyLooks(s, FirstQueued(s.jobs));
      }
    } else if !s.enumerating && s.dirsToCreate != [] {
      NoneQueuedNoneUnweighed(s.jobs);
      IssueOnlyLooks(s.(dirsToCreate := s.dirsToCreate[1..]), MakeDir(s.dirsToCreate[0]), true);
    }
  }

  lemma {:induction false} PumpBeginOnlyLooks(s: State, i: nat)
    requires !s.enumerating && s.preflight == Cleared && !Unweighed(s.jobs)
    requires i == FirstQueued(s.jobs) < |s.jobs| && !s.paused && s.activeId == NO_JOB && s.dirsToCreate == []
    ensures OnlyLooks(s, Pump(s))
    decreases QueuedCount(s.jobs), UnweighedCount(s.jobs), 0, 0
  {
    var job := s.jobs[i];
    var t := s.(activeId := job.id);
    if job.source.fs.None? || job.destination.fs.None? {
      CountsUpdate(s.jobs, i, job.(state := Failed));
      PumpOnlyLooks(Retired(t, i, Failed));
      OnlyLooksComposes(s, Retired(t, i, Failed), Pump(Retired(t, i, Failed)));
    } else {
      BegunOnlyLooks(s, i);
    }
  }

  lemma BegunOnlyLooks(s: State, i: nat)
    requires i < |s.jobs|
    ensures var job := s.jobs[i];
            OnlyLooks(s, Issue(WithJob(s.(activeId := job.id), i, job.(state := Checking)), Stat(job.id), job.spaceChecked))
  {
    var job := s.jobs[i];
    var u := WithJob(s.(activeId := job.id), i, job.(state := Checking));
    IdsFound(s.jobs, u.jobs, job.id);
    assert Listed(s.jobs, job.id);
    IssueOnlyLooks(u, Stat(job.id), job.spaceChecked);
    OnlyLooksComposes(s, u, Issue(u, Stat(job.id), job.spaceChecked));
  }

  lemma LooksKeepSafe(s: State, t: State, fs: nat)
    requires OnlyLooks(s, t) && SafeClose(s, fs)
    ensures SafeClose(t, fs)
  {
    forall q | q in t.out && ClassOf(q) == Calling ensures CallShuns(t.jobs, q, Some(fs)) { SameCalls(s.jobs, t.jobs, q, Some(fs)); }
  }

  lemma DropAvoids(s: State, id: JobId, fs: nat, ban: Option<nat>)
    requires ban.None? ==> SafeClose(s, fs)
    ensures Avoids(s, DropJob(s, id, fs), ban)
    ensures Shuns(s, ban) && SafeClose(s, fs) ==> SafeClose(DropJob(s, id, fs), fs)
  {
    var i := Index(s.jobs, id);
    if i == |s.jobs| {
      FinishAvoids(s, id, Cancelled, ban);
      PumpOnlyLooks(SlotFreed(s, id));
      if SafeClose(s, fs) { LooksKeepSafe(s, DropJob(s, id, fs), fs); }
      return;
    }
    var t := SlotFreed(Dropped(s, i, fs), id);
    DropIsPump(s, id, fs);
    DroppedAvoids(s, i, fs, ban);
    PumpAvoids(t, ban);
    AvoidsComposes(s, t, Pump(t), ban);
    PumpOnlyLooks(t);
    if SafeClose(t, fs) { LooksKeepSafe(t, Pump(t), fs); }
  }

  lemma DropIsPump(s: State, id: JobId, fs: nat)
    requires Index(s.jobs, id) < |s.jobs|
    ensures DropJob(s, id, fs) == Pump(SlotFreed(Dropped(s, Index(s.jobs, id), fs), id))
  {
    var i := Index(s.jobs, id);
    var t := WithJob(s, i, Parted(s.jobs[i], fs));
    IdsFound(s.jobs, t.jobs, id);
    assert t.jobs[i := t.jobs[i].(state := Cancelled)] == Dropped(s, i, fs).jobs;
  }

  lemma {:induction false} DropsAvoid(s: State, ids: seq<JobId>, fs: nat, ban: Option<nat>)
    requires ban.None? ==> Shuns(s, ban) && SafeClose(s, fs)
    ensures Avoids(s, DropJobs(s, ids, fs), ban)
    decreases |ids|
  {
    if ids != [] {
      var t := DropJob(s, ids[0], fs);
      DropAvoids(s, ids[0], fs, ban);
      DropsAvoid(t, ids[1..], fs, ban);
      AvoidsComposes(s, t, DropJobs(t, ids[1..], fs), ban);
    }
  }

  // ----------------------------------------------------------------------- every event

  lemma {:induction false} ClearedAre(jobs: seq<Job>)
    ensures forall job :: job in Unterminated(jobs) <==> job in jobs && !job.state.Terminal()
    decreases |jobs|
  {
    if jobs != [] {
      ClearedAre(jobs[1..]);
      assert forall job :: job in jobs <==> job == jobs[0] || job in jobs[1..];
    }
  }

  lemma FirstIsApart(jobs: seq<Job>, nextId: JobId)
    requires Numbered(jobs, nextId) && jobs != []
    ensures forall job | job in jobs[1..] :: job.id != jobs[0].id
  {
    forall job | job in jobs[1..] ensures job.id != jobs[0].id {
      var j :| 0 <= j < |jobs[1..]| && jobs[1..][j] == job;
      assert jobs[j + 1] == job;
    }
  }

  lemma {:induction false} ClearedAreNumbered(jobs: seq<Job>, nextId: JobId)
    requires Numbered(jobs, nextId)
    ensures Numbered(Unterminated(jobs), nextId)
    decreases |jobs|
  {
    if jobs != [] {
      var kept := Unterminated(jobs[1..]);
      ClearedAreNumbered(jobs[1..], nextId);
      ClearedAre(jobs[1..]);
      FirstIsApart(jobs, nextId);
      assert forall k | 0 <= k < |kept| :: kept[k] in kept;
    }
  }

  lemma ClearedFinds(jobs: seq<Job>, nextId: JobId, id: JobId)
    requires Numbered(jobs, nextId) && Listed(Unterminated(jobs), id)
    ensures Listed(jobs, id) && Unterminated(jobs)[Index(Unterminated(jobs), id)] == jobs[Index(jobs, id)]
  {
    var job := Unterminated(jobs)[Index(Unterminated(jobs), id)];
    ClearedAre(jobs);
    assert job in Unterminated(jobs) && job in jobs;
    var j :| 0 <= j < |jobs| && jobs[j] == job;
    NumberedFinds(jobs, nextId, j);
  }

  lemma ClearedCalls(jobs: seq<Job>, nextId: JobId, q: Request, ban: Option<nat>)
    requires Numbered(jobs, nextId) && CallShuns(jobs, q, ban)
    ensures CallShuns(Unterminated(jobs), q, ban)
  {
    if ClassOf(q) == Calling && Listed(Unterminated(jobs), q.id) { ClearedFinds(jobs, nextId, q.id); }
  }

  lemma ClearAvoids(s: State, ban: Option<nat>)
    ensures Avoids(s, s.(jobs := Unterminated(s.jobs)), ban)
  {
    if Shuns(s, ban) {
      var t := s.(jobs := Unterminated(s.jobs));
      forall q | q in t.out ensures CallShuns(t.jobs, q, ban) { ClearedCalls(s.jobs, s.nextId, q, ban); }
      ClearedAre(s.jobs);
      ClearedAreNumbered(s.jobs, s.nextId);
      assert forall k | 0 <= k < |t.jobs| :: t.jobs[k] in t.jobs;
    }
  }

  lemma AnswerAvoids(s: State, q: Request, r: Reply, ban: Option<nat>)
    requires Sound(s) && Shuns(s, ban) && q in s.out
    ensures Avoids(s, OnAnswer(Answered(s, q), q, r), ban)
  {
    var t := Answered(s, q);
    AnsweredAvoids(s, q, ban);
    match q {
      case List(dir) =>
        OnlyListing(s, dir);
        ListedAvoids(t, dir, r.entries, r.endpointGone, ban);
      case QuerySpace(fs, path, left) => SpaceAvoids(t, fs, path, left, r.ok, r.unsupported, ban);
      case SpacePrompt(volume) => DeclinedAvoids(t, volume, r.proceed, ban);
      case MakeDir(_) => PumpAvoids(t, ban);
      case _ => JobAnswerAvoids(t, q, r, ban);
    }
    AvoidsComposes(s, t, OnAnswer(t, q, r), ban);
  }

  /** Only one listing is ever outstanding, and only while a walk runs. */
  lemma OnlyListing(s: State, dir: PendingDir)
    requires Sound(s) && List(dir) in s.out
    ensures s.enumerating && NoListing(Answered(s, List(dir)))
  {
    AnsweringOnly(s.out, List(dir));
    assert ClassOf(List(dir)) == Listing;
    forall d ensures List(d) !in Answered(s, List(dir)).out { assert ClassOf(List(d)) == Listing; }
  }

  lemma NoWalkNoListing(s: State)
    requires Sound(s) && !s.enumerating
    ensures NoListing(s)
  {
    forall d ensures List(d) !in s.out { assert ClassOf(List(d)) == Listing; }
  }

  /** What an event must not be: new work there; for a null endpoint, closing a file system some outstanding
      call still leads to. */
  ghost predicate Elsewhere(s: State, e: Event, ban: Option<nat>) {
    NewElsewhere(e, ban) && (ban.None? && e.CloseEvent? ==> SafeClose(s, e.fs))
  }

  lemma RetirementAvoids(s: State, e: Event, ban: Option<nat>)
    requires Shuns(s, ban) && Elsewhere(s, e, ban) && IsRetirement(e)
    ensures Avoids(s, OnRetirement(s, e), ban)
  {
    match e {
      case CancelEvent(id) => CancelAvoids(s, id, ban); return;
      case CancelAllEvent => CancelAllAvoids(s, ban); return;
      case CancelBatchEvent(volume) => BatchAvoids(s, volume, ban); return;
      case CloseEvent(fs) => DropsAvoid(s, Unfinishing(s.jobs, fs), fs, ban); return;
    }
  }

  lemma QueueingAvoids(s: State, e: Event, ban: Option<nat>)
    requires Sound(s) && Shuns(s, ban) && NewElsewhere(e, ban) && e.EnqueueEvent?
    ensures Avoids(s, Handle(s, e), ban)
  {
    if !s.enumerating { NoWalkNoListing(s); }
    EnqueueAvoids(s, e.source, e.item, e.path, e.destination, e.destDir, ban);
  }

  /** No event other than these makes the queue ask at the endpoint, or prepares it to. */
  lemma EventAvoids(s: State, e: Event, ban: Option<nat>)
    requires Sound(s) && Shuns(s, ban) && Possible(s, e) && Elsewhere(s, e, ban)
    ensures Shuns(Handle(s, e), ban) && Silent(s, Handle(s, e), ban)
  {
    if IsRetirement(e) { RetirementAvoids(s, e, ban); return; }
    if e.EnqueueEvent? { QueueingAvoids(s, e, ban); return; }
    if e.Answer? { AnswerAvoids(s, e.request, e.reply, ban); return; }
    SettingAvoids(s, e, ban);
  }

  lemma SettingAvoids(s: State, e: Event, ban: Option<nat>)
    requires Shuns(s, ban) && (e.PauseEvent? || e.ResumeEvent? || e.ClearFinishedEvent? || e.ConfigureEvent?)
    ensures Avoids(s, Handle(s, e), ban)
  {
    if e.ResumeEvent? { PumpAvoids(s.(paused := false), ban); }
    if e.ClearFinishedEvent? { ClearAvoids(s, ban); }
  }

  ghost predicate AllElsewhere(s: State, events: seq<Event>, ban: Option<nat>)
    requires PossibleRun(s, events)
    decreases |events|
  {
    events == [] || (Elsewhere(s, events[0], ban) && AllElsewhere(Handle(s, events[0]), events[1..], ban))
  }

  /** Nothing is ever asked at an endpoint the queue shuns, whatever is answered, cancelled or queued elsewhere. */
  lemma {:induction false} EveryRunAvoids(s: State, events: seq<Event>, ban: Option<nat>)
    requires Sound(s) && Shuns(s, ban) && PossibleRun(s, events) && AllElsewhere(s, events, ban)
    ensures Shuns(Run(s, events), ban) && Silent(s, Run(s, events), ban)
    decreases |events|
  {
    if events != [] {
      var t := Handle(s, events[0]);
      EventAvoids(s, events[0], ban);
      EventKeepsSound(s, events[0]);
      EveryRunAvoids(t, events[1..], ban);
      AvoidsComposes(s, t, Run(s, events), ban);
    }
  }

  lemma InitialShuns(config: Config, ban: Option<nat>)
    ensures Shuns(Initial(config), ban)
  {}
}
