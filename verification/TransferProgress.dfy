/** The transfer queue never wedges: while it is not paused and has anything left to do, an answer is
    outstanding that will make it move. */
module TransferProgress {
  import opened Style
  import opened TransferQueue
  import opened TransferSafety
  import opened TransferSlot
  import opened TransferDiscipline
  import opened TransferRuns
  import RemotePath

  /** Something the pump could start. */
  predicate Work(s: State) {
    FirstQueued(s.jobs) < |s.jobs| || s.dirsToCreate != []
  }

  /** Something whose answer will pump again. */
  ghost predicate Stirring(s: State) {
    s.enumerating || s.preflight == CheckingSpace || s.activeId != NO_JOB || Outstanding(s.out, Making)
  }

  ghost predicate Live(s: State) {
    Work(s) && !s.paused ==> Stirring(s)
  }

  predicate Positive(s: State) {
    s.nextId > 0 && forall i | 0 <= i < |s.jobs| :: s.jobs[i].id > 0
  }

  lemma KeptIsPositive(s: State, t: State, ids: seq<JobId>)
    requires Positive(s) && KeepsOthers(ViewOf(s), ViewOf(t), ids)
    ensures Positive(t)
  {
    forall i | 0 <= i < |t.jobs| ensures t.jobs[i].id > 0 {
      assert ViewOf(t).rows[i].id == t.jobs[i].id;
      if i < |s.jobs| { assert ViewOf(s).rows[i].id == s.jobs[i].id; }
    }
  }

  lemma GoodIsPositive(s: State)
    requires Good(ViewOf(s))
    ensures Positive(s)
  {
    forall i | 0 <= i < |s.jobs| ensures s.jobs[i].id > 0 {
      assert ViewOf(s).rows[i].id == s.jobs[i].id;
    }
  }

  lemma MakingStirs(s: State)
    requires s.dirsToCreate != [] && !s.enumerating && !Unweighed(s.jobs)
    ensures Stirring(CreateNextDirectory(s))
  {
    assert MakeDir(s.dirsToCreate[0]) in CreateNextDirectory(s).out;
  }

  lemma PreflightKeepsPositive(s: State)
    requires Positive(s)
    ensures Positive(BeginPreflight(s).0)
  {
    PreflightLeads(s);
    KeptIsPositive(s, BeginPreflight(s).0, []);
  }

  lemma PreflightChecks(s: State)
    ensures BeginPreflight(s).0.preflight == CheckingSpace
  {}

  /** Whatever state it is called in, the pump leaves nothing it could start unwatched. */
  lemma {:induction false} PumpIsLive(s: State)
    requires Positive(s)
    ensures Live(Pump(s))
    decreases QueuedCount(s.jobs), UnweighedCount(s.jobs), if s.preflight == Cleared then 0 else 1
  {
    if !s.enumerating {
      var i := FirstQueued(s.jobs);
      if i == |s.jobs| {
        NoneQueuedNoneUnweighed(s.jobs);
        if s.dirsToCreate != [] { MakingStirs(s); }
      } else if s.preflight != Cleared || Unweighed(s.jobs) {
        if s.preflight != CheckingSpace {
          BeginPreflightDecreases(s);
          PreflightKeepsPositive(s);
          PreflightChecks(s);
          var (next, over) := BeginPreflight(s);
          if over { PumpIsLive(next.(preflight := Cleared)); }
        }
      } else if !s.paused && s.activeId == NO_JOB {
        if s.dirsToCreate != [] { MakingStirs(s); } else { PumpBeginIsLive(s, i); }
      }
    }
  }

  lemma {:induction false} PumpBeginIsLive(s: State, i: nat)
    requires Positive(s) && !s.enumerating && s.preflight == Cleared && !Unweighed(s.jobs)
    requires i == FirstQueued(s.jobs) < |s.jobs| && !s.paused && s.activeId == NO_JOB && s.dirsToCreate == []
    ensures Live(Pump(s))
    decreases QueuedCount(s.jobs), UnweighedCount(s.jobs), 0, 0
  {
    var job := s.jobs[i];
    if job.source.fs.None? || job.destination.fs.None? {
      CountsUpdate(s.jobs, i, job.(state := Failed));
      PumpIsLive(Retired(s.(activeId := job.id), i, Failed));
    }
  }

  lemma FinishIsLive(s: State, id: JobId, outcome: JobState)
    requires Positive(s)
    ensures Live(FinishJob(s, id, outcome)) && Positive(FinishJob(s, id, outcome))
  {
    var i := Index(s.jobs, id);
    PumpIsLive(if i < |s.jobs| then Retired(s, i, outcome)
               else SlotFreed(s, id));
    FinishKeepsOthers(s, id, outcome);
    KeptIsPositive(s, FinishJob(s, id, outcome), [id]);
  }

  // -------------------------------------------------------------- answers to calls

  lemma StartIsLive(s: State, id: JobId)
    requires Positive(s) && s.activeId != NO_JOB && Index(s.jobs, id) < |s.jobs|
    ensures Live(StartTransfer(s, id))
  {
    var i := Index(s.jobs, id);
    var job := s.jobs[i].(state := Active);
    if job.kind == Copy && !job.destination.IsLocalDisk() && !job.source.IsLocalDisk() && !s.config.relayRoot {
      FinishIsLive(WithJob(s, i, job), id, Failed);
      assert StartTransfer(s, id) == FinishJob(WithJob(s, i, job), id, Failed);
    }
  }

  lemma FreeNameIsLive(s: State, id: JobId, attempt: nat)
    requires Positive(s) && s.activeId != NO_JOB && Index(s.jobs, id) < |s.jobs|
    ensures Live(ResolveFreeName(s, id, attempt))
  {
    FinishIsLive(s, id, Failed);
  }

  lemma ResolveIsLive(s: State, id: JobId, resolution: Resolution)
    requires Positive(s) && s.activeId != NO_JOB && Index(s.jobs, id) < |s.jobs|
    ensures Live(Resolve(s, id, resolution))
  {
    if resolution == Overwrite { StartIsLive(s, id); }
    else if resolution == Skip { FinishIsLive(s, id, Skipped); }
    else { FreeNameIsLive(s, id, 1); }
  }

  lemma ConflictIsLive(s: State, id: JobId, found: bool)
    requires ReadyFor(s, id) && s.jobs[Index(s.jobs, id)].state == Checking
    ensures Live(OnConflictKnown(s, id, found))
  {
    PositiveReady(s, id);
    var i := Index(s.jobs, id);
    if !found { StartIsLive(s, id); }
    else {
      var job := s.jobs[i].(destExisted := true);
      var t := WithJob(s, i, job);
      SameRow(s, id, job);
      if t.config.policy != Ask { ResolveIsLive(t, id, t.config.policy); }
      else if !t.config.hasPrompt { FinishIsLive(t, id, Skipped); }
    }
  }

  lemma PositiveReady(s: State, id: JobId)
    requires ReadyFor(s, id)
    ensures Positive(s) && s.activeId != NO_JOB && Index(s.jobs, id) < |s.jobs|
  {
    forall i | 0 <= i < |s.jobs| ensures s.jobs[i].id > 0 {
      assert ViewOf(s).rows[i].id == s.jobs[i].id;
    }
  }

  lemma FreeNameAnswerIsLive(s: State, id: JobId, candidate: string, attempt: nat, found: bool)
    requires ReadyFor(s, id)
    ensures Live(OnFreeNameKnown(s, id, candidate, attempt, found))
  {
    PositiveReady(s, id);
    var i := Index(s.jobs, id);
    if found { FreeNameIsLive(s, id, attempt + 1); }
    else {
      var job := s.jobs[i].(destPath := candidate, destExisted := false);
      SameRow(s, id, job);
      StartIsLive(WithJob(s, i, job), id);
    }
  }

  lemma LegIsLive(s: State, id: JobId, firstLeg: bool, ok: bool, cancelled: bool)
    requires ReadyFor(s, id)
    ensures Live(OnLegDone(s, id, firstLeg, ok, cancelled))
  {
    PositiveReady(s, id);
    if !ok { FinishIsLive(s, id, if cancelled then Cancelled else Failed); }
    else if !firstLeg { FinishIsLive(s, id, Completed); }
  }

  lemma CallAnswerIsLive(s: State, q: Request, r: Reply)
    requires ClassOf(q) == Calling && ReadyFor(s, q.id) && Fits(q, s.jobs[Index(s.jobs, q.id)].state)
    ensures Live(OnAnswer(s, q, r))
  {
    PositiveReady(s, q.id);
    match q
    case Stat(id) => ConflictIsLive(s, id, r.found);
    case StatFree(id, candidate, attempt) => FreeNameAnswerIsLive(s, id, candidate, attempt, r.found);
    case Transfer(id, firstLeg) => LegIsLive(s, id, firstLeg, r.ok, r.cancelled);
    case ReadLink(id, mustUnlink) => if !r.ok { FinishIsLive(s, id, Failed); }
    case Unlink(id) => if !r.ok { FinishIsLive(s, id, Failed); }
    case MakeLink(id) => FinishIsLive(s, id, if r.ok then Completed else Failed);
  }

  lemma PromptAnswerIsLive(s: State, id: JobId, r: Reply)
    requires Good(ViewOf(s)) && Live(s) && Prompt(id) in s.out
    ensures Live(OnPromptAnswered(Answered(s, Prompt(id)), id, r.resolution, r.applyToAll))
  {
    var t := Answered(s, Prompt(id));
    PromptTaken(s, id);
    var i := Index(s.jobs, id);
    if i < |s.jobs| && s.jobs[i].state == AwaitingResolution {
      PositiveReady(t, id);
      ResolveIsLive(if r.applyToAll then t.(config := t.config.(policy := r.resolution)) else t, id, r.resolution);
    } else {
      AnsweringOther(s.out, Prompt(id), Making);
    }
  }

  // ------------------------------------------------------------ the rest of a step

  lemma WalkIsLive(s: State)
    requires Positive(s) && s.enumerating
    ensures Live(StepEnumeration(s))
  {
    PumpIsLive(s.(enumerating := false, enumCancelled := false));
  }

  lemma AbsorbKeepsPositive(s: State, dir: PendingDir, entries: seq<Info>)
    requires Positive(s)
    ensures Positive(AbsorbEntries(s, dir, entries))
  {
    var t := AbsorbEntries(s, dir, entries);
    AbsorbLeads(s, dir, entries);
    assert KeepsOthers(ViewOf(s), ViewOf(t), []);
    KeptIsPositive(s, t, []);
  }

  lemma ListedIsLive(s: State, dir: PendingDir, entries: seq<Info>, gone: bool)
    requires Positive(s) && s.enumerating
    ensures Live(OnListed(s, dir, entries, gone))
  {
    var t := if gone then s.(toVisit := []) else s;
    if s.enumCancelled { WalkIsLive(s); }
    else {
      AbsorbKeepsPositive(t, dir, entries);
      AbsorbingOnlyAdds(t, dir, entries);
      WalkIsLive(AbsorbListing(s, dir, entries, gone));
    }
  }

  lemma SettledIsLive(r: (State, bool))
    requires Positive(r.0) && (!r.1 ==> r.0.preflight == CheckingSpace)
    ensures Live(Settled(r))
  {
    if r.1 { PumpIsLive(r.0.(preflight := Cleared)); }
  }

  lemma SpaceIsLive(s: State, fs: nat, path: string, left: nat, ok: bool, unsupported: bool)
    requires Positive(s) && s.preflight == CheckingSpace
    ensures Live(OnSpaceAnswered(s, fs, path, left, ok, unsupported))
  {
    var parent := RemotePath.Parent(path);
    var r := SpaceKnown(s, fs, path, parent, left, ok, unsupported);
    SpaceKnownLeads(s, fs, path, parent, left, ok, unsupported);
    KeptIsPositive(s, r.0, []);
    SpaceKnownChecks(s, fs, path, parent, left, ok, unsupported);
    SettledIsLive(r);
  }

  lemma SpaceKnownChecks(s: State, fs: nat, path: string, parent: string, left: nat, ok: bool, unsupported: bool)
    ensures SpaceKnown(s, fs, path, parent, left, ok, unsupported).0.preflight == s.preflight
  {}

  lemma {:induction false} CancelsAreLive(s: State, ids: seq<JobId>)
    requires Positive(s)
    ensures Positive(CancelJobs(s, ids)) && (Live(s) ==> Live(CancelJobs(s, ids)))
    decreases |ids|
  {
    if ids != [] {
      FinishIsLive(s, ids[0], Cancelled);
      CancelsAreLive(CancelJob(s, ids[0]), ids[1..]);
    }
  }

  lemma {:induction false} DropsAreLive(s: State, ids: seq<JobId>, fs: nat)
    requires Positive(s)
    ensures Live(s) ==> Live(DropJobs(s, ids, fs))
    decreases |ids|
  {
    if ids != [] {
      CutIsInvisible(s, ids[0], fs);
      assert KeepsOthers(ViewOf(s), ViewOf(Cut(s, ids[0], fs)), []);
      KeptIsPositive(s, Cut(s, ids[0], fs), []);
      FinishIsLive(Cut(s, ids[0], fs), ids[0], Cancelled);
      DropsAreLive(DropJob(s, ids[0], fs), ids[1..], fs);
    }
  }

  lemma EnqueueIsLive(s: State, source: Endpoint, item: Info, path: string, destination: Endpoint, destDir: string)
    requires Positive(s) && Live(s)
    ensures Live(EnqueueItem(s, source, item, path, destination, destDir))
  {
    var dest := RemotePath.Join(destDir, item.name);
    if item.isSymlink {
      AddIsLive(s, NewJob(LinkJob, source, path, destination, dest, if s.config.skipLinks then Skipped else Queued));
    } else if item.isDir {
      var t := s.(toVisit := s.toVisit + [PendingDir(source, destination, path, dest, 0)],
                  dirsToCreate := s.dirsToCreate + [DirCreate(destination, dest)]);
      WalkIsLive(t.(enumerating := true));
    } else {
      AddIsLive(s, NewJob(Copy, source, path, destination, dest, Queued));
    }
  }

  lemma AddIsLive(s: State, job: Job)
    requires Positive(s)
    ensures Live(AddJob(s, job))
  {
    PumpIsLive(WithNewJob(s, job));
  }

  lemma {:induction false} ClearingLeavesQueued(jobs: seq<Job>)
    ensures FirstQueued(Unterminated(jobs)) < |Unterminated(jobs)| ==> FirstQueued(jobs) < |jobs|
    decreases |jobs|
  {
    if jobs != [] {
      ClearingLeavesQueued(jobs[1..]);
      var rest := Unterminated(jobs[1..]);
      if !jobs[0].state.Terminal() { assert ([jobs[0]] + rest)[1..] == rest; }
    }
  }

  lemma AnswerIsLive(s: State, q: Request, r: Reply)
    requires Good(ViewOf(s)) && Sound(s) && Live(s) && q in s.out
    ensures Live(OnAnswer(Answered(s, q), q, r))
  {
    var t := Answered(s, q);
    GoodIsPositive(s);
    match ClassOf(q) {
      case Calling =>
        CallAnswered(ViewOf(s), q);
        PosIsIndex(s.jobs, s.activeId);
        CallAnswerIsLive(t, q, r);
      case Prompting => PromptAnswerIsLive(s, q.id, r);
      case Making => PumpIsLive(t);
      case Listing => ListedIsLive(t, q.dir, r.entries, r.endpointGone);
      case Space => SpaceAnswerIsLive(t, q, r);
    }
  }

  lemma SpaceAnswerIsLive(t: State, q: Request, r: Reply)
    requires Positive(t) && t.preflight == CheckingSpace && ClassOf(q) == Space
    ensures Live(OnAnswer(t, q, r))
  {
    if q.QuerySpace? { SpaceIsLive(t, q.fs, q.path, q.ancestorsLeft, r.ok, r.unsupported); }
    else {
      CancelsAreLive(DropPendingFor(t, q.volume), Unfinished(t.jobs, Some(q.volume)));
      PumpIsLive((if r.proceed then t else CancelBatchFor(t, q.volume)).(preflight := Cleared));
    }
  }

  /** Every event, disciplined or not, leaves a live queue live. */
  lemma EventKeepsLive(s: State, e: Event)
    requires Good(ViewOf(s)) && Sound(s) && Live(s) && Possible(s, e)
    ensures Live(Handle(s, e))
  {
    GoodIsPositive(s);
    match e
    case Answer(q, r) => AnswerIsLive(s, q, r);
    case EnqueueEvent(source, item, path, destination, destDir) => EnqueueIsLive(s, source, item, path, destination, destDir);
    case ResumeEvent => PumpIsLive(s.(paused := false));
    case ClearFinishedEvent => ClearingLeavesQueued(s.jobs);
    case CancelEvent(id) => CancellingIsLive(s, id);
    case CancelAllEvent => CancelsAreLive(DropPending(s), Unfinished(s.jobs, None));
    case CancelBatchEvent(volume) => BatchIsLive(s, volume);
    case CloseEvent(fs) => DropsAreLive(s, Unfinishing(s.jobs, fs), fs);
    case _ =>
  }

  lemma CancellingIsLive(s: State, id: JobId)
    requires Positive(s) && Live(s)
    ensures Live(CancelJob(s, id))
  {
    FinishIsLive(s, id, Cancelled);
  }

  lemma BatchIsLive(s: State, volume: Option<nat>)
    requires Positive(s) && Live(s)
    ensures Live(CancelBatchFor(s, volume))
  {
    CancelsAreLive(DropPendingFor(s, volume), Unfinished(s.jobs, Some(volume)));
  }

  // -------------------------------------------------------------------- main result

  /** Anything the queue has not finished with. */
  predicate LeftToDo(s: State) {
    s.enumerating || s.preflight == CheckingSpace || s.dirsToCreate != [] || exists i :: 0 <= i < |s.jobs| && !s.jobs[i].state.Terminal()
  }

  /** An outstanding request the queue is waiting for: its walk's, its check's, a directory's, or the
      slot's job's. The prompt of a job cancelled meanwhile is not one. */
  ghost predicate AwaitsAnswer(s: State) {
    exists r :: r in s.out && (ClassOf(r) in {Listing, Space, Making} || r.id == s.activeId)
  }

  /** What soundness, a good slot and liveness say together. */
  lemma SomethingIsAwaited(s: State)
    requires Good(ViewOf(s)) && Sound(s) && Live(s) && !s.paused && LeftToDo(s)
    ensures AwaitsAnswer(s)
  {
    assert forall i | 0 <= i < |s.jobs| :: ViewOf(s).rows[i] == Row(s.jobs[i].id, s.jobs[i].state);
  }

  /** No disciplined run from an empty queue ever wedges it. */
  lemma {:induction false} NeverWedges(s: State, events: seq<Event>)
    requires Good(ViewOf(s)) && Sound(s) && Live(s) && PossibleRun(s, events) && DisciplinedRun(s, events)
    ensures var t := Run(s, events);
            && Good(ViewOf(t)) && Sound(t) && Live(t)
            && (!t.paused && LeftToDo(t) ==> AwaitsAnswer(t))
    decreases |events|
  {
    if events == [] {
      if !s.paused && LeftToDo(s) { SomethingIsAwaited(s); }
    } else {
      EventExactly(s, events[0]);
      EventKeepsSound(s, events[0]);
      EventKeepsLive(s, events[0]);
      NeverWedges(Handle(s, events[0]), events[1..]);
    }
  }

  lemma InitialIsLive(config: Config)
    ensures Live(Initial(config))
  {}
}
