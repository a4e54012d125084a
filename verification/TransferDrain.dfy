/** The transfer queue runs dry: while nothing new is put into it, every answer brings it nearer to the end,
    whatever the answer says and whatever state it meets. */
module TransferDrain {
  import opened Style
  import opened TransferQueue
  import opened TransferSafety
  import opened TransferSlot
  import opened TransferDiscipline
  import opened TransferRuns
  import opened TransferProgress
  import RemotePath

  // ------------------------------------------------------------------- the measure

  /** How much may still follow from the answer to a request. */
  function Weight(q: Request): nat {
    match q
    case List(_) => 1
    case MakeDir(_) => 1
    case QuerySpace(_, _, left) => 1 + left
    case SpacePrompt(_) => 10
    case Stat(_) => 106
    case Prompt(_) => 105
    case StatFree(_, _, attempt) => 4 + if attempt <= MAX_RENAME_ATTEMPTS then MAX_RENAME_ATTEMPTS + 1 - attempt else 0
    case ReadLink(_, _) => 3
    case Unlink(_) => 2
    case Transfer(_, firstLeg) => if firstLeg then 2 else 1
    case MakeLink(_) => 1
  }

  ghost function Pick(out: multiset<Request>): (q: Request)
    requires out != multiset{}
    ensures q in out
  {
    var q :| q in out;
    q
  }

  ghost function Total(out: multiset<Request>): nat
    decreases |out|
  {
    if out == multiset{} then 0 else var q := Pick(out); Weight(q) + Total(out - multiset{q})
  }

  lemma {:induction false} TotalTaken(out: multiset<Request>, q: Request)
    requires q in out
    ensures Total(out) == Weight(q) + Total(out - multiset{q})
    decreases |out|
  {
    var p := Pick(out);
    if p != q {
      TotalTaken(out - multiset{p}, q);
      TotalTaken(out - multiset{q}, p);
      assert out - multiset{p} - multiset{q} == out - multiset{q} - multiset{p};
    }
  }

  lemma TotalGiven(out: multiset<Request>, q: Request)
    ensures Total(out + multiset{q}) == Total(out) + Weight(q)
  {
    TotalTaken(out + multiset{q}, q);
    assert out + multiset{q} - multiset{q} == out;
  }

  /** A check that may still be started asks about a volume first. */
  function MayAsk(preflight: Preflight, unweighed: nat): nat {
    if preflight != CheckingSpace && unweighed > 0 then 9 else 0
  }

  function Waiting(jobs: seq<Job>): nat {
    107 * QueuedCount(jobs) + 12 * UnweighedCount(jobs)
  }

  ghost function Measure(s: State): nat {
    Total(s.out) + Waiting(s.jobs) + 2 * |s.dirsToCreate| + 2 * |s.toVisit| + MayAsk(s.preflight, UnweighedCount(s.jobs))
  }

  lemma IssueMeasures(s: State, q: Request, weighed: bool)
    ensures Measure(Issue(s, q, weighed)) == Measure(s) + Weight(q)
  {
    TotalGiven(s.out, q);
  }

  lemma AnsweredMeasures(s: State, q: Request)
    requires q in s.out
    ensures Measure(Answered(s, q)) == Measure(s) - Weight(q)
  {
    TotalTaken(s.out, q);
  }

  lemma UnweighedIsCounted(jobs: seq<Job>)
    ensures Unweighed(jobs) <==> UnweighedCount(jobs) > 0
  {}

  /** Moving a job on, or leaving it where it is, measures no more. */
  lemma JobMeasures(s: State, i: nat, job: Job)
    requires i < |s.jobs|
    requires job.state != Queued || (s.jobs[i].state == Queued && (s.jobs[i].spaceChecked ==> job.spaceChecked))
    ensures Measure(WithJob(s, i, job)) <= Measure(s)
    ensures s.jobs[i].state == Queued && job.state != Queued ==> Measure(WithJob(s, i, job)) <= Measure(s) - 107
  {
    CountsUpdate(s.jobs, i, job);
  }

  // ------------------------------------------------------------------------ the pump

  /** The first unweighed job's volume is weighed, and that may bring a question for the user. */
  lemma WeighedMeasures(s: State, volume: Option<nat>)
    requires exists i :: 0 <= i < |s.jobs| && UnweighedJob(s.jobs[i]) && s.jobs[i].destination.fs == volume
    ensures var t := s.(jobs := MarkWeighed(s.jobs, volume));
            Measure(t.(preflight := Cleared)) <= Measure(s) - 3 && Measure(Issue(t, SpacePrompt(volume), true)) <= Measure(s) - 2
  {
    var t := s.(jobs := MarkWeighed(s.jobs, volume));
    MarkingCounts(s.jobs, volume);
    IssueMeasures(t, SpacePrompt(volume), true);
  }

  lemma VerdictMeasures(s: State)
    ensures var (next, over) := Verdict(s);
            Measure(if over then next.(preflight := Cleared) else next) <=
              Measure(s) + if over && !Unweighed(s.jobs) then 0 else -2
  {
    var first := FirstUnchecked(s.jobs);
    if first < |s.jobs| { WeighedMeasures(s, s.jobs[first].destination.fs); } else { UnweighedIsCounted(s.jobs); }
  }

  lemma PreflightMeasures(s: State)
    requires s.preflight == PendingCheck || (s.preflight == Cleared && Unweighed(s.jobs))
    ensures var (next, over) := BeginPreflight(s);
            Measure(if over then next.(preflight := Cleared) else next) <= Measure(s)
  {
    var t := s.(preflight := CheckingSpace);
    var first := FirstUnchecked(t.jobs);
    UnweighedIsCounted(s.jobs);
    if first < |t.jobs| {
      var job := t.jobs[first];
      if job.destination.fs.None? {
        CountsUpdate(t.jobs, first, job.(spaceChecked := true));
      } else {
        AskingMeasures(t, job.destination.fs.value, RemotePath.Parent(job.destPath));
      }
    }
  }

  lemma AskingMeasures(t: State, fs: nat, path: string)
    requires t.preflight == CheckingSpace && Unweighed(t.jobs)
    ensures var (next, over) := QuerySpaceFrom(t, fs, path, MAX_SPACE_PROBE_ANCESTORS);
            Measure(if over then next.(preflight := Cleared) else next) <= Measure(t) + 9
  {
    if path == "" { VerdictMeasures(t); } else { IssueMeasures(t, QuerySpace(fs, path, MAX_SPACE_PROBE_ANCESTORS), true); }
  }

  lemma MakingMeasures(s: State)
    requires s.dirsToCreate != [] && !s.enumerating && !Unweighed(s.jobs)
    ensures Measure(CreateNextDirectory(s)) <= Measure(s)
  {
    IssueMeasures(s.(dirsToCreate := s.dirsToCreate[1..]), MakeDir(s.dirsToCreate[0]), true);
  }

  lemma {:induction false} PumpMeasures(s: State)
    ensures Measure(Pump(s)) <= Measure(s)
    decreases QueuedCount(s.jobs), UnweighedCount(s.jobs), if s.preflight == Cleared then 0 else 1
  {
    if !s.enumerating {
      var i := FirstQueued(s.jobs);
      if i == |s.jobs| {
        NoneQueuedNoneUnweighed(s.jobs);
        if s.dirsToCreate != [] { MakingMeasures(s); }
      } else if s.preflight != Cleared || Unweighed(s.jobs) {
        if s.preflight != CheckingSpace {
          BeginPreflightDecreases(s);
          PreflightMeasures(s);
          if BeginPreflight(s).1 { PumpMeasures(BeginPreflight(s).0.(preflight := Cleared)); }
        }
      } else if !s.paused && s.activeId == NO_JOB {
        if s.dirsToCreate != [] { MakingMeasures(s); } else { BeginMeasures(s, i); }
      }
    }
  }

  lemma {:induction false} BeginMeasures(s: State, i: nat)
    requires !s.enumerating && s.preflight == Cleared && !Unweighed(s.jobs)
    requires i == FirstQueued(s.jobs) < |s.jobs| && !s.paused && s.activeId == NO_JOB && s.dirsToCreate == []
    ensures Measure(Pump(s)) <= Measure(s)
    decreases QueuedCount(s.jobs), UnweighedCount(s.jobs), 0, 0
  {
    BegunMeasures(s, i);
    if s.jobs[i].source.fs.None? || s.jobs[i].destination.fs.None? {
      CountsUpdate(s.jobs, i, s.jobs[i].(state := Failed));
      PumpMeasures(Retired(s.(activeId := s.jobs[i].id), i, Failed));
    }
  }

  lemma BegunMeasures(s: State, i: nat)
    requires i < |s.jobs| && s.jobs[i].state == Queued
    ensures var t, job := s.(activeId := s.jobs[i].id), s.jobs[i];
            && Measure(Retired(t, i, Failed)) <= Measure(s)
            && Measure(Issue(WithJob(t, i, job.(state := Checking)), Stat(job.id), job.spaceChecked)) <= Measure(s)
  {
    var t, job := s.(activeId := s.jobs[i].id), s.jobs[i];
    JobMeasures(t, i, job.(state := Failed));
    JobMeasures(t, i, job.(state := Checking));
    IssueMeasures(WithJob(t, i, job.(state := Checking)), Stat(job.id), job.spaceChecked);
  }

  // --------------------------------------------------------------------- the answers

  lemma RetiredMeasures(s: State, id: JobId, outcome: JobState)
    requires outcome.Terminal()
    ensures Measure(FinishJob(s, id, outcome)) <= Measure(s)
  {
    var i := Index(s.jobs, id);
    if i < |s.jobs| {
      JobMeasures(s, i, s.jobs[i].(state := outcome));
      PumpMeasures(Retired(s, i, outcome));
    } else {
      PumpMeasures(SlotFreed(s, id));
    }
  }

  lemma AbandonMeasures(s: State)
    ensures Measure(Abandon(s)) <= Measure(s)
  {
    PumpMeasures(s.(activeId := NO_JOB));
  }

  lemma LaunchMeasures(s: State, id: JobId, job: Job)
    ensures Measure(Launched(s, id, job)) <= Measure(s) + 3
  {
    if job.kind == LinkJob { IssueMeasures(s, ReadLink(id, job.destExisted), true); }
    else if job.destination.IsLocalDisk() { IssueMeasures(s.(activeOwner := job.source.fs), Transfer(id, false), true); }
    else if job.source.IsLocalDisk() { IssueMeasures(s.(activeOwner := job.destination.fs), Transfer(id, false), true); }
    else if !s.config.relayRoot { RetiredMeasures(s, id, Failed); }
    else { IssueMeasures(s.(activeOwner := job.source.fs), Transfer(id, true), true); }
  }

  lemma StartMeasures(s: State, id: JobId)
    ensures Measure(StartTransfer(s, id)) <= Measure(s) + 3
  {
    var i := Index(s.jobs, id);
    if i == |s.jobs| { AbandonMeasures(s); return; }
    var job := s.jobs[i].(state := Active);
    JobMeasures(s, i, job);
    LaunchMeasures(WithJob(s, i, job), id, job);
  }

  /** Asking whether the next candidate is free, as far as the measure goes. */
  lemma AskingNameMeasures(s: State, id: JobId, attempt: nat, candidate: string)
    requires attempt <= MAX_RENAME_ATTEMPTS
    ensures Measure(Issue(s, StatFree(id, candidate, attempt), true)) == Measure(s) + 4 + MAX_RENAME_ATTEMPTS + 1 - attempt
  {
    IssueMeasures(s, StatFree(id, candidate, attempt), true);
  }

  lemma FreeNameMeasures(s: State, id: JobId, attempt: nat)
    ensures Measure(ResolveFreeName(s, id, attempt)) <=
              Measure(s) + if attempt <= MAX_RENAME_ATTEMPTS then 4 + MAX_RENAME_ATTEMPTS + 1 - attempt else 0
  {
    var i := Index(s.jobs, id);
    if i == |s.jobs| {
      AbandonMeasures(s);
      assert ResolveFreeName(s, id, attempt) == Abandon(s);
      return;
    }
    if attempt > MAX_RENAME_ATTEMPTS {
      RetiredMeasures(s, id, Failed);
      assert ResolveFreeName(s, id, attempt) == FinishJob(s, id, Failed);
      return;
    }
    forall candidate: string { AskingNameMeasures(s, id, attempt, candidate); }
  }

  lemma ResolveMeasures(s: State, id: JobId, resolution: Resolution)
    ensures Measure(Resolve(s, id, resolution)) <= Measure(s) + 104
  {
    if resolution == Overwrite { StartMeasures(s, id); }
    else if resolution == Skip { RetiredMeasures(s, id, Skipped); }
    else { FreeNameMeasures(s, id, 1); }
  }

  lemma ConflictMeasures(s: State, id: JobId, found: bool)
    ensures Measure(OnConflictKnown(s, id, found)) <= Measure(s) + 105
  {
    var i := Index(s.jobs, id);
    if i == |s.jobs| || s.jobs[i].state != Checking { AbandonMeasures(s); return; }
    if !found { StartMeasures(s, id); return; }
    var t := WithJob(s, i, s.jobs[i].(destExisted := true));
    JobMeasures(s, i, s.jobs[i].(destExisted := true));
    if t.config.policy != Ask { ResolveMeasures(t, id, t.config.policy); return; }
    if !t.config.hasPrompt { RetiredMeasures(t, id, Skipped); return; }
    var job := t.jobs[i].(state := AwaitingResolution);
    JobMeasures(t, i, job);
    IssueMeasures(WithJob(t, i, job), Prompt(id), true);
  }

  lemma FreeNameAnswerMeasures(s: State, id: JobId, candidate: string, attempt: nat, found: bool)
    ensures Measure(OnFreeNameKnown(s, id, candidate, attempt, found)) < Measure(s) + Weight(StatFree(id, candidate, attempt))
  {
    if found { FreeNameMeasures(s, id, attempt + 1); return; }
    FreeNameStarts(s, id, candidate, attempt);
  }

  lemma FreeNameStarts(s: State, id: JobId, candidate: string, attempt: nat)
    ensures Measure(OnFreeNameKnown(s, id, candidate, attempt, false)) <= Measure(s) + 3
  {
    var i := Index(s.jobs, id);
    if i == |s.jobs| { StartMeasures(s, id); return; }
    var job := s.jobs[i].(destPath := candidate, destExisted := false);
    JobMeasures(s, i, job);
    StartMeasures(WithJob(s, i, job), id);
  }

  lemma LegEndMeasures(s: State, id: JobId, firstLeg: bool, ok: bool, cancelled: bool)
    requires Index(s.jobs, id) < |s.jobs| && (!ok || !firstLeg)
    ensures Measure(OnLegDone(s, id, firstLeg, ok, cancelled)) <= Measure(s)
  {
    RetiredMeasures(s, id, if ok then Completed else if cancelled then Cancelled else Failed);
  }

  lemma LegOnMeasures(s: State, id: JobId, cancelled: bool)
    requires Index(s.jobs, id) < |s.jobs|
    ensures Measure(OnLegDone(s, id, true, true, cancelled)) <= Measure(s) + 1
  {
    IssueMeasures(s.(activeOwner := s.jobs[Index(s.jobs, id)].destination.fs), Transfer(id, false), true);
  }

  lemma LegLostMeasures(s: State, id: JobId, firstLeg: bool, ok: bool, cancelled: bool)
    requires Index(s.jobs, id) == |s.jobs|
    ensures Measure(OnLegDone(s, id, firstLeg, ok, cancelled)) <= Measure(s)
  {
    AbandonMeasures(s);
  }

  lemma LegMeasures(s: State, id: JobId, firstLeg: bool, ok: bool, cancelled: bool)
    ensures Measure(OnLegDone(s, id, firstLeg, ok, cancelled)) <= Measure(s) + if firstLeg then 1 else 0
  {
    if Index(s.jobs, id) == |s.jobs| { LegLostMeasures(s, id, firstLeg, ok, cancelled); return; }
    if !ok || !firstLeg { LegEndMeasures(s, id, firstLeg, ok, cancelled); return; }
    LegOnMeasures(s, id, cancelled);
  }

  lemma WriteMeasures(s: State, id: JobId)
    ensures Measure(WriteLink(s, id)) <= Measure(s) + 1
  {
    if Index(s.jobs, id) == |s.jobs| { AbandonMeasures(s); } else { IssueMeasures(s, MakeLink(id), true); }
  }

  lemma UnlinkedMeasures(s: State, id: JobId, ok: bool)
    ensures Measure(OnUnlinked(s, id, ok)) <= Measure(s) + 1
  {
    if ok { WriteMeasures(s, id); } else { RetiredMeasures(s, id, Failed); }
  }

  lemma LinkMeasures(s: State, id: JobId, mustUnlink: bool, ok: bool)
    ensures Measure(OnLinkRead(s, id, mustUnlink, ok)) <= Measure(s) + 2
  {
    if !ok { RetiredMeasures(s, id, Failed); return; }
    if Index(s.jobs, id) == |s.jobs| { AbandonMeasures(s); return; }
    if mustUnlink { IssueMeasures(s, Unlink(id), true); } else { WriteMeasures(s, id); }
  }

  lemma {:induction false} CancelsMeasure(s: State, ids: seq<JobId>)
    ensures Measure(CancelJobs(s, ids)) <= Measure(s)
    decreases |ids|
  {
    if ids != [] {
      RetiredMeasures(s, ids[0], Cancelled);
      CancelsMeasure(CancelJob(s, ids[0]), ids[1..]);
    }
  }

  lemma {:induction false} FewerElsewhere(toVisit: seq<PendingDir>, dirs: seq<DirCreate>, volume: Option<nat>)
    ensures |VisitsElsewhere(toVisit, volume)| <= |toVisit| && |DirsElsewhere(dirs, volume)| <= |dirs|
    decreases |toVisit| + |dirs|
  {
    if toVisit != [] { FewerElsewhere(toVisit[1..], [], volume); }
    if dirs != [] { FewerElsewhere([], dirs[1..], volume); }
  }

  lemma SpacePromptMeasures(s: State, volume: Option<nat>, proceed: bool)
    ensures Measure(OnSpacePromptAnswered(s, volume, proceed)) <= Measure(s) + 9
  {
    var t := if proceed then s else CancelBatchFor(s, volume);
    if !proceed {
      FewerElsewhere(s.toVisit, s.dirsToCreate, volume);
      CancelsMeasure(DropPendingFor(s, volume), Unfinished(s.jobs, Some(volume)));
    }
    PumpMeasures(t.(preflight := Cleared));
  }

  lemma SpaceMeasures(s: State, fs: nat, path: string, left: nat, ok: bool, unsupported: bool)
    ensures Measure(OnSpaceAnswered(s, fs, path, left, ok, unsupported)) <= Measure(s) + left
  {
    var parent := RemotePath.Parent(path);
    UnweighedIsCounted(s.jobs);
    if ok || unsupported || left == 0 || parent == "" || parent == path {
      VerdictMeasures(s);
      if Verdict(s).1 { PumpMeasures(Verdict(s).0.(preflight := Cleared)); }
    } else {
      IssueMeasures(s, QuerySpace(fs, parent, left - 1), true);
    }
  }

  lemma WalkMeasures(s: State)
    ensures Measure(StepEnumeration(s)) <= Measure(s)
  {
    if s.toVisit == [] { PumpMeasures(s.(enumerating := false, enumCancelled := false)); }
    else { IssueMeasures(s.(toVisit := s.toVisit[1..]), List(s.toVisit[0]), true); }
  }

  /** An answer that puts nothing new into the queue. */
  predicate Barren(e: Event) {
    e.Answer? && (e.request.List? ==> e.reply.entries == [])
  }

  lemma JobAnswerMeasures(t: State, q: Request, r: Reply)
    requires ClassOf(q) == Calling || ClassOf(q) == Prompting
    ensures Measure(OnAnswer(t, q, r)) < Measure(t) + Weight(q)
  {
    match q {
      case Stat(id) => ConflictMeasures(t, id, r.found); return;
      case StatFree(id, candidate, attempt) => FreeNameAnswerMeasures(t, id, candidate, attempt, r.found); return;
      case Prompt(id) => PromptMeasures(t, id, r); return;
      case Transfer(id, firstLeg) => LegMeasures(t, id, firstLeg, r.ok, r.cancelled); return;
      case ReadLink(id, mustUnlink) => LinkMeasures(t, id, mustUnlink, r.ok); return;
      case Unlink(id) => UnlinkedMeasures(t, id, r.ok); return;
      case MakeLink(id) => RetiredMeasures(t, id, if r.ok then Completed else Failed); return;
    }
  }

  lemma PromptMeasures(t: State, id: JobId, r: Reply)
    ensures Measure(OnPromptAnswered(t, id, r.resolution, r.applyToAll)) <= Measure(t) + 104
  {
    ResolveMeasures(if r.applyToAll then t.(config := t.config.(policy := r.resolution)) else t, id, r.resolution);
  }

  lemma ListedMeasures(t: State, dir: PendingDir, gone: bool)
    ensures Measure(OnListed(t, dir, [], gone)) <= Measure(t)
  {
    WalkMeasures(if t.enumCancelled then t else AbsorbListing(t, dir, [], gone));
  }

  /** In any state whatever, an answer that brings nothing new measures less than the request did. */
  lemma AnswerMeasures(s: State, q: Request, r: Reply)
    requires q in s.out && Barren(Answer(q, r))
    ensures Measure(Handle(s, Answer(q, r))) < Measure(s)
  {
    var t := Answered(s, q);
    AnsweredMeasures(s, q);
    match q {
      case List(dir) => ListedMeasures(t, dir, r.endpointGone); return;
      case QuerySpace(fs, path, left) => SpaceMeasures(t, fs, path, left, r.ok, r.unsupported); return;
      case SpacePrompt(volume) => SpacePromptMeasures(t, volume, r.proceed); return;
      case MakeDir(_) => PumpMeasures(t); return;
      case _ => JobAnswerMeasures(t, q, r); return;
    }
  }

  /** Only so many answers can follow one another while nothing new is put in. */
  lemma {:induction false} AnswersRunOut(s: State, events: seq<Event>)
    requires PossibleRun(s, events) && forall e | e in events :: Barren(e)
    ensures |events| + Measure(Run(s, events)) <= Measure(s)
    decreases |events|
  {
    if events != [] {
      assert Barren(events[0]);
      AnswerMeasures(s, events[0].request, events[0].reply);
      AnswersRunOut(Handle(s, events[0]), events[1..]);
    }
  }

  lemma OutstandingMeasures(s: State)
    ensures s.out != multiset{} ==> Measure(s) > 0
  {
    if s.out != multiset{} {
      var q :| q in s.out;
      TotalTaken(s.out, q);
    }
  }

  /** So the queue drains: answers alone, with no row listed that would queue more, can go on only so
      long, and they can always go on while anything is left to do. What cannot go on is finished. */
  lemma QueueDrains(s: State, events: seq<Event>)
    requires Good(ViewOf(s)) && Sound(s) && Live(s)
    requires PossibleRun(s, events) && DisciplinedRun(s, events) && forall e | e in events :: Barren(e)
    ensures |events| <= Measure(s)
    ensures var t := Run(s, events);
            !t.paused && LeftToDo(t) ==> t.out != multiset{} && |events| < Measure(s)
  {
    AnswersRunOut(s, events);
    NeverWedges(s, events);
    OutstandingMeasures(Run(s, events));
  }
}
