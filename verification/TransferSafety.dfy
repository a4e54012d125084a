/** What every run of the transfer queue keeps, whatever is cancelled and whatever is answered:
    at most one listing at a time and exactly while a walk runs, at most one space question and exactly
    while the check says so, nothing written to a destination before its jobs are weighed. */
module TransferSafety {
  import opened Style
  import opened TransferQueue
  import RemotePath

  // ---------------------------------------------------- outstanding requests by class

  datatype Class = Listing | Space | Making | Calling | Prompting

  function ClassOf(r: Request): Class {
    match r
    case List(_) => Listing
    case QuerySpace(_, _, _) => Space
    case SpacePrompt(_) => Space
    case MakeDir(_) => Making
    case Prompt(_) => Prompting
    case _ => Calling
  }

  ghost predicate Outstanding(out: multiset<Request>, c: Class) {
    exists r :: r in out && ClassOf(r) == c
  }

  ghost predicate AtMostOne(out: multiset<Request>, c: Class) {
    forall r1, r2 | r1 in out && r2 in out && ClassOf(r1) == c && ClassOf(r2) == c :: r1 == r2 && out[r1] == 1
  }

  lemma IssuingOther(out: multiset<Request>, q: Request, c: Class)
    requires ClassOf(q) != c
    ensures Outstanding(out + multiset{q}, c) <==> Outstanding(out, c)
    ensures AtMostOne(out + multiset{q}, c) <==> AtMostOne(out, c)
  {
    var more := out + multiset{q};
    forall r: Request | ClassOf(r) == c ensures (r in more <==> r in out) && more[r] == out[r] {}
    if Outstanding(out, c) {
      var r :| r in out && ClassOf(r) == c;
      assert r in more;
    }
    if Outstanding(more, c) {
      var r :| r in more && ClassOf(r) == c;
      assert r in out;
    }
  }

  lemma IssuingFirst(out: multiset<Request>, q: Request)
    requires !Outstanding(out, ClassOf(q))
    ensures Outstanding(out + multiset{q}, ClassOf(q)) && AtMostOne(out + multiset{q}, ClassOf(q))
  {
    var more := out + multiset{q};
    assert q in more;
    assert q !in out;
    forall r | r in more && ClassOf(r) == ClassOf(q) ensures r == q && more[r] == 1 {}
  }

  lemma AnsweringOther(out: multiset<Request>, q: Request, c: Class)
    requires q in out && ClassOf(q) != c
    ensures Outstanding(out - multiset{q}, c) <==> Outstanding(out, c)
    ensures AtMostOne(out - multiset{q}, c) <==> AtMostOne(out, c)
  {
    IssuingOther(out - multiset{q}, q, c);
    assert out - multiset{q} + multiset{q} == out;
  }

  lemma AnsweringOnly(out: multiset<Request>, q: Request)
    requires q in out && AtMostOne(out, ClassOf(q))
    ensures !Outstanding(out - multiset{q}, ClassOf(q)) && AtMostOne(out - multiset{q}, ClassOf(q))
  {
    forall r | ClassOf(r) == ClassOf(q) ensures r !in out - multiset{q} {}
  }

  // ------------------------------------------------------------------ the invariant

  /** A directory is made only when no walk runs and every queued job is weighed; a job enters checking
      only when a verdict has weighed it. */
  predicate LogIsSound(log: seq<Issued>) {
    forall e | e in log ::
      && (e.request.MakeDir? ==> !e.enumerating && !e.unweighed)
      && (e.request.Stat? ==> e.jobWeighed)
  }

  /** The walk and the check are each waiting for exactly the one answer they need. */
  ghost predicate Watches(out: multiset<Request>, enumerating: bool, checking: bool) {
    && AtMostOne(out, Listing) && (Outstanding(out, Listing) <==> enumerating)
    && AtMostOne(out, Space) && (Outstanding(out, Space) <==> checking)
  }

  ghost predicate Sound(s: State) {
    LogIsSound(s.log) && Watches(s.out, s.enumerating, s.preflight == CheckingSpace)
  }

  /** Sound but for a space question just answered: the check is still marked as running. */
  ghost predicate SoundInVerdict(s: State) {
    s.preflight == CheckingSpace && LogIsSound(s.log) && Watches(s.out, s.enumerating, false)
  }

  lemma IssueIsLogged(s: State, q: Request, weighed: bool)
    requires LogIsSound(s.log)
    requires q.MakeDir? ==> !s.enumerating && !Unweighed(s.jobs)
    requires q.Stat? ==> weighed
    ensures LogIsSound(Issue(s, q, weighed).log)
  {}

  /** Issuing a request the walk and the check do not wait for. */
  lemma IssueKeepsWatches(out: multiset<Request>, q: Request, enumerating: bool, checking: bool)
    requires Watches(out, enumerating, checking) && ClassOf(q) != Listing && ClassOf(q) != Space
    ensures Watches(out + multiset{q}, enumerating, checking)
  {
    IssuingOther(out, q, Listing);
    IssuingOther(out, q, Space);
  }

  lemma IssueSpace(out: multiset<Request>, q: Request, enumerating: bool)
    requires Watches(out, enumerating, false) && ClassOf(q) == Space
    ensures Watches(out + multiset{q}, enumerating, true)
  {
    IssuingOther(out, q, Listing);
    IssuingFirst(out, q);
  }

  lemma IssueListing(out: multiset<Request>, q: Request, checking: bool)
    requires Watches(out, false, checking) && ClassOf(q) == Listing
    ensures Watches(out + multiset{q}, true, checking)
  {
    IssuingOther(out, q, Space);
    IssuingFirst(out, q);
  }

  lemma AnswerKeepsWatches(out: multiset<Request>, q: Request, enumerating: bool, checking: bool)
    requires Watches(out, enumerating, checking) && q in out
    ensures Watches(out - multiset{q}, if ClassOf(q) == Listing then false else enumerating,
                    if ClassOf(q) == Space then false else checking)
  {
    if ClassOf(q) == Listing {
      AnsweringOnly(out, q);
      AnsweringOther(out, q, Space);
    } else if ClassOf(q) == Space {
      AnsweringOnly(out, q);
      AnsweringOther(out, q, Listing);
    } else {
      AnsweringOther(out, q, Listing);
      AnsweringOther(out, q, Space);
    }
  }

  /** The verdict over the first unweighed job's volume: over, or waiting for the user. */
  lemma VerdictIsSound(s: State)
    requires SoundInVerdict(s)
    ensures var (next, over) := Verdict(s);
            && (over ==> SoundInVerdict(next)) && (!over ==> Sound(next))
            && next.enumerating == s.enumerating
  {
    var first := FirstUnchecked(s.jobs);
    if first < |s.jobs| { IssueSpace(s.out, SpacePrompt(s.jobs[first].destination.fs), s.enumerating); }
  }

  lemma QueryIsSound(s: State, fs: nat, path: string, left: nat)
    requires SoundInVerdict(s)
    ensures var (next, over) := QuerySpaceFrom(s, fs, path, left);
            (over ==> SoundInVerdict(next)) && (!over ==> Sound(next))
  {
    VerdictIsSound(s);
    IssueSpace(s.out, QuerySpace(fs, path, left), s.enumerating);
  }

  lemma {:induction false} PumpIsSound(s: State)
    requires Sound(s)
    ensures Sound(Pump(s)) && Pump(s).enumerating == s.enumerating
    ensures s.enumerating ==> Pump(s) == s
    decreases QueuedCount(s.jobs), UnweighedCount(s.jobs), if s.preflight == Cleared then 0 else 1
  {
    if !s.enumerating {
      var i := FirstQueued(s.jobs);
      if i == |s.jobs| {
        NoneQueuedNoneUnweighed(s.jobs);
        if s.dirsToCreate != [] { MakingIsSound(s); }
      } else if s.preflight != Cleared || Unweighed(s.jobs) {
        if s.preflight != CheckingSpace {
          BeginPreflightDecreases(s);
          BeginPreflightIsSound(s);
          var (next, over) := BeginPreflight(s);
          if over { PumpIsSound(next.(preflight := Cleared)); }
        }
      } else if !s.paused && s.activeId == NO_JOB {
        if s.dirsToCreate != [] {
          MakingIsSound(s);
        } else {
          PumpBegins(s, i);
        }
      }
    }
  }

  lemma MakingIsSound(s: State)
    requires Sound(s) && s.dirsToCreate != [] && !s.enumerating && !Unweighed(s.jobs)
    ensures Sound(CreateNextDirectory(s)) && CreateNextDirectory(s).enumerating == s.enumerating
  {
    IssueKeepsWatches(s.out, MakeDir(s.dirsToCreate[0]), s.enumerating, s.preflight == CheckingSpace);
  }

  lemma BeginPreflightIsSound(s: State)
    requires Sound(s) && s.preflight != CheckingSpace
    ensures var (next, over) := BeginPreflight(s);
            && (over ==> SoundInVerdict(next)) && (!over ==> Sound(next)) && next.enumerating == s.enumerating
  {
    var t := s.(preflight := CheckingSpace);
    var first := FirstUnchecked(t.jobs);
    if first < |t.jobs| && t.jobs[first].destination.fs.Some? {
      QueryIsSound(t, t.jobs[first].destination.fs.value, RemotePath.Parent(t.jobs[first].destPath), MAX_SPACE_PROBE_ANCESTORS);
    }
  }

  lemma {:induction false} PumpBegins(s: State, i: nat)
    requires Sound(s) && !s.enumerating && s.preflight == Cleared && !Unweighed(s.jobs)
    requires i == FirstQueued(s.jobs) < |s.jobs| && !s.paused && s.activeId == NO_JOB && s.dirsToCreate == []
    ensures Sound(Pump(s)) && !Pump(s).enumerating
    decreases QueuedCount(s.jobs), UnweighedCount(s.jobs), 0, 0
  {
    var job := s.jobs[i];
    var t := s.(activeId := job.id);
    if job.source.fs.None? || job.destination.fs.None? {
      CountsUpdate(s.jobs, i, job.(state := Failed));
      PumpIsSound(Retired(t, i, Failed));
    } else {
      assert !UnweighedJob(job);
      IssueKeepsWatches(s.out, Stat(job.id), false, false);
      IssueIsLogged(WithJob(t, i, job.(state := Checking)), Stat(job.id), job.spaceChecked);
    }
  }

  /** While a verdict is pending the pump begins no job and touches none; at most it makes a directory, and
      only when nothing is queued. */
  lemma PumpInVerdict(s: State)
    requires SoundInVerdict(s)
    ensures SoundInVerdict(Pump(s)) && Pump(s).enumerating == s.enumerating
    ensures Pump(s).jobs == s.jobs && Pump(s).activeId == s.activeId
    ensures Pump(s).out == s.out || (s.dirsToCreate != [] && FirstQueued(s.jobs) == |s.jobs| &&
                                     Pump(s).out == s.out + multiset{MakeDir(s.dirsToCreate[0])})
  {
    NoneQueuedNoneUnweighed(s.jobs);
    if s.dirsToCreate != [] { IssueKeepsWatches(s.out, MakeDir(s.dirsToCreate[0]), s.enumerating, false); }
  }

  // ------------------------------------------------------------- handlers, one by one

  lemma FinishIsSound(s: State, id: JobId, outcome: JobState)
    requires Sound(s)
    ensures Sound(FinishJob(s, id, outcome)) && FinishJob(s, id, outcome).enumerating == s.enumerating
  {
    var i := Index(s.jobs, id);
    if i < |s.jobs| { PumpIsSound(Retired(s, i, outcome)); }
    else { PumpIsSound(SlotFreed(s, id)); }
  }

  lemma FinishInVerdict(s: State, id: JobId, outcome: JobState)
    requires SoundInVerdict(s)
    ensures SoundInVerdict(FinishJob(s, id, outcome))
  {
    var i := Index(s.jobs, id);
    if i < |s.jobs| { PumpInVerdict(Retired(s, i, outcome)); }
    else { PumpInVerdict(SlotFreed(s, id)); }
  }

  lemma IssueIsSound(s: State, q: Request)
    requires Sound(s) && ClassOf(q) in {Calling, Prompting}
    ensures Sound(Issue(s, q, true))
  {
    IssueKeepsWatches(s.out, q, s.enumerating, s.preflight == CheckingSpace);
  }

  lemma StartIsSound(s: State, id: JobId)
    requires Sound(s)
    ensures Sound(StartTransfer(s, id))
  {
    var i := Index(s.jobs, id);
    if i == |s.jobs| {
      PumpIsSound(s.(activeId := NO_JOB));
    } else {
      var job := s.jobs[i].(state := Active);
      var t := WithJob(s, i, job);
      if job.kind == LinkJob { IssueIsSound(t, ReadLink(id, job.destExisted)); }
      else if job.destination.IsLocalDisk() { IssueIsSound(t.(activeOwner := job.source.fs), Transfer(id, false)); }
      else if job.source.IsLocalDisk() { IssueIsSound(t.(activeOwner := job.destination.fs), Transfer(id, false)); }
      else if !s.config.relayRoot { FinishIsSound(t, id, Failed); }
      else { IssueIsSound(t.(activeOwner := job.source.fs), Transfer(id, true)); }
    }
  }

  lemma FreeNameIsSound(s: State, id: JobId, attempt: nat)
    requires Sound(s)
    ensures Sound(ResolveFreeName(s, id, attempt))
  {
    var i := Index(s.jobs, id);
    PumpIsSound(s.(activeId := NO_JOB));
    FinishIsSound(s, id, Failed);
    if i < |s.jobs| {
      var dest := s.jobs[i].destPath;
      IssueIsSound(s, StatFree(id, RemotePath.Join(RemotePath.Parent(dest),
            MakeUniqueCandidate(RemotePath.Leaf(dest), attempt)), attempt));
    }
  }

  lemma ResolveIsSound(s: State, id: JobId, resolution: Resolution)
    requires Sound(s)
    ensures Sound(Resolve(s, id, resolution))
  {
    StartIsSound(s, id);
    FinishIsSound(s, id, Skipped);
    FreeNameIsSound(s, id, 1);
  }

  lemma ConflictIsSound(s: State, id: JobId, found: bool)
    requires Sound(s)
    ensures Sound(OnConflictKnown(s, id, found))
  {
    var i := Index(s.jobs, id);
    if i == |s.jobs| || s.jobs[i].state != Checking { PumpIsSound(s.(activeId := NO_JOB)); }
    else if !found { StartIsSound(s, id); }
    else {
      var t := WithJob(s, i, s.jobs[i].(destExisted := true));
      if t.config.policy != Ask { ResolveIsSound(t, id, t.config.policy); }
      else if !t.config.hasPrompt { FinishIsSound(t, id, Skipped); }
      else { IssueIsSound(WithJob(t, i, t.jobs[i].(state := AwaitingResolution)), Prompt(id)); }
    }
  }

  lemma FreeNameAnswerIsSound(s: State, id: JobId, candidate: string, attempt: nat, found: bool)
    requires Sound(s)
    ensures Sound(OnFreeNameKnown(s, id, candidate, attempt, found))
  {
    var i := Index(s.jobs, id);
    if found { FreeNameIsSound(s, id, attempt + 1); }
    else { StartIsSound(if i < |s.jobs| then WithJob(s, i, s.jobs[i].(destPath := candidate,
          destExisted := false)) else s, id); }
  }

  lemma PromptAnswerIsSound(s: State, id: JobId, resolution: Resolution, applyToAll: bool)
    requires Sound(s)
    ensures Sound(OnPromptAnswered(s, id, resolution, applyToAll))
  {
    ResolveIsSound(if applyToAll then s.(config := s.config.(policy := resolution)) else s, id, resolution);
  }

  lemma LinkReadIsSound(s: State, id: JobId, mustUnlink: bool, ok: bool)
    requires Sound(s)
    ensures Sound(OnLinkRead(s, id, mustUnlink, ok))
  {
    if !ok { FinishIsSound(s, id, Failed); }
    else if Index(s.jobs, id) == |s.jobs| { PumpIsSound(s.(activeId := NO_JOB)); }
    else if mustUnlink { IssueIsSound(s, Unlink(id)); }
    else { WriteLinkIsSound(s, id); }
  }

  /** What is known of the destination, by looking or by asking. */
  lemma NameAnswerIsSound(s: State, q: Request, r: Reply)
    requires Sound(s) && (q.Stat? || q.StatFree? || q.Prompt?)
    ensures Sound(OnAnswer(s, q, r))
  {
    match q
    case Stat(id) => ConflictIsSound(s, id, r.found); return;
    case StatFree(id, candidate, attempt) => FreeNameAnswerIsSound(s, id, candidate, attempt, r.found); return;
    case Prompt(id) => PromptAnswerIsSound(s, id, r.resolution, r.applyToAll); return;
  }

  lemma StepDoneIsSound(s: State, q: Request, r: Reply)
    requires Sound(s) && IsStep(q)
    ensures Sound(OnStepDone(s, q, r))
  {
    match q {
      case Transfer(id, firstLeg) => LegIsSound(s, id, firstLeg, r.ok, r.cancelled); return;
      case ReadLink(id, mustUnlink) => LinkReadIsSound(s, id, mustUnlink, r.ok); return;
      case Unlink(id) => UnlinkedIsSound(s, id, r.ok); return;
      case MakeLink(id) => LinkMadeIsSound(s, id, r.ok); return;
    }
  }

  lemma JobAnswerIsSound(s: State, q: Request, r: Reply)
    requires Sound(s) && ClassOf(q) in {Calling, Prompting}
    ensures Sound(OnAnswer(s, q, r))
  {
    if IsStep(q) { StepDoneIsSound(s, q, r); } else { NameAnswerIsSound(s, q, r); }
  }

  lemma LinkMadeIsSound(s: State, id: JobId, ok: bool)
    requires Sound(s)
    ensures Sound(OnLinkMade(s, id, ok))
  {
    FinishIsSound(s, id, if ok then Completed else Failed);
  }

  lemma UnlinkedIsSound(s: State, id: JobId, ok: bool)
    requires Sound(s)
    ensures Sound(OnUnlinked(s, id, ok))
  {
    if ok { WriteLinkIsSound(s, id); } else { FinishIsSound(s, id, Failed); }
  }

  lemma LegIsSound(s: State, id: JobId, firstLeg: bool, ok: bool, cancelled: bool)
    requires Sound(s)
    ensures Sound(OnLegDone(s, id, firstLeg, ok, cancelled))
  {
    var i := Index(s.jobs, id);
    if i == |s.jobs| { PumpIsSound(s.(activeId := NO_JOB)); }
    else if !ok { FinishIsSound(s, id, if cancelled then Cancelled else Failed); }
    else if firstLeg { IssueIsSound(s.(activeOwner := s.jobs[i].destination.fs), Transfer(id, false)); }
    else { FinishIsSound(s, id, Completed); }
  }

  lemma WriteLinkIsSound(s: State, id: JobId)
    requires Sound(s)
    ensures Sound(WriteLink(s, id))
  {
    if Index(s.jobs, id) == |s.jobs| { PumpIsSound(s.(activeId := NO_JOB)); } else { IssueIsSound(s, MakeLink(id)); }
  }

  /** Jobs and directories are added and nothing is started. */
  predicate OnlyAdds(s: State, t: State) {
    && t.out == s.out && t.log == s.log && t.enumerating && t.preflight == s.preflight
    && t.activeId == s.activeId && t.activeOwner == s.activeOwner && s.nextId <= t.nextId && s.jobs <= t.jobs
  }

  lemma AddingOnlyAdds(s: State, job: Job)
    requires s.enumerating
    ensures OnlyAdds(s, AddJob(s, job))
  {
    assert AddJob(s, job) == WithNewJob(s, job);
  }

  lemma AbsorbOneOnlyAdds(s: State, dir: PendingDir, e: Info)
    requires s.enumerating
    ensures OnlyAdds(s, AbsorbOne(s, dir, e))
  {
    var src, dst := RemotePath.Join(dir.sourcePath, e.name), RemotePath.Join(dir.destPath, e.name);
    AddingOnlyAdds(s, NewJob(LinkJob, dir.source, src, dir.destination, dst, if s.config.skipLinks then Skipped else Queued));
    AddingOnlyAdds(s, NewJob(Copy, dir.source, src, dir.destination, dst, Queued));
  }

  /** While a walk runs, adding what it found starts nothing. */
  lemma {:induction false} AbsorbingOnlyAdds(s: State, dir: PendingDir, entries: seq<Info>)
    requires s.enumerating
    ensures OnlyAdds(s, AbsorbEntries(s, dir, entries))
    decreases |entries|
  {
    if entries != [] {
      AbsorbOneOnlyAdds(s, dir, entries[0]);
      AbsorbingOnlyAdds(AbsorbOne(s, dir, entries[0]), dir, entries[1..]);
    }
  }

  /** `s` while its walk's last listing has just been answered. */
  ghost predicate SoundInWalk(s: State) {
    s.enumerating && LogIsSound(s.log) && Watches(s.out, false, s.preflight == CheckingSpace)
  }

  lemma StepIsSound(s: State)
    requires SoundInWalk(s)
    ensures Sound(StepEnumeration(s))
  {
    if s.toVisit == [] {
      PumpIsSound(s.(enumerating := false, enumCancelled := false));
    } else {
      IssueListing(s.out, List(s.toVisit[0]), s.preflight == CheckingSpace);
    }
  }

  lemma ListedIsSound(s: State, dir: PendingDir, entries: seq<Info>, gone: bool)
    requires SoundInWalk(s)
    ensures Sound(OnListed(s, dir, entries, gone))
  {
    AbsorbingOnlyAdds(if gone then s.(toVisit := []) else s, dir, entries);
    StepIsSound(s);
    StepIsSound(AbsorbListing(s, dir, entries, gone));
  }

  lemma SettledIsSound(r: (State, bool))
    requires (r.1 ==> SoundInVerdict(r.0)) && (!r.1 ==> Sound(r.0))
    ensures Sound(Settled(r))
  {
    if r.1 { PumpIsSound(r.0.(preflight := Cleared)); }
  }

  lemma {:induction false} CancellingIsSound(s: State, ids: seq<JobId>)
    ensures Sound(s) ==> Sound(CancelJobs(s, ids))
    ensures SoundInVerdict(s) ==> SoundInVerdict(CancelJobs(s, ids))
    decreases |ids|
  {
    if ids != [] {
      if Sound(s) { FinishIsSound(s, ids[0], Cancelled); }
      if SoundInVerdict(s) { FinishInVerdict(s, ids[0], Cancelled); }
      CancellingIsSound(CancelJob(s, ids[0]), ids[1..]);
    }
  }

  lemma {:induction false} DroppingIsSound(s: State, ids: seq<JobId>, fs: nat)
    requires Sound(s)
    ensures Sound(DropJobs(s, ids, fs))
    decreases |ids|
  {
    if ids != [] {
      var i := Index(s.jobs, ids[0]);
      if i < |s.jobs| {
        var job := s.jobs[i];
        FinishIsSound(WithJob(s, i, Parted(job, fs)), ids[0], Cancelled);
      } else {
        FinishIsSound(s, ids[0], Cancelled);
      }
      DroppingIsSound(DropJob(s, ids[0], fs), ids[1..], fs);
    }
  }

  lemma DecliningIsSound(s: State, volume: Option<nat>)
    ensures Sound(s) ==> Sound(CancelBatchFor(s, volume))
    ensures SoundInVerdict(s) ==> SoundInVerdict(CancelBatchFor(s, volume))
  {
    CancellingIsSound(DropPendingFor(s, volume), Unfinished(s.jobs, Some(volume)));
  }

  lemma SpaceKnownIsSound(s: State, fs: nat, path: string, parent: string, left: nat, ok: bool, unsupported: bool)
    requires SoundInVerdict(s)
    ensures var (next, over) := SpaceKnown(s, fs, path, parent, left, ok, unsupported);
            (over ==> SoundInVerdict(next)) && (!over ==> Sound(next))
  {
    if ok || unsupported || left == 0 || parent == "" || parent == path { VerdictIsSound(s); }
    else { QueryIsSound(s, fs, parent, left - 1); }
  }

  lemma SpaceQueryIsSound(s: State, fs: nat, path: string, left: nat, ok: bool, unsupported: bool)
    requires SoundInVerdict(s)
    ensures Sound(OnSpaceAnswered(s, fs, path, left, ok, unsupported))
  {
    var parent := RemotePath.Parent(path);
    SpaceKnownIsSound(s, fs, path, parent, left, ok, unsupported);
    SettledIsSound(SpaceKnown(s, fs, path, parent, left, ok, unsupported));
  }

  lemma SpacePromptIsSound(s: State, volume: Option<nat>, proceed: bool)
    requires SoundInVerdict(s)
    ensures Sound(OnSpacePromptAnswered(s, volume, proceed))
  {
    DecliningIsSound(s, volume);
    PumpIsSound((if proceed then s else CancelBatchFor(s, volume)).(preflight := Cleared));
  }

  lemma EnqueueIsSound(s: State, source: Endpoint, item: Info, path: string, destination: Endpoint, destDir: string)
    requires Sound(s)
    ensures Sound(EnqueueItem(s, source, item, path, destination, destDir))
  {
    var dest := RemotePath.Join(destDir, item.name);
    if item.isSymlink {
      AddIsSound(s, NewJob(LinkJob, source, path, destination, dest, if s.config.skipLinks then Skipped else Queued));
    } else if item.isDir {
      TreeIsSound(s, source, path, destination, dest);
    } else {
      AddIsSound(s, NewJob(Copy, source, path, destination, dest, Queued));
    }
  }

  lemma AddIsSound(s: State, job: Job)
    requires Sound(s)
    ensures Sound(AddJob(s, job))
  {
    PumpIsSound(WithNewJob(s, job));
  }

  lemma TreeIsSound(s: State, source: Endpoint, path: string, destination: Endpoint, dest: string)
    requires Sound(s)
    ensures Sound(EnqueueTree(s, source, path, destination, dest))
  {
    var t := s.(toVisit := s.toVisit + [PendingDir(source, destination, path, dest, 0)],
                dirsToCreate := s.dirsToCreate + [DirCreate(destination, dest)]);
    if !s.enumerating { StepIsSound(t.(enumerating := true)); }
  }

  lemma RetirementIsSound(s: State, e: Event)
    requires Sound(s) && IsRetirement(e)
    ensures Sound(OnRetirement(s, e))
  {
    match e
    case CancelEvent(id) => FinishIsSound(s, id, Cancelled);
    case CancelAllEvent => CancellingIsSound(DropPending(s), Unfinished(s.jobs, None));
    case CancelBatchEvent(volume) => DecliningIsSound(s, volume);
    case CloseEvent(fs) => DroppingIsSound(s, Unfinishing(s.jobs, fs), fs);
  }

  /** Every event keeps the queue sound. */
  lemma EventKeepsSound(s: State, e: Event)
    requires Sound(s) && Possible(s, e)
    ensures Sound(Handle(s, e))
  {
    match e
    case Answer(q, r) =>
      AnswerKeepsWatches(s.out, q, s.enumerating, s.preflight == CheckingSpace);
      var t := Answered(s, q);
      match ClassOf(q) {
        case Listing => ListedIsSound(t, q.dir, r.entries, r.endpointGone);
        case Space =>
          if q.QuerySpace? { SpaceQueryIsSound(t, q.fs, q.path, q.ancestorsLeft, r.ok, r.unsupported); }
          else { SpacePromptIsSound(t, q.volume, r.proceed); }
        case Making => PumpIsSound(t);
        case Calling => JobAnswerIsSound(t, q, r);
        case Prompting => JobAnswerIsSound(t, q, r);
      }
    case EnqueueEvent(source, item, path, destination, destDir) => EnqueueIsSound(s, source, item, path, destination, destDir);
    case ResumeEvent => PumpIsSound(s.(paused := false));
    case PauseEvent =>
    case ClearFinishedEvent =>
    case ConfigureEvent(_) =>
    case _ => RetirementIsSound(s, e);
  }

  /** On every run: at most one listing is outstanding and one is exactly while a walk runs; the check
      waits for exactly one answer; every directory made and every job begun had its verdict. */
  lemma {:induction false} EveryRunIsSound(s: State, events: seq<Event>)
    requires Sound(s) && PossibleRun(s, events)
    ensures Sound(Run(s, events))
    decreases |events|
  {
    if events != [] {
      EventKeepsSound(s, events[0]);
      EveryRunIsSound(Handle(s, events[0]), events[1..]);
    }
  }

  lemma InitialIsSound(config: Config)
    ensures Sound(Initial(config))
  {}
}
