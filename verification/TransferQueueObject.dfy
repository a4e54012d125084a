/** The transfer queue as the object it is: its fields are updated step by step, and every method leaves
    it in the state that the state machine of `TransferQueue` says. */
module TransferQueueObject {
  import opened Style
  import opened Machine = TransferQueue
  import TransferBatches
  import RemotePath

  class TransferQueue {
    var jobs: seq<Job>
    var nextId: JobId
    var activeId: JobId
    var activeOwner: Option<nat>
    var cancellingActive: bool
    var enumerating: bool
    var enumCancelled: bool
    var toVisit: seq<PendingDir>
    var dirsToCreate: seq<DirCreate>
    var paused: bool
    var preflight: Preflight
    var config: Config
    var out: multiset<Request>
    var log: seq<Issued>

    function Now(): State
      reads this
    {
      State(jobs, nextId, activeId, activeOwner, cancellingActive, enumerating, enumCancelled, toVisit, dirsToCreate,
            paused, preflight, config, out, log)
    }

    constructor (config: Config)
      ensures Now() == Initial(config)
    {
      jobs, nextId, activeId, activeOwner, cancellingActive := [], 1, NO_JOB, None, false;
      enumerating, enumCancelled, toVisit, dirsToCreate, paused := false, false, [], [], false;
      preflight, this.config, out, log := PendingCheck, config, multiset{}, [];
    }

    // ---------------------------------------------------------------- looking up

    method Find(id: JobId) returns (i: nat)
      ensures i == Index(jobs, id)
    {
      i := 0;
      while i < |jobs| && jobs[i].id != id
        invariant i <= |jobs| && forall j | 0 <= j < i :: jobs[j].id != id
      {
        i := i + 1;
      }
    }

    method FindQueued() returns (i: nat)
      ensures i == FirstQueued(jobs)
    {
      i := 0;
      while i < |jobs| && jobs[i].state != Queued
        invariant i <= |jobs| && forall j | 0 <= j < i :: jobs[j].state != Queued
      {
        i := i + 1;
      }
    }

    method FindUnchecked() returns (i: nat)
      ensures i == FirstUnchecked(jobs)
    {
      i := 0;
      while i < |jobs| && !(jobs[i].state == Queued && !jobs[i].spaceChecked)
        invariant i <= |jobs| && forall j | 0 <= j < i :: !UnweighedJob(jobs[j])
      {
        i := i + 1;
      }
    }

    /** A request goes out; its answer comes back through `Deliver`. */
    method Send(request: Request, jobWeighed: bool)
      modifies this`out, this`log
      ensures Now() == Issue(old(Now()), request, jobWeighed)
    {
      var first := FindUnchecked();
      log := log + [Issued(request, enumerating, first < |jobs|, jobWeighed, TargetOf(Now(), request))];
      out := out + multiset{request};
    }

    // ---------------------------------------------------------------- the check

    method MarkVolume(volume: Option<nat>)
      modifies this`jobs
      ensures jobs == MarkWeighed(old(jobs), volume)
    {
      var i := 0;
      while i < |jobs|
        invariant i <= |jobs| == |old(jobs)|
        invariant forall j | 0 <= j < i :: jobs[j] == Weighed(old(jobs)[j], volume)
        invariant forall j | i <= j < |jobs| :: jobs[j] == old(jobs)[j]
      {
        if jobs[i].state == Queued && jobs[i].destination.fs == volume {
          jobs := jobs[i := jobs[i].(spaceChecked := true)];
        }
        i := i + 1;
      }
    }

    /** Mark what the verdict covers, then ask the user if it is worth it. */
    method OnPreflightSpace() returns (over: bool)
      modifies this`jobs, this`out, this`log
      ensures (Now(), over) == Verdict(old(Now()))
    {
      var first := FindUnchecked();
      if first == |jobs| { return true; }
      var volume := jobs[first].destination.fs;
      MarkVolume(volume);
      if !config.concerning || !config.hasSpacePrompt { return true; }
      Send(SpacePrompt(volume), true);
      over := false;
    }

    method QuerySpaceOf(fs: nat, path: string, ancestorsLeft: nat) returns (over: bool)
      modifies this`jobs, this`out, this`log
      ensures (Now(), over) == QuerySpaceFrom(old(Now()), fs, path, ancestorsLeft)
    {
      if path == "" {
        over := OnPreflightSpace();
      } else {
        Send(QuerySpace(fs, path, ancestorsLeft), true);
        over := false;
      }
    }

    method StartPreflight() returns (over: bool)
      modifies this`preflight, this`jobs, this`out, this`log
      ensures (Now(), over) == BeginPreflight(old(Now()))
    {
      preflight := CheckingSpace;
      var first := FindUnchecked();
      if first == |jobs| { return true; }
      var job := jobs[first];
      if job.destination.fs.None? {
        jobs := jobs[first := job.(spaceChecked := true)];
        return true;
      }
      over := QuerySpaceOf(job.destination.fs.value, RemotePath.Parent(job.destPath), MAX_SPACE_PROBE_ANCESTORS);
    }

    method ClearPreflight()
      modifies this
      ensures Now() == Pump(old(Now()).(preflight := Cleared))
    {
      preflight := Cleared;
      RunPump();
    }

    // ---------------------------------------------------------------- scheduling

    method MakeNextDirectory()
      requires dirsToCreate != [] && !enumerating && !Unweighed(jobs)
      modifies this`dirsToCreate, this`out, this`log
      ensures Now() == CreateNextDirectory(old(Now()))
    {
      var next := dirsToCreate[0];
      dirsToCreate := dirsToCreate[1..];
      Send(MakeDir(next), true);
    }

    method FreeSlot(id: JobId)
      modifies this`activeId, this`activeOwner, this`cancellingActive
      ensures Now() == SlotFreed(old(Now()), id)
    {
      if activeId == id { activeId, activeOwner, cancellingActive := NO_JOB, None, false; }
    }

    /** The job's outcome is recorded, and the slot freed if the job held it. */
    method Retire(i: nat, outcome: JobState)
      requires i < |jobs|
      modifies this`jobs, this`activeId, this`activeOwner, this`cancellingActive
      ensures Now() == Retired(old(Now()), i, outcome)
    {
      var id := jobs[i].id;
      jobs := jobs[i := jobs[i].(state := outcome)];
      FreeSlot(id);
    }

    method RunPump()
      modifies this
      ensures Now() == Pump(old(Now()))
      decreases QueuedCount(jobs), UnweighedCount(jobs), if preflight == Cleared then 0 else 1, 1
    {
      if enumerating { return; }
      var i := FindQueued();
      if i == |jobs| {
        NoneQueuedNoneUnweighed(jobs);
        if activeId == NO_JOB && dirsToCreate != [] && !paused { MakeNextDirectory(); }
        return;
      }
      var first := FindUnchecked();
      if preflight != Cleared || first < |jobs| {
        if preflight != CheckingSpace { Check(); }
        return;
      }
      if paused || activeId != NO_JOB { return; }
      if dirsToCreate != [] {
        MakeNextDirectory();
        return;
      }
      BeginJob(i);
    }

    /** Work no verdict has covered is weighed first. */
    method Check()
      requires !enumerating && preflight != CheckingSpace && FirstQueued(jobs) < |jobs|
      requires preflight == PendingCheck || Unweighed(jobs)
      modifies this
      ensures Now() == Pump(old(Now()))
      decreases QueuedCount(jobs), UnweighedCount(jobs), if preflight == Cleared then 0 else 1, 0
    {
      BeginPreflightDecreases(Now());
      var over := StartPreflight();
      if over {
        preflight := Cleared;
        RunPump();
      }
    }

    method BeginJob(i: nat)
      requires !enumerating && preflight == Cleared && !Unweighed(jobs) && !paused && activeId == NO_JOB && dirsToCreate == []
      requires i == FirstQueued(jobs) < |jobs|
      modifies this
      ensures Now() == Pump(old(Now()))
      decreases QueuedCount(jobs), UnweighedCount(jobs), 0, 0
    {
      var job := jobs[i];
      activeId := job.id;
      if job.source.fs.None? || job.destination.fs.None? {
        CountsUpdate(jobs, i, job.(state := Failed));
        Retire(i, Failed);
        RunPump();
        return;
      }
      jobs := jobs[i := jobs[i].(state := Checking)];
      Send(Stat(job.id), job.spaceChecked);
    }

    // ---------------------------------------------------------------- one job's steps

    method Finish(id: JobId, outcome: JobState)
      modifies this
      ensures Now() == FinishJob(old(Now()), id, outcome)
    {
      var i := Find(id);
      if i < |jobs| { Retire(i, outcome); } else { FreeSlot(id); }
      RunPump();
    }

    method LetGo()
      modifies this
      ensures Now() == Abandon(old(Now()))
    {
      activeId := NO_JOB;
      RunPump();
    }

    method Start(id: JobId)
      modifies this
      ensures Now() == StartTransfer(old(Now()), id)
    {
      var i := Find(id);
      if i == |jobs| { LetGo(); return; }
      var job := jobs[i].(state := Active);
      jobs := jobs[i := job];
      Launch(id, job);
    }

    method Launch(id: JobId, job: Job)
      modifies this
      ensures Now() == Launched(old(Now()), id, job)
    {
      if job.kind == LinkJob { Send(ReadLink(id, job.destExisted), true); return; }
      if job.destination.IsLocalDisk() { SendLeg(id, job.source.fs, false); return; }
      if job.source.IsLocalDisk() { SendLeg(id, job.destination.fs, false); return; }
      if !config.relayRoot { Finish(id, Failed); return; }
      SendLeg(id, job.source.fs, true);
    }

    /** A leg goes out; whoever carries it is the one to ask should the job be cancelled. */
    method SendLeg(id: JobId, owner: Option<nat>, firstLeg: bool)
      modifies this`activeOwner, this`out, this`log
      ensures Now() == Issue(old(Now()).(activeOwner := owner), Transfer(id, firstLeg), true)
    {
      activeOwner := owner;
      Send(Transfer(id, firstLeg), true);
    }

    method FindFreeName(id: JobId, attempt: nat)
      modifies this
      ensures Now() == ResolveFreeName(old(Now()), id, attempt)
    {
      var i := Find(id);
      if i == |jobs| { LetGo(); return; }
      if attempt > MAX_RENAME_ATTEMPTS { Finish(id, Failed); return; }
      var dest := jobs[i].destPath;
      var candidate := RemotePath.Join(RemotePath.Parent(dest), MakeUniqueCandidate(RemotePath.Leaf(dest), attempt));
      Send(StatFree(id, candidate, attempt), true);
    }

    method ApplyResolution(id: JobId, resolution: Resolution)
      modifies this
      ensures Now() == Resolve(old(Now()), id, resolution)
    {
      match resolution
      case Overwrite => Start(id);
      case Skip => Finish(id, Skipped);
      case Rename => FindFreeName(id, 1);
    }

    method ConflictKnown(id: JobId, found: bool)
      modifies this
      ensures Now() == OnConflictKnown(old(Now()), id, found)
    {
      var i := Find(id);
      if i == |jobs| || jobs[i].state != Checking { LetGo(); return; }
      if !found { Start(id); return; }
      jobs := jobs[i := jobs[i].(destExisted := true)];
      if config.policy != Ask { ApplyResolution(id, config.policy); return; }
      if !config.hasPrompt { Finish(id, Skipped); return; }
      jobs := jobs[i := jobs[i].(state := AwaitingResolution)];
      Send(Prompt(id), true);
    }

    method FreeNameKnown(id: JobId, candidate: string, attempt: nat, found: bool)
      modifies this
      ensures Now() == OnFreeNameKnown(old(Now()), id, candidate, attempt, found)
    {
      if found { FindFreeName(id, attempt + 1); return; }
      var i := Find(id);
      if i < |jobs| { jobs := jobs[i := jobs[i].(destPath := candidate, destExisted := false)]; }
      Start(id);
    }

    method PromptAnswered(id: JobId, resolution: Resolution, applyToAll: bool)
      modifies this
      ensures Now() == OnPromptAnswered(old(Now()), id, resolution, applyToAll)
    {
      var i := Find(id);
      if i == |jobs| || jobs[i].state != AwaitingResolution { return; }
      if applyToAll { config := config.(policy := resolution); }
      ApplyResolution(id, resolution);
    }

    method LegDone(id: JobId, firstLeg: bool, ok: bool, cancelled: bool)
      modifies this
      ensures Now() == OnLegDone(old(Now()), id, firstLeg, ok, cancelled)
    {
      var i := Find(id);
      if i == |jobs| { LetGo(); return; }
      if !ok { Finish(id, if cancelled then Cancelled else Failed); return; }
      if firstLeg {
        SendLeg(id, jobs[i].destination.fs, false);
        return;
      }
      Finish(id, Completed);
    }

    method PutLink(id: JobId)
      modifies this
      ensures Now() == WriteLink(old(Now()), id)
    {
      var i := Find(id);
      if i == |jobs| { LetGo(); } else { Send(MakeLink(id), true); }
    }

    method LinkRead(id: JobId, mustUnlink: bool, ok: bool)
      modifies this
      ensures Now() == OnLinkRead(old(Now()), id, mustUnlink, ok)
    {
      if !ok { Finish(id, Failed); return; }
      var i := Find(id);
      if i == |jobs| { LetGo(); return; }
      if !mustUnlink { PutLink(id); } else { Send(Unlink(id), true); }
    }

    method Unlinked(id: JobId, ok: bool)
      modifies this
      ensures Now() == OnUnlinked(old(Now()), id, ok)
    {
      if ok { PutLink(id); } else { Finish(id, Failed); }
    }

    // ---------------------------------------------------------------- adding work

    method Add(job: Job)
      modifies this
      ensures Now() == AddJob(old(Now()), job)
    {
      Append(job);
      RunPump();
    }

    method Append(job: Job)
      modifies this`jobs, this`nextId
      ensures Now() == WithNewJob(old(Now()), job)
    {
      jobs := jobs + [job.(id := nextId)];
      nextId := nextId + 1;
    }

    method AddLink(source: Endpoint, sourcePath: string, destination: Endpoint, destPath: string)
      modifies this
      ensures Now() == EnqueueSymlink(old(Now()), source, sourcePath, destination, destPath)
    {
      Add(NewJob(LinkJob, source, sourcePath, destination, destPath, if config.skipLinks then Skipped else Queued));
    }

    method AddFile(source: Endpoint, sourcePath: string, destination: Endpoint, destPath: string)
      modifies this
      ensures Now() == Enqueue(old(Now()), source, sourcePath, destination, destPath)
    {
      Add(NewJob(Copy, source, sourcePath, destination, destPath, Queued));
    }

    method Walk()
      modifies this
      ensures Now() == StepEnumeration(old(Now()))
    {
      if toVisit == [] {
        enumerating, enumCancelled := false, false;
        RunPump();
        return;
      }
      var dir := toVisit[0];
      toVisit := toVisit[1..];
      Send(List(dir), true);
    }

    method Absorb(dir: PendingDir, entries: seq<Info>, endpointGone: bool)
      modifies this
      ensures Now() == AbsorbListing(old(Now()), dir, entries, endpointGone)
    {
      if endpointGone { toVisit := []; }
      var k := 0;
      ghost var start := Now();
      while k < |entries|
        invariant k <= |entries|
        invariant AbsorbEntries(Now(), dir, entries[k..]) == AbsorbEntries(start, dir, entries)
      {
        assert entries[k..][0] == entries[k] && entries[k..][1..] == entries[k + 1..];
        AbsorbRow(dir, entries[k]);
        k := k + 1;
      }
    }

    method AbsorbRow(dir: PendingDir, e: Info)
      modifies this
      ensures Now() == AbsorbOne(old(Now()), dir, e)
    {
      var src, dst := RemotePath.Join(dir.sourcePath, e.name), RemotePath.Join(dir.destPath, e.name);
      if e.isSymlink {
        AddLink(dir.source, src, dir.destination, dst);
      } else if e.isDir {
        if dir.depth + 1 < MAX_TREE_DEPTH {
          toVisit := toVisit + [PendingDir(dir.source, dir.destination, src, dst, dir.depth + 1)];
          dirsToCreate := dirsToCreate + [DirCreate(dir.destination, dst)];
        }
      } else {
        AddFile(dir.source, src, dir.destination, dst);
      }
    }

    method Listed(dir: PendingDir, entries: seq<Info>, endpointGone: bool)
      modifies this
      ensures Now() == OnListed(old(Now()), dir, entries, endpointGone)
    {
      if !enumCancelled { Absorb(dir, entries, endpointGone); }
      Walk();
    }

    method AddTree(source: Endpoint, sourceDir: string, destination: Endpoint, destDir: string)
      modifies this
      ensures Now() == EnqueueTree(old(Now()), source, sourceDir, destination, destDir)
    {
      if source.fs == destination.fs {
        var inside := RemotePath.Contains(sourceDir, destDir);
        if inside { return; }
      }
      toVisit := toVisit + [PendingDir(source, destination, sourceDir, destDir, 0)];
      dirsToCreate := dirsToCreate + [DirCreate(destination, destDir)];
      if !enumerating {
        enumerating := true;
        Walk();
      }
    }

    method AddItem(source: Endpoint, item: Info, path: string, destination: Endpoint, destDir: string)
      modifies this
      ensures TransferBatches.Promised(old(Now()), EnqueueEvent(source, item, path, destination, destDir), Now())
      ensures Now() == EnqueueItem(old(Now()), source, item, path, destination, destDir)
    {
      TransferBatches.EventKeepsPromise(Now(), EnqueueEvent(source, item, path, destination, destDir));
      var dest := RemotePath.Join(destDir, item.name);
      if item.isSymlink { AddLink(source, path, destination, dest); }
      else if item.isDir { AddTree(source, path, destination, dest); }
      else { AddFile(source, path, destination, dest); }
    }

    // ---------------------------------------------------------------- cancelling

    method Cancel(id: JobId)
      modifies this
      ensures Now() == CancelJob(old(Now()), id)
      ensures TransferBatches.Promised(old(Now()), CancelEvent(id), Now())
    {
      TransferBatches.EventKeepsPromise(Now(), CancelEvent(id));
      CancelOne(id);
    }

    /** One job of a batch, or the only one. */
    method CancelOne(id: JobId)
      modifies this
      ensures Now() == CancelJob(old(Now()), id)
    {
      var i := Find(id);
      if i == |jobs| || jobs[i].state.Terminal() { return; }
      if jobs[i].state == Active && id == activeId && activeOwner.Some? {
        cancellingActive := true;
        return;
      }
      Finish(id, Cancelled);
    }

    method CancelEach(ids: seq<JobId>)
      modifies this
      ensures Now() == CancelJobs(old(Now()), ids)
    {
      var k := 0;
      while k < |ids|
        invariant k <= |ids| && CancelJobs(Now(), ids[k..]) == CancelJobs(old(Now()), ids)
      {
        assert ids[k..][0] == ids[k] && ids[k..][1..] == ids[k + 1..];
        CancelOne(ids[k]);
        k := k + 1;
      }
    }

    /** The ids are taken first: cancelling one job can begin another. */
    method Snapshot(volume: Option<Option<nat>>) returns (ids: seq<JobId>)
      ensures ids == Unfinished(jobs, volume)
    {
      ids := [];
      var i := 0;
      while i < |jobs|
        invariant i <= |jobs| && ids + Unfinished(jobs[i..], volume) == Unfinished(jobs, volume)
      {
        assert jobs[i..][0] == jobs[i] && jobs[i..][1..] == jobs[i + 1..];
        ConcatAssoc(ids, [jobs[i].id], Unfinished(jobs[i + 1..], volume));
        if !jobs[i].state.Terminal() && (volume.None? || jobs[i].destination.fs == volume.value) { ids := ids + [jobs[i].id]; }
        i := i + 1;
      }
    }

    method CancelListed(volume: Option<Option<nat>>)
      modifies this
      ensures Now() == CancelJobs(old(Now()), Unfinished(old(jobs), volume))
    {
      var ids := Snapshot(volume);
      CancelEach(ids);
    }

    method CancelEverything()
      modifies this
      ensures Now() == CancelAll(old(Now()))
      ensures TransferBatches.Promised(old(Now()), CancelAllEvent, Now())
    {
      TransferBatches.EventKeepsPromise(Now(), CancelAllEvent);
      ForgetPending();
      CancelListed(None);
    }

    /** What waits to be listed or made is forgotten, and a listing under way will be ignored. */
    method ForgetPending()
      modifies `toVisit, `dirsToCreate, `enumCancelled
      ensures Now() == DropPending(old(Now()))
    {
      toVisit, dirsToCreate := [], [];
      if enumerating { enumCancelled := true; }
    }

    method OtherDirs(volume: Option<nat>) returns (kept: seq<DirCreate>)
      ensures kept == DirsElsewhere(dirsToCreate, volume)
    {
      kept := [];
      var i := 0;
      while i < |dirsToCreate|
        invariant i <= |dirsToCreate| && kept + DirsElsewhere(dirsToCreate[i..], volume) == DirsElsewhere(dirsToCreate, volume)
      {
        assert dirsToCreate[i..][0] == dirsToCreate[i] && dirsToCreate[i..][1..] == dirsToCreate[i + 1..];
        ConcatAssoc(kept, [dirsToCreate[i]], DirsElsewhere(dirsToCreate[i + 1..], volume));
        if dirsToCreate[i].destination.fs != volume { kept := kept + [dirsToCreate[i]]; }
        i := i + 1;
      }
    }

    method OtherVisits(volume: Option<nat>) returns (kept: seq<PendingDir>)
      ensures kept == VisitsElsewhere(toVisit, volume)
    {
      kept := [];
      var i := 0;
      while i < |toVisit|
        invariant i <= |toVisit| && kept + VisitsElsewhere(toVisit[i..], volume) == VisitsElsewhere(toVisit, volume)
      {
        assert toVisit[i..][0] == toVisit[i] && toVisit[i..][1..] == toVisit[i + 1..];
        ConcatAssoc(kept, [toVisit[i]], VisitsElsewhere(toVisit[i + 1..], volume));
        if toVisit[i].destination.fs != volume { kept := kept + [toVisit[i]]; }
        i := i + 1;
      }
    }

    method DropBound(volume: Option<nat>)
      modifies this
      ensures Now() == DropPendingFor(old(Now()), volume)
    {
      var keepDirs := OtherDirs(volume);
      var keepVisits := OtherVisits(volume);
      dirsToCreate, toVisit := keepDirs, keepVisits;
    }

    /** Only what was bound for the volume the answer was about. */
    method CancelBatch(volume: Option<nat>)
      modifies this
      ensures Now() == CancelBatchFor(old(Now()), volume)
      ensures TransferBatches.Promised(old(Now()), CancelBatchEvent(volume), Now())
    {
      ghost var t := Handle(Now(), CancelBatchEvent(volume));
      TransferBatches.EventKeepsPromise(Now(), CancelBatchEvent(volume));
      DropBound(volume);
      CancelListed(Some(volume));
      assert Now() == t;
    }

    method Users(fs: nat) returns (ids: seq<JobId>)
      ensures ids == Unfinishing(jobs, fs)
    {
      ids := [];
      var i := 0;
      while i < |jobs|
        invariant i <= |jobs| && ids + Unfinishing(jobs[i..], fs) == Unfinishing(jobs, fs)
      {
        assert jobs[i..][0] == jobs[i] && jobs[i..][1..] == jobs[i + 1..];
        ConcatAssoc(ids, [jobs[i].id], Unfinishing(jobs[i + 1..], fs));
        if !jobs[i].state.Terminal() && (jobs[i].source.fs == Some(fs) || jobs[i].destination.fs == Some(fs)) { ids := ids + [jobs[i].id]; }
        i := i + 1;
      }
    }

    /** A file system goes away: each of its jobs loses it and retires. */
    method CancelUsing(fs: nat)
      modifies this
      ensures Now() == CancelJobsUsing(old(Now()), fs)
      ensures TransferBatches.Promised(old(Now()), CloseEvent(fs), Now())
    {
      ghost var t := Handle(Now(), CloseEvent(fs));
      TransferBatches.EventKeepsPromise(Now(), CloseEvent(fs));
      var ids := Users(fs);
      DropEach(ids, fs);
      assert Now() == t;
    }

    method DropEach(ids: seq<JobId>, fs: nat)
      modifies this
      ensures Now() == DropJobs(old(Now()), ids, fs)
    {
      var k := 0;
      while k < |ids|
        invariant k <= |ids| && DropJobs(Now(), ids[k..], fs) == DropJobs(old(Now()), ids, fs)
      {
        assert ids[k..][0] == ids[k] && ids[k..][1..] == ids[k + 1..];
        Drop(ids[k], fs);
        k := k + 1;
      }
      assert ids[k..] == [];
    }

    method Drop(id: JobId, fs: nat)
      modifies this
      ensures Now() == DropJob(old(Now()), id, fs)
    {
      var i := Find(id);
      if i < |jobs| {
        var job := jobs[i];
        jobs := jobs[i := Parted(job, fs)];
      }
      Finish(id, Cancelled);
    }

    method ClearFinished()
      modifies this`jobs
      ensures jobs == Unterminated(old(jobs))
      ensures TransferBatches.Promised(old(Now()), ClearFinishedEvent, Now())
    {
      ghost var t := Handle(Now(), ClearFinishedEvent);
      TransferBatches.EventKeepsPromise(Now(), ClearFinishedEvent);
      var kept, i := [], 0;
      while i < |jobs|
        invariant i <= |jobs| && kept + Unterminated(jobs[i..]) == Unterminated(jobs)
        invariant unchanged(this)
      {
        assert jobs[i..][0] == jobs[i] && jobs[i..][1..] == jobs[i + 1..];
        ConcatAssoc(kept, [jobs[i]], Unterminated(jobs[i + 1..]));
        if !jobs[i].state.Terminal() { kept := kept + [jobs[i]]; }
        i := i + 1;
      }
      jobs := kept;
      assert Now() == t;
    }

    /** The transfer in flight runs to its end; nothing further is begun. */
    method Pause()
      modifies this`paused
      ensures Now() == Handle(old(Now()), PauseEvent)
      ensures TransferBatches.Promised(old(Now()), PauseEvent, Now())
    {
      TransferBatches.EventKeepsPromise(Now(), PauseEvent);
      paused := true;
    }

    method Resume()
      modifies this
      ensures Now() == Handle(old(Now()), ResumeEvent)
      ensures TransferBatches.Promised(old(Now()), ResumeEvent, Now())
    {
      TransferBatches.EventKeepsPromise(Now(), ResumeEvent);
      if !paused { return; }
      paused := false;
      RunPump();
    }

    // ---------------------------------------------------------------- answers

    method SpaceAnswered(fs: nat, path: string, ancestorsLeft: nat, ok: bool, unsupported: bool)
      modifies this
      ensures Now() == OnSpaceAnswered(old(Now()), fs, path, ancestorsLeft, ok, unsupported)
    {
      var parent := RemotePath.Parent(path);
      var over: bool;
      if ok || unsupported || ancestorsLeft == 0 || parent == "" || parent == path { over := OnPreflightSpace(); }
      else { over := QuerySpaceOf(fs, parent, ancestorsLeft - 1); }
      if over { ClearPreflight(); }
    }

    method SpacePromptAnswered(volume: Option<nat>, proceed: bool)
      modifies this
      ensures Now() == OnSpacePromptAnswered(old(Now()), volume, proceed)
    {
      if !proceed { CancelBatch(volume); }
      ClearPreflight();
    }

    /** One outstanding request is answered. */
    method Deliver(request: Request, r: Reply)
      requires request in out
      modifies this
      ensures Now() == Handle(old(Now()), Answer(request, r))
      ensures TransferBatches.Promised(old(Now()), Answer(request, r), Now())
    {
      TransferBatches.EventKeepsPromise(Now(), Answer(request, r));
      out := out - multiset{request};
      Route(request, r);
    }

    method Route(request: Request, r: Reply)
      modifies this
      ensures Now() == OnAnswer(old(Now()), request, r)
    {
      match request
      case List(dir) => Listed(dir, r.entries, r.endpointGone);
      case QuerySpace(fs, path, left) => SpaceAnswered(fs, path, left, r.ok, r.unsupported);
      case SpacePrompt(volume) => SpacePromptAnswered(volume, r.proceed);
      case MakeDir(_) => RunPump();
      case Stat(id) => ConflictKnown(id, r.found);
      case StatFree(id, candidate, attempt) => FreeNameKnown(id, candidate, attempt, r.found);
      case Prompt(id) => PromptAnswered(id, r.resolution, r.applyToAll);
      case Transfer(id, firstLeg) => LegDone(id, firstLeg, r.ok, r.cancelled);
      case ReadLink(id, mustUnlink) => LinkRead(id, mustUnlink, r.ok);
      case Unlink(id) => Unlinked(id, r.ok);
      case MakeLink(id) => Finish(id, if r.ok then Completed else Failed);
    }
  }
}
