/** What the transfer queue does of its own accord (src/fs/TransferQueue.cpp:256-637, 1004-1132): it looks at the
    destination of a queued job, refuses it, cancels jobs, and adds new ones. Everything else that becomes of a job,
    and every other request about one, is an answer's doing. */
module TransferSchedule {
  import opened Style
  import opened TransferQueue
  import RemotePath

  /** A request about one job. */
  predicate Personal(q: Request) {
    q.Stat? || q.StatFree? || q.Prompt? || q.Transfer? || q.ReadLink? || q.Unlink? || q.MakeLink?
  }

  /** The job is queued, or is not there yet. */
  ghost predicate MayLook(s: State, id: JobId) {
    id >= s.nextId || exists i :: 0 <= i < |s.jobs| && s.jobs[i].id == id && s.jobs[i].state == Queued
  }

  /** If it is about a job, it is a first look at a queued one. */
  ghost predicate LooksAhead(s: State, q: Request) {
    Personal(q) ==> q.Stat? && MayLook(s, q.id)
  }

  predicate StateKept(a: JobState, b: JobState, cancels: bool) {
    b == a || (a == Queued && (b == Checking || b == Failed)) || (cancels && b == Cancelled)
  }

  /** The same job, begun, refused or cancelled at most; only a file system that closes changes its ends. */
  predicate JobKept(a: Job, b: Job, cancels: bool) {
    && b.id == a.id && b.kind == a.kind && b.sourcePath == a.sourcePath && b.destPath == a.destPath && b.destExisted == a.destExisted
    && (!cancels ==> b.source == a.source && b.destination == a.destination)
    && StateKept(a.state, b.state, cancels)
  }

  predicate Added(job: Job, id: JobId) {
    job.id == id && !job.destExisted && !job.state.Completed? && !job.state.Active? && !job.state.AwaitingResolution?
  }

  ghost predicate Sched(s: State, t: State, cancels: bool) {
    && |s.jobs| <= |t.jobs| && t.nextId == s.nextId + |t.jobs| - |s.jobs| && t.config == s.config && s.log <= t.log
    && (forall i | 0 <= i < |s.jobs| :: JobKept(s.jobs[i], t.jobs[i], cancels))
    && (forall i | |s.jobs| <= i < |t.jobs| :: Added(t.jobs[i], s.nextId + i - |s.jobs|))
    && (forall k | |s.log| <= k < |t.log| :: LooksAhead(s, t.log[k].request))
    && (forall q | q in t.out :: q in s.out || LooksAhead(s, q))
  }

  lemma LooksBefore(s: State, t: State, cancels: bool, id: JobId)
    requires Sched(s, t, cancels) && MayLook(t, id)
    ensures MayLook(s, id)
  {
    if i :| 0 <= i < |t.jobs| && t.jobs[i].id == id && t.jobs[i].state == Queued {
      if i < |s.jobs| { assert JobKept(s.jobs[i], t.jobs[i], cancels); } else { assert Added(t.jobs[i], s.nextId + i - |s.jobs|); }
    }
  }

  lemma SchedJobs(s: State, t: State, u: State, cancels: bool)
    requires Sched(s, t, cancels) && Sched(t, u, cancels)
    ensures forall i | 0 <= i < |s.jobs| :: JobKept(s.jobs[i], u.jobs[i], cancels)
    ensures forall i | |s.jobs| <= i < |u.jobs| :: Added(u.jobs[i], s.nextId + i - |s.jobs|)
  {
    forall i | 0 <= i < |s.jobs| ensures JobKept(s.jobs[i], u.jobs[i], cancels) {
      assert JobKept(s.jobs[i], t.jobs[i], cancels) && JobKept(t.jobs[i], u.jobs[i], cancels);
    }
    forall i | |s.jobs| <= i < |u.jobs| ensures Added(u.jobs[i], s.nextId + i - |s.jobs|) {
      if i < |t.jobs| { assert Added(t.jobs[i], s.nextId + i - |s.jobs|) && JobKept(t.jobs[i], u.jobs[i], cancels); }
    }
  }

  lemma SchedComposes(s: State, t: State, u: State, cancels: bool)
    requires Sched(s, t, cancels) && Sched(t, u, cancels)
    ensures Sched(s, u, cancels)
  {
    SchedJobs(s, t, u, cancels);
    forall q | LooksAhead(t, q) ensures LooksAhead(s, q) { if Personal(q) { LooksBefore(s, t, cancels, q.id); } }
    forall k | |s.log| <= k < |u.log| ensures LooksAhead(s, u.log[k].request) {
      if k < |t.log| { assert u.log[k] == t.log[k]; }
    }
  }

  lemma SchedMayCancel(s: State, t: State)
    requires Sched(s, t, false)
    ensures Sched(s, t, true)
  {
    forall i | 0 <= i < |s.jobs| ensures JobKept(s.jobs[i], t.jobs[i], true) { assert JobKept(s.jobs[i], t.jobs[i], false); }
  }

  // ------------------------------------------------------------------- one change at a time

  /** What is about no job, and no job, changes nothing here. */
  predicate SameJobs(s: State, t: State) {
    t.jobs == s.jobs && t.nextId == s.nextId && t.config == s.config
  }

  lemma NothingSched(s: State, t: State)
    requires SameJobs(s, t) && t.log == s.log && t.out <= s.out
    ensures Sched(s, t, false)
  {}

  lemma IssueSched(s: State, q: Request, weighed: bool)
    requires LooksAhead(s, q)
    ensures Sched(s, Issue(s, q, weighed), false)
  {}

  lemma OneJobSched(s: State, i: nat, job: Job, cancels: bool)
    requires i < |s.jobs| && JobKept(s.jobs[i], job, cancels)
    ensures Sched(s, WithJob(s, i, job), cancels)
  {}

  /** A field that none of this looks at. */
  lemma SameStart(s: State, s': State, t: State, cancels: bool)
    requires Sched(s', t, cancels) && SameJobs(s, s') && s'.log == s.log && s'.out <= s.out
    ensures Sched(s, t, cancels)
  {
    forall q | LooksAhead(s', q) ensures LooksAhead(s, q) {
      if Personal(q) && q.id < s.nextId {
        var i :| 0 <= i < |s'.jobs| && s'.jobs[i].id == q.id && s'.jobs[i].state == Queued;
        assert s.jobs[i].id == q.id;
      }
    }
  }

  // ---------------------------------------------------------------------------- the pump

  lemma VerdictSched(s: State)
    ensures Sched(s, Verdict(s).0, false)
  {
    var first := FirstUnchecked(s.jobs);
    if first < |s.jobs| {
      var volume := s.jobs[first].destination.fs;
      var t := s.(jobs := MarkWeighed(s.jobs, volume));
      assert Sched(s, t, false);
      IssueSched(t, SpacePrompt(volume), true);
      SchedComposes(s, t, Issue(t, SpacePrompt(volume), true), false);
    }
  }

  lemma QuerySched(s: State, fs: nat, path: string, left: nat)
    ensures Sched(s, QuerySpaceFrom(s, fs, path, left).0, false)
  {
    VerdictSched(s);
    IssueSched(s, QuerySpace(fs, path, left), true);
  }

  lemma PreflightSched(s: State)
    ensures Sched(s, BeginPreflight(s).0, false) && |BeginPreflight(s).0.jobs| == |s.jobs|
  {
    var t := s.(preflight := CheckingSpace);
    var first := FirstUnchecked(t.jobs);
    if first < |t.jobs| {
      if t.jobs[first].destination.fs.None? {
        OneJobSched(t, first, t.jobs[first].(spaceChecked := true), false);
      } else {
        QuerySched(t, t.jobs[first].destination.fs.value, RemotePath.Parent(t.jobs[first].destPath), MAX_SPACE_PROBE_ANCESTORS);
      }
    }
    SameStart(s, t, BeginPreflight(s).0, false);
  }

  lemma MakingSched(s: State)
    requires s.dirsToCreate != [] && !s.enumerating && !Unweighed(s.jobs)
    ensures Sched(s, CreateNextDirectory(s), false)
  {
    var t := s.(dirsToCreate := s.dirsToCreate[1..]);
    IssueSched(t, MakeDir(s.dirsToCreate[0]), true);
    SameStart(s, t, CreateNextDirectory(s), false);
  }

  lemma LookSched(s: State, i: nat)
    requires i < |s.jobs| && s.jobs[i].state == Queued
    ensures var job := s.jobs[i];
            Sched(s, Issue(WithJob(s.(activeId := job.id), i, job.(state := Checking)), Stat(job.id), job.spaceChecked), false)
  {
    var job := s.jobs[i];
    var t := WithJob(s.(activeId := job.id), i, job.(state := Checking));
    assert JobKept(job, job.(state := Checking), false);
    assert MayLook(s, job.id);
    var u := Issue(t, Stat(job.id), job.spaceChecked);
    assert forall j | 0 <= j < |s.jobs| && j != i :: u.jobs[j] == s.jobs[j];
  }

  lemma {:induction false} PumpSched(s: State)
    ensures Sched(s, Pump(s), false) && |Pump(s).jobs| == |s.jobs|
    decreases QueuedCount(s.jobs), UnweighedCount(s.jobs), if s.preflight == Cleared then 0 else 1
  {
    NothingSched(s, s);
    if !s.enumerating {
      var i := FirstQueued(s.jobs);
      if i == |s.jobs| {
        NoneQueuedNoneUnweighed(s.jobs);
        if s.dirsToCreate != [] { MakingSched(s); }
      } else if s.preflight != Cleared || Unweighed(s.jobs) {
        if s.preflight != CheckingSpace {
          BeginPreflightDecreases(s);
          PreflightSched(s);
          var (next, over) := BeginPreflight(s);
          if over {
            PumpSched(next.(preflight := Cleared));
            ClearedSched(s, next);
          }
        }
      } else if !s.paused && s.activeId == NO_JOB {
        if s.dirsToCreate != [] { MakingSched(s); } else { PumpBeginSched(s, i); }
      }
    }
  }

  lemma ClearedSched(s: State, next: State)
    requires Sched(s, next, false) && Sched(next.(preflight := Cleared), Pump(next.(preflight := Cleared)), false)
    ensures Sched(s, Pump(next.(preflight := Cleared)), false)
  {
    SameStart(next, next.(preflight := Cleared), Pump(next.(preflight := Cleared)), false);
    SchedComposes(s, next, Pump(next.(preflight := Cleared)), false);
  }

  lemma {:induction false} PumpBeginSched(s: State, i: nat)
    requires !s.enumerating && s.preflight == Cleared && !Unweighed(s.jobs)
    requires i == FirstQueued(s.jobs) < |s.jobs| && !s.paused && s.activeId == NO_JOB && s.dirsToCreate == []
    ensures Sched(s, Pump(s), false) && |Pump(s).jobs| == |s.jobs|
    decreases QueuedCount(s.jobs), UnweighedCount(s.jobs), 0, 0
  {
    var job := s.jobs[i];
    if job.source.fs.None? || job.destination.fs.None? {
      var t := Retired(s.(activeId := job.id), i, Failed);
      CountsUpdate(s.jobs, i, job.(state := Failed));
      PumpSched(t);
      RefusedThenSched(s, i, Pump(t));
      assert Pump(s) == Pump(t);
    } else {
      LookSched(s, i);
    }
  }

  lemma RefusedSched(s: State, i: nat)
    requires i < |s.jobs| && s.jobs[i].state == Queued
    ensures Sched(s, Retired(s.(activeId := s.jobs[i].id), i, Failed), false)
  {
    assert JobKept(s.jobs[i], s.jobs[i].(state := Failed), false);
  }

  lemma RefusedThenSched(s: State, i: nat, u: State)
    requires i < |s.jobs| && s.jobs[i].state == Queued && Sched(Retired(s.(activeId := s.jobs[i].id), i, Failed), u, false)
    ensures Sched(s, u, false)
  {
    RefusedSched(s, i);
    SchedComposes(s, Retired(s.(activeId := s.jobs[i].id), i, Failed), u, false);
  }

  /** A pump after a change that has nothing to do with jobs. */
  lemma ThenPumpSched(s: State, s': State)
    requires SameJobs(s, s') && s'.log == s.log && s'.out <= s.out
    ensures Sched(s, Pump(s'), false)
  {
    PumpSched(s');
    SameStart(s, s', Pump(s'), false);
  }

  // ------------------------------------------------------------------ what the pump may ask

  /** A request the pump may make: to look for the first queued job in line, with the slot empty and no directory left, or
      to make the directory that is next, neither while paused; or one of the check for space. */
  ghost predicate MayPump(s: State, q: Request, t: State) {
    match q
    case Stat(id) =>
      && !s.paused && s.activeId == NO_JOB && s.dirsToCreate == [] && t.activeId == id
      && exists i :: 0 <= i < |s.jobs| && i < |t.jobs| && s.jobs[i].id == id && s.jobs[i].state == Queued
                     && forall j | 0 <= j < i :: t.jobs[j].state != Queued
    case MakeDir(create) =>
      && !s.paused && s.activeId == NO_JOB && s.dirsToCreate != [] && create == s.dirsToCreate[0] && t.dirsToCreate == s.dirsToCreate[1..]
    case QuerySpace(_, _, _) => true
    case SpacePrompt(_) => true
    case _ => false
  }

  /** It makes one request at most, such a one, and none while a walk runs. */
  ghost predicate PumpsByRule(s: State, t: State) {
    && s.log <= t.log && |t.log| <= |s.log| + 1 && (s.enumerating ==> t == s) && t.toVisit == s.toVisit
    && (|t.log| == |s.log| + 1 ==> MayPump(s, t.log[|s.log|].request, t))
    && (t.dirsToCreate != s.dirsToCreate ==> |t.log| == |s.log| + 1 && t.log[|s.log|].request.MakeDir?)
  }

  /** The check, or a part of it, with what it asks; only whether jobs are weighed may have changed otherwise. */
  ghost predicate Checks(s: State, t: State, over: bool) {
    && s.log <= t.log && t.dirsToCreate == s.dirsToCreate && t.paused == s.paused && t.activeId == s.activeId
    && t.enumerating == s.enumerating && t.toVisit == s.toVisit && SameLine(s.jobs, t.jobs)
    && (if over then t.log == s.log
        else |t.log| == |s.log| + 1 && (t.log[|s.log|].request.QuerySpace? || t.log[|s.log|].request.SpacePrompt?))
  }

  predicate SameLine(a: seq<Job>, b: seq<Job>) {
    |a| == |b| && forall i | 0 <= i < |a| :: b[i].id == a[i].id && b[i].state == a[i].state
  }

  lemma VerdictAsksOnce(s: State)
    ensures Checks(s, Verdict(s).0, Verdict(s).1)
  {}

  lemma QueryAsksOnce(s: State, fs: nat, path: string, left: nat)
    ensures Checks(s, QuerySpaceFrom(s, fs, path, left).0, QuerySpaceFrom(s, fs, path, left).1)
  {
    VerdictAsksOnce(s);
  }

  lemma CheckAsksOnce(s: State)
    ensures Checks(s, BeginPreflight(s).0, BeginPreflight(s).1)
  {
    var t := s.(preflight := CheckingSpace);
    var first := FirstUnchecked(t.jobs);
    if first < |t.jobs| && t.jobs[first].destination.fs.Some? {
      QueryAsksOnce(t, t.jobs[first].destination.fs.value, RemotePath.Parent(t.jobs[first].destPath), MAX_SPACE_PROBE_ANCESTORS);
    }
  }

  /** What the check leaves is what the rule looks at. */
  lemma CheckedByRule(s: State, next: State, t: State)
    requires Checks(s, next, true) && PumpsByRule(next, t) && !s.enumerating
    ensures PumpsByRule(s, t)
  {}

  lemma {:induction false} PumpKeepsTheRules(s: State)
    ensures PumpsByRule(s, Pump(s))
    decreases QueuedCount(s.jobs), UnweighedCount(s.jobs), if s.preflight == Cleared then 0 else 1
  {
    if !s.enumerating {
      var i := FirstQueued(s.jobs);
      if i == |s.jobs| {
        NoneQueuedNoneUnweighed(s.jobs);
      } else if s.preflight != Cleared || Unweighed(s.jobs) {
        if s.preflight != CheckingSpace {
          BeginPreflightDecreases(s);
          CheckAsksOnce(s);
          var (next, over) := BeginPreflight(s);
          if over {
            PumpKeepsTheRules(next.(preflight := Cleared));
            CheckedByRule(s, next.(preflight := Cleared), Pump(next.(preflight := Cleared)));
          }
        }
      } else if !s.paused && s.activeId == NO_JOB && s.dirsToCreate == [] {
        BeginsByRule(s, i);
      }
    }
  }

  lemma {:induction false} BeginsByRule(s: State, i: nat)
    requires !s.enumerating && s.preflight == Cleared && !Unweighed(s.jobs)
    requires i == FirstQueued(s.jobs) < |s.jobs| && !s.paused && s.activeId == NO_JOB && s.dirsToCreate == []
    ensures PumpsByRule(s, Pump(s))
    decreases QueuedCount(s.jobs), UnweighedCount(s.jobs), 0, 0
  {
    var job := s.jobs[i];
    if job.source.fs.None? || job.destination.fs.None? {
      var t := Retired(s.(activeId := job.id), i, Failed);
      CountsUpdate(s.jobs, i, job.(state := Failed));
      PumpKeepsTheRules(t);
      assert Pump(s) == Pump(t);
      RefusedByRule(s, i, t, Pump(t));
    } else {
      var t := Pump(s);
      assert t.jobs == s.jobs[i := job.(state := Checking)];
    }
  }

  lemma RefusedByRule(s: State, i: nat, t: State, u: State)
    requires i < |s.jobs| && s.jobs[i].state == Queued && t == Retired(s.(activeId := s.jobs[i].id), i, Failed) && s.activeId == NO_JOB
    requires PumpsByRule(t, u) && !s.enumerating
    ensures PumpsByRule(s, u)
  {}

  // -------------------------------------------------------------------------- cancelling

  lemma FreedSched(s: State, id: JobId)
    ensures Sched(s, Pump(SlotFreed(s, id)), false)
  {
    ThenPumpSched(s, SlotFreed(s, id));
  }

  lemma CancelledSched(s: State, i: nat, job: Job)
    requires i < |s.jobs| && JobKept(s.jobs[i], job, true)
    ensures Sched(s, Pump(Retired(WithJob(s, i, job), i, Cancelled)), true)
  {
    var t := Retired(WithJob(s, i, job), i, Cancelled);
    assert JobKept(s.jobs[i], job.(state := Cancelled), true);
    assert Sched(s, t, true);
    PumpSched(t);
    SchedMayCancel(t, Pump(t));
    SchedComposes(s, t, Pump(t), true);
  }

  lemma FinishCancelledSched(s: State, id: JobId)
    ensures Sched(s, FinishJob(s, id, Cancelled), true)
  {
    var i := Index(s.jobs, id);
    if i < |s.jobs| {
      assert s.jobs[i := s.jobs[i]] == s.jobs && WithJob(s, i, s.jobs[i]) == s;
      CancelledSched(s, i, s.jobs[i]);
    } else {
      FreedSched(s, id);
      SchedMayCancel(s, FinishJob(s, id, Cancelled));
    }
  }

  lemma CancelSched(s: State, id: JobId)
    ensures Sched(s, CancelJob(s, id), true)
  {
    FinishCancelledSched(s, id);
    NothingSched(s, s);
    NothingSched(s, s.(cancellingActive := true));
    SchedMayCancel(s, s);
    SchedMayCancel(s, s.(cancellingActive := true));
  }

  lemma {:induction false} CancelsSched(s: State, ids: seq<JobId>)
    ensures Sched(s, CancelJobs(s, ids), true)
    decreases |ids|
  {
    if ids == [] {
      NothingSched(s, s);
      SchedMayCancel(s, s);
    } else {
      CancelSched(s, ids[0]);
      CancelsSched(CancelJob(s, ids[0]), ids[1..]);
      SchedComposes(s, CancelJob(s, ids[0]), CancelJobs(s, ids), true);
    }
  }

  lemma DropSched(s: State, id: JobId, fs: nat)
    ensures Sched(s, DropJob(s, id, fs), true)
  {
    var i := Index(s.jobs, id);
    if i == |s.jobs| { FinishCancelledSched(s, id); return; }
    var job := Parted(s.jobs[i], fs);
    var t := WithJob(s, i, job);
    assert t.jobs[i].id == id && forall j | 0 <= j < i :: t.jobs[j].id == s.jobs[j].id;
    assert Index(t.jobs, id) == i by { assert Index(t.jobs, id) <= i && Index(t.jobs, id) >= i; }
    CancelledSched(s, i, job);
  }

  lemma {:induction false} DropsSched(s: State, ids: seq<JobId>, fs: nat)
    ensures Sched(s, DropJobs(s, ids, fs), true)
    decreases |ids|
  {
    if ids == [] {
      NothingSched(s, s);
      SchedMayCancel(s, s);
    } else {
      DropSched(s, ids[0], fs);
      DropsSched(DropJob(s, ids[0], fs), ids[1..], fs);
      SchedComposes(s, DropJob(s, ids[0], fs), DropJobs(s, ids, fs), true);
    }
  }

  lemma BatchSched(s: State, volume: Option<nat>)
    ensures Sched(s, CancelBatchFor(s, volume), true)
  {
    var d := DropPendingFor(s, volume);
    CancelsSched(d, Unfinished(s.jobs, Some(volume)));
    SameStart(s, d, CancelBatchFor(s, volume), true);
  }

  lemma RetirementSched(s: State, e: Event)
    requires IsRetirement(e)
    ensures Sched(s, OnRetirement(s, e), true)
  {
    match e
    case CancelEvent(id) => CancelSched(s, id);
    case CancelAllEvent =>
      CancelsSched(DropPending(s), Unfinished(s.jobs, None));
      SameStart(s, DropPending(s), CancelAll(s), true);
    case CancelBatchEvent(volume) => BatchSched(s, volume);
    case CloseEvent(fs) => DropsSched(s, Unfinishing(s.jobs, fs), fs);
  }

  // ---------------------------------------------------------------------- new work

  lemma AddSched(s: State, job: Job)
    requires Added(job, NO_JOB)
    ensures Sched(s, AddJob(s, job), false)
  {
    var t := WithNewJob(s, job);
    assert forall i | 0 <= i < |s.jobs| :: t.jobs[i] == s.jobs[i];
    assert Sched(s, t, false);
    PumpSched(t);
    SchedComposes(s, t, Pump(t), false);
  }

  lemma AbsorbOneSched(s: State, dir: PendingDir, e: Info)
    ensures Sched(s, AbsorbOne(s, dir, e), false)
  {
    var src, dst := RemotePath.Join(dir.sourcePath, e.name), RemotePath.Join(dir.destPath, e.name);
    NothingSched(s, AbsorbOne(s, dir, e).(jobs := s.jobs, nextId := s.nextId, log := s.log, out := s.out, config := s.config));
    if e.isSymlink {
      AddSched(s, NewJob(LinkJob, dir.source, src, dir.destination, dst, if s.config.skipLinks then Skipped else Queued));
    } else if !e.isDir {
      AddSched(s, NewJob(Copy, dir.source, src, dir.destination, dst, Queued));
    } else {
      NothingSched(s, AbsorbOne(s, dir, e));
    }
  }

  lemma {:induction false} AbsorbSched(s: State, dir: PendingDir, entries: seq<Info>)
    ensures Sched(s, AbsorbEntries(s, dir, entries), false)
    decreases |entries|
  {
    if entries == [] {
      NothingSched(s, s);
    } else {
      AbsorbOneSched(s, dir, entries[0]);
      AbsorbSched(AbsorbOne(s, dir, entries[0]), dir, entries[1..]);
      SchedComposes(s, AbsorbOne(s, dir, entries[0]), AbsorbEntries(s, dir, entries), false);
    }
  }

  lemma StepSched(s: State)
    ensures Sched(s, StepEnumeration(s), false)
  {
    if s.toVisit == [] {
      ThenPumpSched(s, s.(enumerating := false, enumCancelled := false));
    } else {
      var t := s.(toVisit := s.toVisit[1..]);
      IssueSched(t, List(s.toVisit[0]), true);
      SameStart(s, t, StepEnumeration(s), false);
    }
  }

  lemma ListedSched(s: State, dir: PendingDir, entries: seq<Info>, endpointGone: bool)
    ensures Sched(s, OnListed(s, dir, entries, endpointGone), false)
  {
    if s.enumCancelled { StepSched(s); return; }
    var start := if endpointGone then s.(toVisit := []) else s;
    var t := AbsorbListing(s, dir, entries, endpointGone);
    AbsorbSched(start, dir, entries);
    SameStart(s, start, t, false);
    StepSched(t);
    SchedComposes(s, t, StepEnumeration(t), false);
  }

  lemma EnqueueSched(s: State, source: Endpoint, item: Info, path: string, destination: Endpoint, destDir: string)
    ensures Sched(s, EnqueueItem(s, source, item, path, destination, destDir), false)
  {
    var dest := RemotePath.Join(destDir, item.name);
    NothingSched(s, s);
    if item.isSymlink {
      AddSched(s, NewJob(LinkJob, source, path, destination, dest, if s.config.skipLinks then Skipped else Queued));
    } else if !item.isDir {
      AddSched(s, NewJob(Copy, source, path, destination, dest, Queued));
    } else {
      var t := s.(toVisit := s.toVisit + [PendingDir(source, destination, path, dest, 0)],
                  dirsToCreate := s.dirsToCreate + [DirCreate(destination, dest)]);
      NothingSched(s, t);
      StepSched(t.(enumerating := true));
      SameStart(s, t.(enumerating := true), StepEnumeration(t.(enumerating := true)), false);
    }
  }

  // --------------------------------------------------------- answers about no job

  lemma SettledSched(s: State, r: (State, bool))
    requires Sched(s, r.0, false)
    ensures Sched(s, Settled(r), false)
  {
    if r.1 {
      ThenPumpSched(r.0, r.0.(preflight := Cleared));
      SchedComposes(s, r.0, Settled(r), false);
    }
  }

  lemma SpaceSched(s: State, fs: nat, path: string, left: nat, ok: bool, unsupported: bool)
    ensures Sched(s, OnSpaceAnswered(s, fs, path, left, ok, unsupported), false)
  {
    var parent := RemotePath.Parent(path);
    VerdictSched(s);
    if left > 0 { QuerySched(s, fs, parent, left - 1); }
    SettledSched(s, SpaceKnown(s, fs, path, parent, left, ok, unsupported));
  }

  lemma SpacePromptSched(s: State, volume: Option<nat>, proceed: bool)
    ensures Sched(s, OnSpacePromptAnswered(s, volume, proceed), true)
  {
    var t := if proceed then s else CancelBatchFor(s, volume);
    NothingSched(s, s);
    SchedMayCancel(s, s);
    BatchSched(s, volume);
    ThenPumpSched(t, t.(preflight := Cleared));
    SchedMayCancel(t, OnSpacePromptAnswered(s, volume, proceed));
    SchedComposes(s, t, OnSpacePromptAnswered(s, volume, proceed), true);
  }

  predicate Impersonal(e: Event) {
    (e.Answer? ==> !Personal(e.request)) && !e.ClearFinishedEvent? && !e.ConfigureEvent?
  }

  /** Only a decline and a retirement cancel anything. */
  predicate MayCancel(e: Event) {
    IsRetirement(e) || (e.Answer? && e.request.SpacePrompt?)
  }

  /** Whatever happens that is not an answer about a job, the queue only schedules. */
  lemma ImpersonalSched(s: State, e: Event)
    requires Possible(s, e) && Impersonal(e)
    ensures Sched(s, Handle(s, e), MayCancel(e))
  {
    match e
    case Answer(q, r) => ImpersonalAnswerSched(s, q, r);
    case EnqueueEvent(source, item, path, destination, destDir) => EnqueueSched(s, source, item, path, destination, destDir);
    case PauseEvent => NothingSched(s, s.(paused := true));
    case ResumeEvent =>
      NothingSched(s, s);
      ThenPumpSched(s, s.(paused := false));
    case _ => RetirementSched(s, e);
  }

  lemma ImpersonalAnswerSched(s: State, q: Request, r: Reply)
    requires q in s.out && !Personal(q)
    ensures Sched(s, Handle(s, Answer(q, r)), q.SpacePrompt?)
  {
    OnAnswerSched(Answered(s, q), q, r);
    SameStart(s, Answered(s, q), Handle(s, Answer(q, r)), q.SpacePrompt?);
  }

  lemma OnAnswerSched(s: State, q: Request, r: Reply)
    requires !Personal(q)
    ensures Sched(s, OnAnswer(s, q, r), q.SpacePrompt?)
  {
    match q
    case List(dir) => ListedSched(s, dir, r.entries, r.endpointGone);
    case QuerySpace(fs, path, left) => SpaceSched(s, fs, path, left, r.ok, r.unsupported);
    case SpacePrompt(volume) => SpacePromptSched(s, volume, r.proceed);
    case MakeDir(_) => PumpSched(s);
  }
}
