/** Which jobs each retirement retires, and what new work adds (src/fs/TransferQueue.cpp:117-249, 1025-1123). */
module TransferRetirements {
  import opened Style
  import opened TransferQueue
  import opened TransferTargets
  import opened TransferSchedule
  import opened TransferConflicts
  import RemotePath

  /** Whom the user, or a file system that goes away, wants rid of. */
  predicate Wanted(job: Job, e: Event)
    requires IsRetirement(e)
  {
    && !job.state.Terminal()
    && match e
       case CancelEvent(id) => job.id == id
       case CancelAllEvent => true
       case CancelBatchEvent(volume) => job.destination.fs == volume
       case CloseEvent(fs) => job.source.fs == Some(fs) || job.destination.fs == Some(fs)
  }

  /** One that is wanted retires as cancelled, unless the pump has refused it by then or the transport is asked to stop it;
      one whose file system goes away does so in any case, and loses it. Any other is looked at or refused at most. */
  predicate Served(a: Job, b: Job, wanted: bool, closing: bool) {
    && b.id == a.id && b.destPath == a.destPath
    && if !wanted then JobKept(a, b, false)
       else || b.state == Cancelled
            || (!closing && ((a.state == Queued && b.state == Failed) || (a.state == Active && b.state == Active)))
  }

  ghost predicate AllServed(s: State, t: State, ids: seq<JobId>, closing: bool) {
    && |t.jobs| == |s.jobs| && t.nextId == s.nextId
    && forall i | 0 <= i < |s.jobs| :: Served(s.jobs[i], t.jobs[i], s.jobs[i].id in ids && !s.jobs[i].state.Terminal(), closing)
  }

  lemma SameIds(s: State, t: State, ids: seq<JobId>, closing: bool)
    requires Numbered(s.jobs, s.nextId) && AllServed(s, t, ids, closing)
    ensures Numbered(t.jobs, t.nextId)
  {
    forall i | 0 <= i < |s.jobs| ensures t.jobs[i].id == s.jobs[i].id {
      assert Served(s.jobs[i], t.jobs[i], s.jobs[i].id in ids && !s.jobs[i].state.Terminal(), closing);
    }
  }

  lemma OneCancelled(s: State, id: JobId)
    requires Numbered(s.jobs, s.nextId)
    ensures AllServed(s, CancelJob(s, id), [id], false)
  {
    var i, t := Index(s.jobs, id), CancelJob(s, id);
    if i < |s.jobs| && !s.jobs[i].state.Terminal() && !TransportOwns(s, i) { EndedByFinishing(s, i, id, Cancelled); }
    forall j | 0 <= j < |s.jobs| ensures Served(s.jobs[j], t.jobs[j], s.jobs[j].id in [id] && !s.jobs[j].state.Terminal(), false) {
      if j != i { assert i < |s.jobs| ==> s.jobs[j].id != id; }
    }
  }

  lemma ServedBoth(a: Job, b: Job, c: Job, first: JobId, rest: seq<JobId>)
    requires Served(a, b, a.id in [first] && !a.state.Terminal(), false)
    requires Served(b, c, b.id in rest && !b.state.Terminal(), false)
    ensures Served(a, c, a.id in [first] + rest && !a.state.Terminal(), false)
  {}

  /** Retired along the way, wanted or not, a job stays so. */
  lemma {:induction false} AllCancelled(s: State, ids: seq<JobId>)
    requires Numbered(s.jobs, s.nextId)
    ensures AllServed(s, CancelJobs(s, ids), ids, false)
    decreases |ids|
  {
    if ids == [] { return; }
    var u, t := CancelJob(s, ids[0]), CancelJobs(s, ids);
    OneCancelled(s, ids[0]);
    SameIds(s, u, [ids[0]], false);
    AllCancelled(u, ids[1..]);
    assert ids == [ids[0]] + ids[1..];
    forall i | 0 <= i < |s.jobs| ensures Served(s.jobs[i], t.jobs[i], s.jobs[i].id in ids && !s.jobs[i].state.Terminal(), false) {
      ServedBoth(s.jobs[i], u.jobs[i], t.jobs[i], ids[0], ids[1..]);
    }
  }

  ghost predicate AllDropped(s: State, t: State, ids: seq<JobId>) {
    && |t.jobs| == |s.jobs| && t.nextId == s.nextId
    && forall i | 0 <= i < |s.jobs| :: Served(s.jobs[i], t.jobs[i], s.jobs[i].id in ids, true)
  }

  lemma OneDropped(s: State, id: JobId, fs: nat)
    requires Numbered(s.jobs, s.nextId)
    ensures AllDropped(s, DropJob(s, id, fs), [id])
  {
    var i, t := Index(s.jobs, id), DropJob(s, id, fs);
    if i == |s.jobs| {
      PumpSched(SlotFreed(s, id));
      assert forall j | 0 <= j < |s.jobs| :: s.jobs[j].id != id && JobKept(SlotFreed(s, id).jobs[j], t.jobs[j], false);
      return;
    }
    var u := WithJob(s, i, Parted(s.jobs[i], fs));
    StillHere(s, i, id, u.jobs[i]);
    EndedByFinishing(u, i, id, Cancelled);
    forall j | 0 <= j < |s.jobs| ensures Served(s.jobs[j], t.jobs[j], s.jobs[j].id in [id], true) {
      if j != i { assert s.jobs[j].id != id && u.jobs[j] == s.jobs[j] && JobKept(u.jobs[j], t.jobs[j], false); }
    }
  }

  lemma DroppedBoth(a: Job, b: Job, c: Job, first: JobId, rest: seq<JobId>)
    requires Served(a, b, a.id in [first], true) && Served(b, c, b.id in rest, true)
    ensures Served(a, c, a.id in [first] + rest, true)
  {}

  lemma {:induction false} AllAreDropped(s: State, ids: seq<JobId>, fs: nat)
    requires Numbered(s.jobs, s.nextId)
    ensures AllDropped(s, DropJobs(s, ids, fs), ids)
    decreases |ids|
  {
    if ids == [] { return; }
    var u, t := DropJob(s, ids[0], fs), DropJobs(s, ids, fs);
    OneDropped(s, ids[0], fs);
    forall i | 0 <= i < |s.jobs| ensures u.jobs[i].id == s.jobs[i].id { assert Served(s.jobs[i], u.jobs[i], s.jobs[i].id in [ids[0]], true); }
    AllAreDropped(u, ids[1..], fs);
    assert ids == [ids[0]] + ids[1..];
    forall i | 0 <= i < |s.jobs| ensures Served(s.jobs[i], t.jobs[i], s.jobs[i].id in ids, true) {
      DroppedBoth(s.jobs[i], u.jobs[i], t.jobs[i], ids[0], ids[1..]);
    }
  }

  // --------------------------------------------------------------- the snapshots of ids

  lemma {:induction false} UnfinishedAre(jobs: seq<Job>, volume: Option<Option<nat>>, id: JobId)
    ensures id in Unfinished(jobs, volume) <==>
            exists i :: 0 <= i < |jobs| && jobs[i].id == id && !jobs[i].state.Terminal() && (volume.None? || jobs[i].destination.fs == volume.value)
    decreases |jobs|
  {
    if jobs != [] {
      UnfinishedAre(jobs[1..], volume, id);
      assert forall i | 0 < i < |jobs| :: jobs[i] == jobs[1..][i - 1];
    }
  }

  lemma {:induction false} UnfinishingAre(jobs: seq<Job>, fs: nat, id: JobId)
    ensures id in Unfinishing(jobs, fs) <==>
            exists i :: 0 <= i < |jobs| && jobs[i].id == id && !jobs[i].state.Terminal() && (jobs[i].source.fs == Some(fs) || jobs[i].destination.fs == Some(fs))
    decreases |jobs|
  {
    if jobs != [] {
      UnfinishingAre(jobs[1..], fs, id);
      assert forall i | 0 < i < |jobs| :: jobs[i] == jobs[1..][i - 1];
    }
  }

  /** The ids an event takes down before it begins. */
  function Taken(s: State, e: Event): seq<JobId>
    requires IsRetirement(e)
  {
    match e
    case CancelEvent(id) => [id]
    case CancelAllEvent => Unfinished(s.jobs, None)
    case CancelBatchEvent(volume) => Unfinished(s.jobs, Some(volume))
    case CloseEvent(fs) => Unfinishing(s.jobs, fs)
  }

  lemma TakenAreWanted(s: State, e: Event, i: nat)
    requires Numbered(s.jobs, s.nextId) && IsRetirement(e) && i < |s.jobs|
    ensures s.jobs[i].id in Taken(s, e) && !s.jobs[i].state.Terminal() <==> Wanted(s.jobs[i], e)
    ensures e.CloseEvent? ==> (s.jobs[i].id in Taken(s, e) <==> Wanted(s.jobs[i], e))
  {
    UnfinishedAre(s.jobs, None, s.jobs[i].id);
    if e.CancelBatchEvent? { UnfinishedAre(s.jobs, Some(e.volume), s.jobs[i].id); }
    if e.CloseEvent? { UnfinishingAre(s.jobs, e.fs, s.jobs[i].id); }
  }

  /** A retirement retires those it wants rid of, as the queue was before it, and no others, whatever the pump does in
      between. */
  lemma RetirementServes(s: State, e: Event, i: nat)
    requires Numbered(s.jobs, s.nextId) && IsRetirement(e) && i < |s.jobs|
    ensures var t := Handle(s, e); |t.jobs| == |s.jobs| && Served(s.jobs[i], t.jobs[i], Wanted(s.jobs[i], e), e.CloseEvent?)
  {
    TakenAreWanted(s, e, i);
    match e
    case CancelEvent(id) => OneCancelled(s, id);
    case CancelAllEvent => AllCancelled(DropPending(s), Taken(s, e));
    case CancelBatchEvent(volume) => AllCancelled(DropPendingFor(s, volume), Taken(s, e));
    case CloseEvent(fs) => AllAreDropped(s, Taken(s, e), fs);
  }

  // ------------------------------------------------------------------- what was pending

  lemma {:induction false} ElsewhereAre(toVisit: seq<PendingDir>, dirs: seq<DirCreate>, volume: Option<nat>)
    ensures forall d :: multiset(VisitsElsewhere(toVisit, volume))[d] == if d.destination.fs == volume then 0 else multiset(toVisit)[d]
    ensures forall c :: multiset(DirsElsewhere(dirs, volume))[c] == if c.destination.fs == volume then 0 else multiset(dirs)[c]
    decreases |toVisit| + |dirs|
  {
    if toVisit != [] {
      assert toVisit == [toVisit[0]] + toVisit[1..];
      ElsewhereAre(toVisit[1..], dirs, volume);
    } else if dirs != [] {
      assert dirs == [dirs[0]] + dirs[1..];
      ElsewhereAre([], dirs[1..], volume);
    }
  }

  /** The line of visits is as it was, and of the directories the first ones may have been made. */
  ghost predicate LineKept(s: State, t: State) {
    t.toVisit == s.toVisit && exists made :: MadeFirst(s.dirsToCreate, t.dirsToCreate, made)
  }

  predicate MadeFirst(dirs: seq<DirCreate>, left: seq<DirCreate>, made: nat) {
    made <= |dirs| && left == dirs[made..]
  }

  lemma LineKeptBoth(s: State, t: State, u: State)
    requires LineKept(s, t) && LineKept(t, u)
    ensures LineKept(s, u)
  {
    var first: nat :| MadeFirst(s.dirsToCreate, t.dirsToCreate, first);
    var more: nat :| MadeFirst(t.dirsToCreate, u.dirsToCreate, more);
    assert MadeFirst(s.dirsToCreate, u.dirsToCreate, first + more);
  }

  lemma NoneMade(s: State, t: State)
    requires t.toVisit == s.toVisit && t.dirsToCreate == s.dirsToCreate
    ensures LineKept(s, t)
  {
    assert MadeFirst(s.dirsToCreate, t.dirsToCreate, 0);
  }

  lemma OneKeepsLine(s: State, id: JobId)
    ensures LineKept(s, CancelJob(s, id))
  {
    var i, t := Index(s.jobs, id), CancelJob(s, id);
    if i < |s.jobs| && !s.jobs[i].state.Terminal() && !TransportOwns(s, i) {
      var u := Retired(s, i, Cancelled);
      PumpKeepsTheRules(u);
      if t.dirsToCreate != s.dirsToCreate { assert MadeFirst(s.dirsToCreate, t.dirsToCreate, 1); } else { NoneMade(s, t); }
    } else {
      NoneMade(s, t);
    }
  }

  lemma {:induction false} CancelsKeepLine(s: State, ids: seq<JobId>)
    ensures LineKept(s, CancelJobs(s, ids))
    decreases |ids|
  {
    if ids == [] { NoneMade(s, s); return; }
    OneKeepsLine(s, ids[0]);
    CancelsKeepLine(CancelJob(s, ids[0]), ids[1..]);
    LineKeptBoth(s, CancelJob(s, ids[0]), CancelJobs(s, ids));
  }

  /** Nothing pending is left but what is meant for elsewhere; and of that directories may have been made. */
  ghost predicate PendingLeft(s: State, t: State, volume: Option<Option<nat>>) {
    if volume.None? then t.toVisit == [] && t.dirsToCreate == []
    else
      && t.toVisit == VisitsElsewhere(s.toVisit, volume.value)
      && exists made :: MadeFirst(DirsElsewhere(s.dirsToCreate, volume.value), t.dirsToCreate, made)
  }

  lemma AllIsDropped(s: State)
    ensures PendingLeft(s, CancelAll(s), None)
  {
    var d := DropPending(s);
    CancelsKeepLine(d, Unfinished(s.jobs, None));
    var made: nat :| MadeFirst(d.dirsToCreate, CancelAll(s).dirsToCreate, made);
  }

  lemma VolumeIsDropped(s: State, volume: Option<nat>)
    ensures PendingLeft(s, CancelBatchFor(s, volume), Some(volume))
  {
    var d := DropPendingFor(s, volume);
    CancelsKeepLine(d, Unfinished(s.jobs, Some(volume)));
    var made: nat :| MadeFirst(d.dirsToCreate, CancelBatchFor(s, volume).dirsToCreate, made);
  }

  /** Cancelling everything leaves nothing pending, and cancelling what is bound for a volume leaves exactly what is
      bound for others, in order. */
  lemma PendingIsDropped(s: State, e: Event)
    requires e.CancelAllEvent? || e.CancelBatchEvent?
    ensures PendingLeft(s, Handle(s, e), if e.CancelAllEvent? then None else Some(e.volume))
  {
    if e.CancelAllEvent? { AllIsDropped(s); } else { VolumeIsDropped(s, e.volume); }
  }

  // ----------------------------------------------------------------------- new work

  /** What a file or a link that was asked for becomes: one job at the end of the line, from its path to a path of its own
      name in the directory; a link's is skipped at once if links are. */
  function JobFor(e: Event, id: JobId, skipLinks: bool): Job
    requires e.EnqueueEvent?
  {
    Job(id, if e.item.isSymlink then LinkJob else Copy, e.source, e.destination, e.path, RemotePath.Join(e.destDir, e.item.name),
        if e.item.isSymlink && skipLinks then Skipped else Queued, false, false)
  }

  lemma NewWorkIsQueued(s: State, e: Event)
    requires e.EnqueueEvent? && (e.item.isSymlink || !e.item.isDir)
    ensures var t, n := Handle(s, e), |s.jobs|;
            && |t.jobs| == n + 1 && t.nextId == s.nextId + 1 && JobKept(JobFor(e, s.nextId, s.config.skipLinks), t.jobs[n], false)
            && forall i | 0 <= i < n :: JobKept(s.jobs[i], t.jobs[i], false)
  {
    QueuedThenPumped(s, e);
    PumpedAfterwards(s, JobFor(e, s.nextId, s.config.skipLinks));
  }

  lemma QueuedThenPumped(s: State, e: Event)
    requires e.EnqueueEvent? && (e.item.isSymlink || !e.item.isDir)
    ensures Handle(s, e) == Pump(s.(jobs := s.jobs + [JobFor(e, s.nextId, s.config.skipLinks)], nextId := s.nextId + 1))
  {}

  lemma PumpedAfterwards(s: State, job: Job)
    ensures var t, n := Pump(s.(jobs := s.jobs + [job], nextId := s.nextId + 1)), |s.jobs|;
            && |t.jobs| == n + 1 && t.nextId == s.nextId + 1 && JobKept(job, t.jobs[n], false)
            && forall i | 0 <= i < n :: JobKept(s.jobs[i], t.jobs[i], false)
  {
    var u := s.(jobs := s.jobs + [job], nextId := s.nextId + 1);
    PumpSched(u);
    forall i | 0 <= i < |u.jobs| ensures JobKept(u.jobs[i], Pump(u).jobs[i], false) {}
    assert forall i | 0 <= i < |s.jobs| :: u.jobs[i] == s.jobs[i];
  }
}
