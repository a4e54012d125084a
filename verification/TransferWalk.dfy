/** The walk over the trees asked for: what becomes of one that was accepted, whatever else the queue is told
    (src/fs/TransferQueue.cpp:155-340). */
module TransferWalk {
  import opened Style
  import opened TransferQueue
  import opened TransferSafety
  import opened TransferDrain
  import opened TransferTargets
  import opened TransferDrive
  import RemotePath

  // ------------------------------------------------------- what leaves the walk alone

  predicate SameWalk(s: State, t: State) {
    t.enumerating == s.enumerating && t.enumCancelled == s.enumCancelled && t.toVisit == s.toVisit && (s.enumerating ==> t.out == s.out)
  }

  lemma {:induction false} PumpLeavesWalk(s: State)
    ensures SameWalk(s, Pump(s))
    decreases QueuedCount(s.jobs), UnweighedCount(s.jobs), if s.preflight == Cleared then 0 else 1
  {
    if !s.enumerating && FirstQueued(s.jobs) < |s.jobs| {
      var i := FirstQueued(s.jobs);
      if s.preflight != Cleared || Unweighed(s.jobs) {
        if s.preflight != CheckingSpace {
          BeginPreflightDecreases(s);
          PreflightSameWalk(s);
          if BeginPreflight(s).1 { PumpLeavesWalk(BeginPreflight(s).0.(preflight := Cleared)); }
        }
      } else if !s.paused && s.activeId == NO_JOB && s.dirsToCreate == [] {
        CountsUpdate(s.jobs, i, s.jobs[i].(state := Failed));
        PumpLeavesWalk(Retired(s.(activeId := s.jobs[i].id), i, Failed));
      }
    }
  }

  lemma PreflightSameWalk(s: State)
    requires !s.enumerating
    ensures SameWalk(s, BeginPreflight(s).0)
  {
    PreflightLeavesRest(s);
  }

  lemma {:induction false} ClosingLeavesWalk(s: State, ids: seq<JobId>, fs: nat)
    ensures SameWalk(s, DropJobs(s, ids, fs))
    decreases |ids|
  {
    if ids != [] {
      DropLeavesWalk(s, ids[0], fs);
      ClosingLeavesWalk(DropJob(s, ids[0], fs), ids[1..], fs);
    }
  }

  lemma DropLeavesWalk(s: State, id: JobId, fs: nat)
    ensures SameWalk(s, DropJob(s, id, fs))
  {
    var i := Index(s.jobs, id);
    if i == |s.jobs| { PumpLeavesWalk(SlotFreed(s, id)); return; }
    DropIsPump(s, id, fs);
    PumpLeavesWalk(SlotFreed(Dropped(s, i, fs), id));
  }

  /** The walk stands where it stood, and while it runs no check is started. */
  ghost predicate WalkStays(s: State, t: State) {
    && t.enumerating == s.enumerating && t.enumCancelled == s.enumCancelled && t.toVisit == s.toVisit
    && (s.enumerating ==> (forall dir :: List(dir) in t.out <==> List(dir) in s.out) && (t.preflight == CheckingSpace ==> s.preflight == CheckingSpace))
  }

  lemma StaysThenStays(s: State, t: State, u: State)
    requires WalkStays(s, t) && WalkStays(t, u)
    ensures WalkStays(s, u)
  {}

  lemma PumpStays(s: State)
    ensures WalkStays(s, Pump(s))
  {
    PumpLeavesWalk(s);
  }

  lemma FinishStays(s: State, id: JobId, outcome: JobState)
    ensures WalkStays(s, FinishJob(s, id, outcome))
  {
    var i := Index(s.jobs, id);
    PumpStays(if i < |s.jobs| then Retired(s, i, outcome) else SlotFreed(s, id));
  }

  lemma AbandonStays(s: State)
    ensures WalkStays(s, Abandon(s))
  {
    PumpStays(s.(activeId := NO_JOB));
  }

  lemma AskingStays(s: State, owner: Option<nat>, q: Request)
    requires !q.List?
    ensures WalkStays(s, Issue(s.(activeOwner := owner), q, true)) && WalkStays(s, Issue(s, q, true))
  {}

  lemma LaunchStays(s: State, id: JobId, job: Job)
    ensures WalkStays(s, Launched(s, id, job))
  {
    if job.kind == LinkJob { AskingStays(s, None, ReadLink(id, job.destExisted)); return; }
    if job.destination.IsLocalDisk() { AskingStays(s, job.source.fs, Transfer(id, false)); return; }
    if job.source.IsLocalDisk() { AskingStays(s, job.destination.fs, Transfer(id, false)); return; }
    if !s.config.relayRoot { FinishStays(s, id, Failed); return; }
    AskingStays(s, job.source.fs, Transfer(id, true));
  }

  lemma StartStays(s: State, id: JobId)
    ensures WalkStays(s, StartTransfer(s, id))
  {
    var i := Index(s.jobs, id);
    if i == |s.jobs| { AbandonStays(s); return; }
    var job := s.jobs[i].(state := Active);
    LaunchStays(WithJob(s, i, job), id, job);
  }

  lemma NameStays(s: State, id: JobId, candidate: string, attempt: nat)
    ensures WalkStays(s, Issue(s, StatFree(id, candidate, attempt), true))
  {}

  lemma FreeNameStays(s: State, id: JobId, attempt: nat)
    ensures WalkStays(s, ResolveFreeName(s, id, attempt))
  {
    AbandonStays(s);
    FinishStays(s, id, Failed);
    forall candidate: string { NameStays(s, id, candidate, attempt); }
  }

  lemma ResolveStays(s: State, id: JobId, resolution: Resolution)
    ensures WalkStays(s, Resolve(s, id, resolution))
  {
    if resolution == Overwrite { StartStays(s, id); }
    else if resolution == Skip { FinishStays(s, id, Skipped); }
    else { FreeNameStays(s, id, 1); }
  }

  lemma ConflictStays(s: State, id: JobId, found: bool)
    ensures WalkStays(s, OnConflictKnown(s, id, found))
  {
    var i := Index(s.jobs, id);
    if i == |s.jobs| || s.jobs[i].state != Checking { AbandonStays(s); return; }
    if !found { StartStays(s, id); return; }
    var t := WithJob(s, i, s.jobs[i].(destExisted := true));
    IdsFound(s.jobs, t.jobs, id);
    if t.config.policy != Ask { ResolveStays(t, id, t.config.policy); return; }
    if !t.config.hasPrompt { FinishStays(t, id, Skipped); return; }
  }

  lemma FreeNameAnswerStays(s: State, id: JobId, candidate: string, attempt: nat, found: bool)
    ensures WalkStays(s, OnFreeNameKnown(s, id, candidate, attempt, found))
  {
    if found { FreeNameStays(s, id, attempt + 1); return; }
    var i := Index(s.jobs, id);
    StartStays(if i < |s.jobs| then WithJob(s, i, s.jobs[i].(destPath := candidate, destExisted := false)) else s, id);
  }

  lemma PromptStays(s: State, id: JobId, resolution: Resolution, applyToAll: bool)
    ensures WalkStays(s, OnPromptAnswered(s, id, resolution, applyToAll))
  {
    ResolveStays(if applyToAll then s.(config := s.config.(policy := resolution)) else s, id, resolution);
  }

  lemma LinkStays(s: State, id: JobId, mustUnlink: bool, ok: bool)
    ensures WalkStays(s, OnLinkRead(s, id, mustUnlink, ok)) && WalkStays(s, OnUnlinked(s, id, ok))
  {
    AbandonStays(s);
    FinishStays(s, id, Failed);
  }

  lemma LegStays(s: State, id: JobId, firstLeg: bool, ok: bool, cancelled: bool)
    ensures WalkStays(s, OnLegDone(s, id, firstLeg, ok, cancelled))
  {
    AbandonStays(s);
    FinishStays(s, id, if ok then Completed else if cancelled then Cancelled else Failed);
  }

  lemma JobAnswerStays(s: State, q: Request, r: Reply)
    requires (ClassOf(q) == Calling || ClassOf(q) == Prompting)
    ensures WalkStays(s, OnAnswer(s, q, r))
  {
    match q {
      case Stat(id) => ConflictStays(s, id, r.found); return;
      case StatFree(id, candidate, attempt) => FreeNameAnswerStays(s, id, candidate, attempt, r.found); return;
      case Prompt(id) => PromptStays(s, id, r.resolution, r.applyToAll); return;
      case Transfer(id, firstLeg) => LegStays(s, id, firstLeg, r.ok, r.cancelled); return;
      case ReadLink(id, mustUnlink) => LinkStays(s, id, mustUnlink, r.ok); return;
      case Unlink(id) => LinkStays(s, id, false, r.ok); return;
      case MakeLink(id) => FinishStays(s, id, if r.ok then Completed else Failed); return;
    }
  }

  lemma {:induction false} CancelsStay(s: State, ids: seq<JobId>)
    ensures WalkStays(s, CancelJobs(s, ids))
    decreases |ids|
  {
    if ids != [] {
      CancelStays(s, ids[0]);
      CancelsStay(CancelJob(s, ids[0]), ids[1..]);
      StaysThenStays(s, CancelJob(s, ids[0]), CancelJobs(s, ids));
    }
  }

  lemma CancelStays(s: State, id: JobId)
    ensures WalkStays(s, CancelJob(s, id))
  {
    FinishStays(s, id, Cancelled);
  }

  // ----------------------------------------------------------- what a listing brings

  /** The directories among the rows, unless they lie too deep. */
  function FoundDirs(dir: PendingDir, entries: seq<Info>): seq<PendingDir> {
    if entries == [] then []
    else
      (if entries[0].isDir && !entries[0].isSymlink && dir.depth + 1 < MAX_TREE_DEPTH then
         [PendingDir(dir.source, dir.destination, RemotePath.Join(dir.sourcePath, entries[0].name),
                     RemotePath.Join(dir.destPath, entries[0].name), dir.depth + 1)]
       else [])
      + FoundDirs(dir, entries[1..])
  }

  lemma {:induction false} AbsorbVisits(s: State, dir: PendingDir, entries: seq<Info>)
    ensures var t := AbsorbEntries(s, dir, entries);
            t.toVisit == s.toVisit + FoundDirs(dir, entries) && t.enumerating == s.enumerating && t.enumCancelled == s.enumCancelled
    ensures s.enumerating ==> AbsorbEntries(s, dir, entries).out == s.out
    decreases |entries|
  {
    if entries != [] {
      AbsorbOneVisits(s, dir, entries[0]);
      AbsorbVisits(AbsorbOne(s, dir, entries[0]), dir, entries[1..]);
    }
  }

  lemma AbsorbOneVisits(s: State, dir: PendingDir, e: Info)
    ensures var t := AbsorbOne(s, dir, e);
            && t.toVisit == s.toVisit + FoundDirs(dir, [e])
            && t.enumerating == s.enumerating && t.enumCancelled == s.enumCancelled && (s.enumerating ==> t.out == s.out)
    ensures forall more: seq<Info> | more != [] && more[0] == e :: FoundDirs(dir, more) == FoundDirs(dir, [e]) + FoundDirs(dir, more[1..])
  {
    var src, dst := RemotePath.Join(dir.sourcePath, e.name), RemotePath.Join(dir.destPath, e.name);
    assert [e][1..] == [];
    if e.isSymlink {
      PumpLeavesWalk(WithNewJob(s, NewJob(LinkJob, dir.source, src, dir.destination, dst, if s.config.skipLinks then Skipped else Queued)));
    } else if !e.isDir {
      PumpLeavesWalk(WithNewJob(s, NewJob(Copy, dir.source, src, dir.destination, dst, Queued)));
    }
  }

  /** What is to be visited once the listing has been answered. */
  function NextVisits(s: State, dir: PendingDir, r: Reply): seq<PendingDir> {
    if s.enumCancelled then s.toVisit else (if r.endpointGone then [] else s.toVisit) + FoundDirs(dir, r.entries)
  }

  /** The state in which the walk takes its next step. */
  function Gathered(s: State, dir: PendingDir, r: Reply): State {
    if s.enumCancelled then s else AbsorbListing(s, dir, r.entries, r.endpointGone)
  }

  lemma GatheredVisits(s: State, dir: PendingDir, r: Reply)
    requires s.enumerating
    ensures var t := Gathered(s, dir, r);
            && t.toVisit == NextVisits(s, dir, r) && t.enumerating && t.enumCancelled == s.enumCancelled && t.out == s.out
            && OnListed(s, dir, r.entries, r.endpointGone) == StepEnumeration(t)
  {
    AbsorbVisits(if r.endpointGone then s.(toVisit := []) else s, dir, r.entries);
  }

  // ------------------------------------------------------------------ over every event

  lemma BatchWalks(s: State, volume: Option<nat>)
    ensures var t := CancelBatchFor(s, volume);
            && t.enumerating == s.enumerating && t.enumCancelled == s.enumCancelled && t.toVisit == VisitsElsewhere(s.toVisit, volume)
            && (s.enumerating ==> (forall dir :: List(dir) in t.out <==> List(dir) in s.out) && (t.preflight == CheckingSpace ==> s.preflight == CheckingSpace))
  {
    CancelsStay(DropPendingFor(s, volume), Unfinished(s.jobs, Some(volume)));
  }

  lemma DeclineWalks(s: State, volume: Option<nat>)
    ensures var t := OnSpacePromptAnswered(s, volume, false);
            && t.enumerating == s.enumerating && t.enumCancelled == s.enumCancelled && t.toVisit == VisitsElsewhere(s.toVisit, volume)
            && (s.enumerating ==> (forall dir :: List(dir) in t.out <==> List(dir) in s.out) && t.preflight != CheckingSpace)
  {
    BatchWalks(s, volume);
    PumpStays(CancelBatchFor(s, volume).(preflight := Cleared));
  }

  /** The walk goes on or is over. */
  lemma StepWalks(s: State)
    ensures var t := StepEnumeration(s);
            if s.toVisit == [] then !t.enumerating && !t.enumCancelled && t.toVisit == []
            else t == Issue(s.(toVisit := s.toVisit[1..]), List(s.toVisit[0]), true)
  {
    PumpLeavesWalk(s.(enumerating := false, enumCancelled := false));
  }

  /** Directories wait to be listed only while a walk runs, whatever happens. */
  lemma EventKeepsWalking(s: State, e: Event)
    requires Sound(s) && Walking(s) && Possible(s, e)
    ensures Walking(Handle(s, e))
  {
    match e {
      case Answer(q, r) => AnswerKeepsWalking(s, q, r); return;
      case EnqueueEvent(_, _, _, _, _) => EnqueueWalks(s, e); return;
      case ResumeEvent => PumpStays(s.(paused := false)); return;
      case CancelEvent(id) => CancelStays(s, id); return;
      case CancelAllEvent => CancelsStay(DropPending(s), Unfinished(s.jobs, None)); return;
      case CancelBatchEvent(volume) => BatchWalks(s, volume); return;
      case CloseEvent(fs) => ClosingLeavesWalk(s, Unfinishing(s.jobs, fs), fs); return;
      case _ => return;
    }
  }

  lemma AnswerKeepsWalking(s: State, q: Request, r: Reply)
    requires Sound(s) && Walking(s) && q in s.out
    ensures Walking(Handle(s, Answer(q, r)))
  {
    var t := Answered(s, q);
    if q.List? {
      OnlyListing(s, q.dir);
      GatheredVisits(t, q.dir, r);
      StepWalks(Gathered(t, q.dir, r));
    } else if q.SpacePrompt? && !r.proceed {
      DeclineWalks(t, q.volume);
    } else {
      OtherAnswerStays(t, q, r);
    }
  }

  /** What is queued on its own leaves the walk alone; a tree goes to the end of the line, and is listed at once
      if it is first in it and no walk runs. */
  lemma EnqueueWalks(s: State, e: Event)
    requires e.EnqueueEvent?
    ensures var t := Handle(s, e);
            if !Accepted(e) then WalkStays(s, t)
            else if s.enumerating then
              && t.enumerating && t.enumCancelled == s.enumCancelled && t.toVisit == s.toVisit + [TreeOf(e)] && t.out == s.out
              && t.preflight == s.preflight
            else
              && t.enumerating && t.enumCancelled == s.enumCancelled && t.toVisit == (s.toVisit + [TreeOf(e)])[1..]
              && t.out == s.out + multiset{List((s.toVisit + [TreeOf(e)])[0])} && t.preflight == s.preflight
  {
    var dest := TreeOf(e).destPath;
    if e.item.isSymlink {
      PumpStays(WithNewJob(s, NewJob(LinkJob, e.source, e.path, e.destination, dest, if s.config.skipLinks then Skipped else Queued)));
    } else if !e.item.isDir {
      PumpStays(WithNewJob(s, NewJob(Copy, e.source, e.path, e.destination, dest, Queued)));
    }
  }

  // -------------------------------------------------------- the fate of an accepted tree

  /** Where a tree that was accepted is: behind so many others, being listed, taken in, or lost. */
  datatype Fate = Waiting(k: nat) | Asked | Absorbed | Lost

  /** A tree is accepted unless it would be copied into itself. */
  predicate Accepted(e: Event) {
    && e.EnqueueEvent? && e.item.isDir && !e.item.isSymlink
    && !(e.source.fs == e.destination.fs && RemotePath.ContainsResult(e.path, RemotePath.Join(e.destDir, e.item.name)))
  }

  function TreeOf(e: Event): PendingDir
    requires e.EnqueueEvent?
  {
    PendingDir(e.source, e.destination, e.path, RemotePath.Join(e.destDir, e.item.name), 0)
  }

  /** An accepted tree goes to the end of the line; with no walk under way one is begun. */
  function FirstFate(s: State): Fate {
    if s.enumerating then Waiting(|s.toVisit|) else if s.toVisit == [] then Asked else Waiting(|s.toVisit| - 1)
  }

  function AfterListing(s: State, fate: Fate, r: Reply): Fate {
    match fate
    case Waiting(k) => if !s.enumCancelled && r.endpointGone then Lost else if k == 0 then Asked else Waiting(k - 1)
    case Asked => if s.enumCancelled then Lost else Absorbed
    case _ => fate
  }

  /** Directories bound for the volume are taken out of the line. */
  function AfterDrop(s: State, fate: Fate, volume: Option<nat>): Fate {
    if !fate.Waiting? || fate.k >= |s.toVisit| then fate
    else if s.toVisit[fate.k].destination.fs == volume then Lost
    else Waiting(|VisitsElsewhere(s.toVisit[..fate.k], volume)|)
  }

  function NextFate(s: State, fate: Fate, e: Event): Fate {
    match e
    case Answer(q, r) =>
      if q.List? then AfterListing(s, fate, r)
      else if q.SpacePrompt? && !r.proceed then AfterDrop(s, fate, q.volume)
      else fate
    case CancelBatchEvent(volume) => AfterDrop(s, fate, volume)
    case CancelAllEvent => if fate.Waiting? then Lost else fate
    case _ => fate
  }

  function FateAfter(s: State, fate: Fate, events: seq<Event>): Fate
    requires PossibleRun(s, events)
    decreases |events|
  {
    if events == [] then fate else FateAfter(Handle(s, events[0]), NextFate(s, fate, events[0]), events[1..])
  }

  /** What the fate says of the state: the tree is in that place in the line, or its listing is outstanding. */
  ghost predicate Tracks(s: State, tree: PendingDir, fate: Fate) {
    match fate
    case Waiting(k) => s.enumerating && k < |s.toVisit| && s.toVisit[k] == tree
    case Asked => s.enumerating && List(tree) in s.out
    case _ => true
  }

  lemma StaysTracked(s: State, t: State, tree: PendingDir, fate: Fate)
    requires WalkStays(s, t) && Tracks(s, tree, fate)
    ensures Tracks(t, tree, fate)
  {}

  lemma {:induction false} DroppedBefore(toVisit: seq<PendingDir>, k: nat, volume: Option<nat>)
    requires k < |toVisit| && toVisit[k].destination.fs != volume
    ensures var n := |VisitsElsewhere(toVisit[..k], volume)|;
            n < |VisitsElsewhere(toVisit, volume)| && VisitsElsewhere(toVisit, volume)[n] == toVisit[k]
    decreases k
  {
    if k > 0 {
      assert toVisit[..k][1..] == toVisit[1..][..k - 1];
      DroppedBefore(toVisit[1..], k - 1, volume);
    }
  }

  lemma BatchTracks(s: State, volume: Option<nat>, tree: PendingDir, fate: Fate)
    requires Tracks(s, tree, fate) && s.enumerating
    ensures Tracks(CancelBatchFor(s, volume), tree, AfterDrop(s, fate, volume))
    ensures CancelBatchFor(s, volume).enumerating && CancelBatchFor(s, volume).enumCancelled == s.enumCancelled
  {
    var d := DropPendingFor(s, volume);
    CancelsStay(d, Unfinished(s.jobs, Some(volume)));
    if fate.Waiting? && tree.destination.fs != volume { DroppedBefore(s.toVisit, fate.k, volume); }
  }

  lemma ListedTracks(s: State, dir: PendingDir, r: Reply, tree: PendingDir, fate: Fate)
    requires Sound(s) && List(dir) in s.out && Tracks(s, tree, fate)
    ensures var t := Handle(s, Answer(List(dir), r));
            && Tracks(t, tree, AfterListing(s, fate, r))
            && (fate.Waiting? && !AfterListing(s, fate, r).Lost? ==> t.enumCancelled == s.enumCancelled)
    ensures fate == Asked ==> dir == tree
  {
    var u := Answered(s, List(dir));
    OnlyListing(s, dir);
    GatheredVisits(u, dir, r);
    if fate.Waiting? { assert NextVisits(u, dir, r) != [] || AfterListing(s, fate, r).Lost?; }
    assert List(tree) in s.out && dir != tree ==> List(tree) in u.out;
  }

  lemma TreeTracks(s: State, e: Event, tree: PendingDir, fate: Fate)
    requires e.EnqueueEvent? && Tracks(s, tree, fate)
    ensures Tracks(Handle(s, e), tree, fate)
  {}

  /** The fate goes with the queue, whatever happens to it. */
  lemma EventTracks(s: State, e: Event, tree: PendingDir, fate: Fate)
    requires Sound(s) && Possible(s, e) && Tracks(s, tree, fate)
    ensures Tracks(Handle(s, e), tree, NextFate(s, fate, e))
  {
    if fate == Absorbed || fate == Lost { return; }
    match e {
      case Answer(q, r) => AnswerTracks(s, q, r, tree, fate); return;
      case EnqueueEvent(_, _, _, _, _) => TreeTracks(s, e, tree, fate); return;
      case CancelEvent(id) => CancelStays(s, id); return;
      case CancelAllEvent => CancelsStay(DropPending(s), Unfinished(s.jobs, None)); return;
      case CancelBatchEvent(volume) => BatchTracks(s, volume, tree, fate); return;
      case CloseEvent(fs) => ClosingLeavesWalk(s, Unfinishing(s.jobs, fs), fs); return;
      case _ => return;
    }
  }

  lemma DeclineTracks(s: State, volume: Option<nat>, tree: PendingDir, fate: Fate)
    requires Tracks(s, tree, fate) && s.enumerating
    ensures Tracks(OnSpacePromptAnswered(s, volume, false), tree, AfterDrop(s, fate, volume))
  {
    BatchTracks(s, volume, tree, fate);
  }

  /** No other answer concerns the walk. */
  lemma OtherAnswerStays(s: State, q: Request, r: Reply)
    requires !q.List? && (q.SpacePrompt? ==> r.proceed)
    ensures WalkStays(s, OnAnswer(s, q, r))
  {
    if ClassOf(q) == Calling || ClassOf(q) == Prompting { JobAnswerStays(s, q, r); return; }
    match q {
      case QuerySpace(fs, path, left) => SpaceStays(s, fs, path, left, r.ok, r.unsupported); return;
      case SpacePrompt(_) => PumpStays(s.(preflight := Cleared)); return;
      case MakeDir(_) => PumpStays(s); return;
    }
  }

  lemma VerdictStays(s: State)
    ensures WalkStays(s, Verdict(s).0)
  {
    var first := FirstUnchecked(s.jobs);
    if first < |s.jobs| { assert WalkStays(s, Issue(s, SpacePrompt(s.jobs[first].destination.fs), true)); }
  }

  lemma KnownStays(s: State, fs: nat, path: string, parent: string, left: nat, ok: bool, unsupported: bool)
    ensures WalkStays(s, SpaceKnown(s, fs, path, parent, left, ok, unsupported).0)
  {
    VerdictStays(s);
    if !(ok || unsupported || left == 0 || parent == "" || parent == path) {
      AskingStays(s, None, QuerySpace(fs, parent, left - 1));
    }
  }

  lemma SpaceStays(s: State, fs: nat, path: string, left: nat, ok: bool, unsupported: bool)
    ensures WalkStays(s, OnSpaceAnswered(s, fs, path, left, ok, unsupported))
  {
    var parent := RemotePath.Parent(path);
    var known := SpaceKnown(s, fs, path, parent, left, ok, unsupported);
    KnownStays(s, fs, path, parent, left, ok, unsupported);
    if known.1 {
      PumpStays(known.0.(preflight := Cleared));
      StaysThenStays(s, known.0.(preflight := Cleared), Pump(known.0.(preflight := Cleared)));
    }
  }

  lemma AnswerTracks(s: State, q: Request, r: Reply, tree: PendingDir, fate: Fate)
    requires Sound(s) && q in s.out && Tracks(s, tree, fate) && (fate.Waiting? || fate == Asked)
    ensures Tracks(Handle(s, Answer(q, r)), tree, NextFate(s, fate, Answer(q, r)))
  {
    if q.List? { ListedTracks(s, q.dir, r, tree, fate); return; }
    var t := Answered(s, q);
    assert WalkStays(s, t);
    StaysTracked(s, t, tree, fate);
    if q.SpacePrompt? && !r.proceed { DeclineTracks(t, q.volume, tree, fate); return; }
    OtherAnswerStays(t, q, r);
    StaysTracked(t, OnAnswer(t, q, r), tree, fate);
  }

  lemma AcceptedIsTracked(s: State, e: Event)
    requires Accepted(e)
    ensures var t := Handle(s, e); Tracks(t, TreeOf(e), FirstFate(s)) && t.enumCancelled == s.enumCancelled
  {
    if !s.enumerating && s.toVisit == [] { assert List(TreeOf(e)) in Handle(s, e).out; }
  }

  predicate Undecided(fate: Fate) {
    fate.Waiting? || fate == Asked
  }

  /** As long as the tree is in the line or being listed, only cancelling everything makes the walk ignore rows, and
      nothing makes it heed them again. */
  lemma EventKeepsHeed(s: State, e: Event, tree: PendingDir, fate: Fate)
    requires Sound(s) && Possible(s, e) && Tracks(s, tree, fate) && Undecided(fate) && Undecided(NextFate(s, fate, e))
    ensures Handle(s, e).enumCancelled == (s.enumCancelled || e.CancelAllEvent?)
  {
    match e {
      case Answer(q, r) => AnswerKeepsHeed(s, q, r, tree, fate); return;
      case EnqueueEvent(_, _, _, _, _) => return;
      case CancelEvent(id) => CancelStays(s, id); return;
      case CancelAllEvent => CancelsStay(DropPending(s), Unfinished(s.jobs, None)); return;
      case CancelBatchEvent(volume) => BatchTracks(s, volume, tree, fate); return;
      case CloseEvent(fs) => ClosingLeavesWalk(s, Unfinishing(s.jobs, fs), fs); return;
      case _ => return;
    }
  }

  lemma AnswerKeepsHeed(s: State, q: Request, r: Reply, tree: PendingDir, fate: Fate)
    requires Sound(s) && q in s.out && Tracks(s, tree, fate) && Undecided(fate) && Undecided(NextFate(s, fate, Answer(q, r)))
    ensures Handle(s, Answer(q, r)).enumCancelled == s.enumCancelled
  {
    if q.List? { ListedTracks(s, q.dir, r, tree, fate); return; }
    var t := Answered(s, q);
    if q.SpacePrompt? && !r.proceed { StaysTracked(s, t, tree, fate); BatchTracks(t, q.volume, tree, fate); return; }
    OtherAnswerStays(t, q, r);
  }

  lemma {:induction false} FateIsFinal(s: State, fate: Fate, events: seq<Event>)
    requires PossibleRun(s, events) && !Undecided(fate)
    ensures FateAfter(s, fate, events) == fate
    decreases |events|
  {
    if events != [] { FateIsFinal(Handle(s, events[0]), fate, events[1..]); }
  }

  /** In a walk that ignores rows the tree is never taken in, whatever follows. */
  lemma {:induction false} DoomedIsNeverAbsorbed(s: State, tree: PendingDir, fate: Fate, events: seq<Event>)
    requires Sound(s) && PossibleRun(s, events) && Tracks(s, tree, fate) && Undecided(fate) && s.enumCancelled
    ensures FateAfter(s, fate, events) != Absorbed
    decreases |events|
  {
    if events != [] {
      var t, next := Handle(s, events[0]), NextFate(s, fate, events[0]);
      EventKeepsSound(s, events[0]);
      EventTracks(s, events[0], tree, fate);
      if Undecided(next) {
        EventKeepsHeed(s, events[0], tree, fate);
        DoomedIsNeverAbsorbed(t, tree, next, events[1..]);
      } else {
        FateIsFinal(t, next, events[1..]);
      }
    }
  }

  /** Everything is cancelled, or what is to be listed for the tree's volume. */
  predicate Drops(s: State, fate: Fate, e: Event) {
    e.CancelAllEvent? || (!(e.Answer? && e.request.List?) && NextFate(s, fate, e) == Lost != fate)
  }

  predicate SparedRun(s: State, fate: Fate, events: seq<Event>)
    requires PossibleRun(s, events)
    decreases |events|
  {
    events == [] || (!Drops(s, fate, events[0]) && SparedRun(Handle(s, events[0]), NextFate(s, fate, events[0]), events[1..]))
  }

  /** A listing of some other directory finds its endpoint gone while the tree is still in the line. */
  predicate GoneBefore(s: State, fate: Fate, events: seq<Event>)
    requires PossibleRun(s, events)
    decreases |events|
  {
    events != [] &&
    (|| (fate.Waiting? && events[0].Answer? && events[0].request.List? && events[0].reply.endpointGone)
     || GoneBefore(Handle(s, events[0]), NextFate(s, fate, events[0]), events[1..]))
  }

  function ListingsIn(events: seq<Event>): nat {
    if events == [] then 0 else (if events[0].Answer? && events[0].request.List? then 1 else 0) + ListingsIn(events[1..])
  }

  /** How many listings have to be answered until the tree's own has been. */
  function Places(fate: Fate): nat {
    match fate
    case Waiting(k) => k + 2
    case Asked => 1
    case _ => 0
  }

  lemma PlacesShrink(s: State, tree: PendingDir, fate: Fate, e: Event)
    requires Tracks(s, tree, fate)
    ensures Places(NextFate(s, fate, e)) <= Places(fate)
    ensures e.Answer? && e.request.List? && Undecided(fate) ==> Places(NextFate(s, fate, e)) < Places(fate)
  {
    if fate.Waiting? { forall volume { FewerElsewhere(s.toVisit[..fate.k], [], volume); } }
  }

  lemma {:induction false} GoneIsBefore(s: State, fate: Fate, events: seq<Event>)
    requires PossibleRun(s, events) && !Undecided(fate)
    ensures !GoneBefore(s, fate, events)
    decreases |events|
  {
    if events != [] { GoneIsBefore(Handle(s, events[0]), fate, events[1..]); }
  }

  /** Spared, a tree in a walk that heeds rows is lost exactly when another directory's endpoint is found gone
      first; otherwise it is taken in with the answer to its own listing. */
  lemma {:induction false} SparedFate(s: State, tree: PendingDir, fate: Fate, events: seq<Event>)
    requires Sound(s) && PossibleRun(s, events) && Tracks(s, tree, fate) && Undecided(fate) && !s.enumCancelled
    requires SparedRun(s, fate, events)
    ensures FateAfter(s, fate, events) == Lost <==> GoneBefore(s, fate, events)
    ensures ListingsIn(events) >= Places(fate) ==> !Undecided(FateAfter(s, fate, events))
    decreases |events|
  {
    if events != [] {
      var e := events[0];
      var t, next := Handle(s, e), NextFate(s, fate, e);
      EventKeepsSound(s, e);
      EventTracks(s, e, tree, fate);
      PlacesShrink(s, tree, fate, e);
      if Undecided(next) {
        EventKeepsHeed(s, e, tree, fate);
        SparedFate(t, tree, next, events[1..]);
      } else {
        FateIsFinal(t, next, events[1..]);
        GoneIsBefore(t, next, events[1..]);
      }
    }
  }

  /** What becomes of a tree that is accepted, from any sound state. If the walk is already abandoned it is
      never taken in. If not, and nobody cancels everything or takes it out of the line, it is lost exactly when
      some listing answered before it finds its endpoint gone, and once enough listings have been answered it
      has been taken in exactly when none did. */
  lemma AcceptedTreeExactly(s: State, e: Event, events: seq<Event>)
    requires Sound(s) && Accepted(e) && PossibleRun(Handle(s, e), events)
    ensures var t, fate := Handle(s, e), FirstFate(s);
            var last := FateAfter(t, fate, events);
            && (s.enumCancelled ==> last != Absorbed)
            && (!s.enumCancelled && SparedRun(t, fate, events) ==>
                  && (last == Lost <==> GoneBefore(t, fate, events))
                  && (ListingsIn(events) >= Places(fate) ==> (last == Absorbed <==> !GoneBefore(t, fate, events))))
  {
    AcceptedIsTracked(s, e);
    EventKeepsSound(s, e);
    var t := Handle(s, e);
    if s.enumCancelled { DoomedIsNeverAbsorbed(t, TreeOf(e), FirstFate(s), events); return; }
    if SparedRun(t, FirstFate(s), events) { SparedFate(t, TreeOf(e), FirstFate(s), events); }
  }

  // ------------------------------------------------- two ways to lose a tree, from the start

  /** A walk that has the queue to itself: the tree is being listed and the others wait. */
  predicate WalkingAlone(s: State, tree: PendingDir, waiting: seq<PendingDir>, heeds: bool) {
    s.enumerating && s.enumCancelled == !heeds && s.toVisit == waiting && s.jobs == [] && s.out == multiset{List(tree)}
  }

  lemma FirstIsListed(config: Config, e: Event)
    requires Accepted(e)
    ensures WalkingAlone(Handle(Initial(config), e), TreeOf(e), [], true)
  {
    var t := Initial(config).(toVisit := [TreeOf(e)], dirsToCreate := [DirCreate(e.destination, TreeOf(e).destPath)], enumerating := true);
    assert Initial(config).toVisit + [TreeOf(e)] == t.toVisit;
    assert Initial(config).dirsToCreate + [DirCreate(e.destination, TreeOf(e).destPath)] == t.dirsToCreate;
    assert Handle(Initial(config), e) == StepEnumeration(t);
  }

  lemma SecondWaits(s: State, e: Event, tree: PendingDir, heeds: bool)
    requires Accepted(e) && WalkingAlone(s, tree, [], heeds)
    ensures WalkingAlone(Handle(s, e), tree, [TreeOf(e)], heeds)
    ensures FirstFate(s) == Waiting(0)
  {
    assert s.toVisit + [TreeOf(e)] == [TreeOf(e)];
  }

  lemma EverythingCancelled(s: State, tree: PendingDir)
    requires WalkingAlone(s, tree, [], true)
    ensures WalkingAlone(Handle(s, CancelAllEvent), tree, [], false)
  {
    assert Unfinished(s.jobs, None) == [];
  }

  /** The listing left over from before is ignored, and the second tree is asked for. */
  lemma LeftoverIgnored(s: State, first: PendingDir, second: PendingDir, late: Reply)
    requires WalkingAlone(s, first, [second], false)
    ensures WalkingAlone(Handle(s, Answer(List(first), late)), second, [], false)
  {
    var t := Answered(s, List(first));
    assert t.out == multiset{};
    assert Handle(s, Answer(List(first), late)) == Issue(t.(toVisit := t.toVisit[1..]), List(second), true);
  }

  lemma WalkComesToNothing(s: State)
    requires s.enumerating && s.toVisit == [] && s.jobs == []
    ensures !StepEnumeration(s).enumerating && StepEnumeration(s).jobs == [] && StepEnumeration(s).toVisit == []
  {
    var t := s.(enumerating := false, enumCancelled := false);
    assert FirstQueued(t.jobs) == |t.jobs|;
    NoneQueuedNoneUnweighed(t.jobs);
  }

  lemma LastIgnored(s: State, tree: PendingDir, rows: Reply)
    requires WalkingAlone(s, tree, [], false)
    ensures var e := Answer(List(tree), rows);
            && PossibleRun(s, [e]) && FateAfter(s, Asked, [e]) == Lost
            && !Run(s, [e]).enumerating && Run(s, [e]).jobs == []
  {
    var e := Answer(List(tree), rows);
    assert [e][1..] == [];
    WalkComesToNothing(Answered(s, List(tree)));
    assert FateAfter(s, Asked, [e]) == FateAfter(Handle(s, e), Lost, []);
  }

  lemma BothIgnored(s: State, first: PendingDir, second: PendingDir, late: Reply, rows: Reply)
    requires WalkingAlone(s, first, [second], false)
    ensures var answers := [Answer(List(first), late), Answer(List(second), rows)];
            && PossibleRun(s, answers) && FateAfter(s, Waiting(0), answers) == Lost
            && !Run(s, answers).enumerating && Run(s, answers).jobs == []
  {
    var answers := [Answer(List(first), late), Answer(List(second), rows)];
    assert answers[1..] == [answers[1]];
    LeftoverIgnored(s, first, second, late);
    LastIgnored(Handle(s, answers[0]), second, rows);
    assert FateAfter(s, Waiting(0), answers) == FateAfter(Handle(s, answers[0]), Asked, [answers[1]]);
  }

  /** Everything is cancelled while the first tree is being listed, and then a second one is asked for: it is
      listed, its rows are ignored and the walk ends with no job. */
  lemma LostAfterCancelling(config: Config, first: Event, second: Event, late: Reply, rows: Reply)
    requires Accepted(first) && Accepted(second)
    ensures var t := Handle(Handle(Handle(Initial(config), first), CancelAllEvent), second);
            var answers := [Answer(List(TreeOf(first)), late), Answer(List(TreeOf(second)), rows)];
            && Tracks(t, TreeOf(second), Waiting(0)) && PossibleRun(t, answers)
            && FateAfter(t, Waiting(0), answers) == Lost
            && !Run(t, answers).enumerating && Run(t, answers).jobs == []
  {
    var one := Handle(Handle(Initial(config), first), CancelAllEvent);
    FirstIsListed(config, first);
    EverythingCancelled(Handle(Initial(config), first), TreeOf(first));
    SecondWaits(one, second, TreeOf(first), false);
    BothIgnored(Handle(one, second), TreeOf(first), TreeOf(second), late, rows);
  }

  /** The first tree's endpoint turns out to be gone, and the second one waiting behind it, between whatever other file
      systems, is dropped with it: the walk is over, nothing is being listed and nothing was queued. */
  lemma LostToAnother(config: Config, first: Event, second: Event, r: Reply)
    requires Accepted(first) && Accepted(second) && r.endpointGone && r.entries == []
    ensures var t := Handle(Handle(Initial(config), first), second);
            var e := Answer(List(TreeOf(first)), r);
            && Tracks(t, TreeOf(second), Waiting(0)) && Possible(t, e) && NextFate(t, Waiting(0), e) == Lost
            && var u := Handle(t, e);
               !u.enumerating && u.toVisit == [] && u.jobs == [] && forall dir :: List(dir) !in u.out
  {
    var s := Handle(Initial(config), first);
    FirstIsListed(config, first);
    SecondWaits(s, second, TreeOf(first), true);
    var t := Handle(s, second);
    var v := Answered(t, List(TreeOf(first)));
    InitialIsSound(config);
    EventKeepsSound(Initial(config), first);
    EventKeepsSound(s, second);
    EventKeepsSound(t, Answer(List(TreeOf(first)), r));
    assert OnListed(v, TreeOf(first), [], true) == StepEnumeration(v.(toVisit := []));
    WalkComesToNothing(v.(toVisit := []));
    NoWalkNoListing(Handle(t, Answer(List(TreeOf(first)), r)));
  }
}
