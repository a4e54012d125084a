/** The transfer queue's job state machine (src/fs/TransferQueue.cpp).

    A state holds the queue's fields, the requests outstanding at the file systems and the prompts,
    and a log of the requests issued. An event is either something the user does or the answer to one
    outstanding request, so a run is any interleaving of both. Byte counts, listeners, error texts and
    the scratch files of staged transfers are left out; so are callbacks that run inline.
  */
module TransferQueue {
  import opened Style
  import opened RemotePath

  const MAX_TREE_DEPTH := 64
  const MAX_RENAME_ATTEMPTS := 100
  const MAX_SPACE_PROBE_ANCESTORS := 8

  type JobId = nat

  const NO_JOB: JobId := 0

  /** One side of a transfer: a file system, unless its session closed, and whether it is this machine. */
  datatype Endpoint = Endpoint(fs: Option<nat>, local: bool)
  {
    predicate IsLocalDisk() { fs.Some? && local }
  }

  datatype JobKind = Copy | LinkJob

  datatype JobState = Queued | Checking | AwaitingResolution | Active | Completed | Failed | Cancelled | Skipped
  {
    predicate Terminal() { Completed? || Failed? || Cancelled? || Skipped? }
    predicate InProgress() { Checking? || AwaitingResolution? || Active? }
  }

  datatype Job = Job(id: JobId, kind: JobKind, source: Endpoint, destination: Endpoint, sourcePath: string,
                     destPath: string, state: JobState, spaceChecked: bool, destExisted: bool)

  datatype PendingDir = PendingDir(source: Endpoint, destination: Endpoint, sourcePath: string, destPath: string, depth: nat)

  datatype DirCreate = DirCreate(destination: Endpoint, path: string)

  datatype Preflight = PendingCheck | CheckingSpace | Cleared

  datatype ConflictPolicy = Ask | Overwrite | Skip | Rename

  /** What a prompt may answer. */
  type Resolution = p: ConflictPolicy | p != Ask witness Skip

  datatype Request =
    | List(dir: PendingDir)
    | QuerySpace(fs: nat, path: string, ancestorsLeft: nat)
    | SpacePrompt(volume: Option<nat>)
    | MakeDir(create: DirCreate)
    | Stat(id: JobId)
    | StatFree(id: JobId, candidate: string, attempt: nat)
    | Prompt(id: JobId)
    | Transfer(id: JobId, firstLeg: bool)
    | ReadLink(id: JobId, mustUnlink: bool)
    | Unlink(id: JobId)
    | MakeLink(id: JobId)

  /** What held when a request was issued, and the file system it went to: `None` is a pointer that is null. */
  datatype Issued = Issued(request: Request, enumerating: bool, unweighed: bool, jobWeighed: bool, target: Option<nat>)

  /** Policies, which prompts are installed, and what the outside world currently says. */
  datatype Config = Config(policy: ConflictPolicy, skipLinks: bool, hasPrompt: bool, hasSpacePrompt: bool,
                           relayRoot: bool, concerning: bool)

  datatype State = State(jobs: seq<Job>, nextId: JobId, activeId: JobId, activeOwner: Option<nat>, cancellingActive: bool,
                         enumerating: bool, enumCancelled: bool, toVisit: seq<PendingDir>, dirsToCreate: seq<DirCreate>,
                         paused: bool, preflight: Preflight, config: Config, out: multiset<Request>, log: seq<Issued>)

  function Initial(config: Config): State {
    State([], 1, NO_JOB, None, false, false, false, [], [], false, PendingCheck, config, multiset{}, [])
  }

  // -------------------------------------------------------------- looking up jobs

  /** The index of the job, or the number of jobs. */
  function Index(jobs: seq<Job>, id: JobId): (i: nat)
    ensures i <= |jobs|
    ensures i < |jobs| ==> jobs[i].id == id
    ensures forall j | 0 <= j < i :: jobs[j].id != id
  {
    if jobs == [] || jobs[0].id == id then 0 else 1 + Index(jobs[1..], id)
  }

  function FirstQueued(jobs: seq<Job>): (i: nat)
    ensures i <= |jobs|
    ensures i < |jobs| ==> jobs[i].state == Queued
    ensures forall j | 0 <= j < i :: jobs[j].state != Queued
  {
    if jobs == [] || jobs[0].state == Queued then 0 else 1 + FirstQueued(jobs[1..])
  }

  predicate UnweighedJob(job: Job) {
    job.state == Queued && !job.spaceChecked
  }

  /** The first queued job no verdict has covered, or the number of jobs. */
  function FirstUnchecked(jobs: seq<Job>): (i: nat)
    ensures i <= |jobs|
    ensures i < |jobs| ==> UnweighedJob(jobs[i])
    ensures forall j | 0 <= j < i :: !UnweighedJob(jobs[j])
  {
    if jobs == [] || UnweighedJob(jobs[0]) then 0 else 1 + FirstUnchecked(jobs[1..])
  }

  predicate Unweighed(jobs: seq<Job>) {
    FirstUnchecked(jobs) < |jobs|
  }

  function SourceOf(jobs: seq<Job>, id: JobId): Option<nat> {
    var i := Index(jobs, id);
    if i < |jobs| then jobs[i].source.fs else None
  }

  function DestinationOf(jobs: seq<Job>, id: JobId): Option<nat> {
    var i := Index(jobs, id);
    if i < |jobs| then jobs[i].destination.fs else None
  }

  /** The file system a request is made at; a prompt is made at none. */
  function TargetOf(s: State, request: Request): Option<nat> {
    match request
    case List(dir) => dir.source.fs
    case QuerySpace(fs, _, _) => Some(fs)
    case MakeDir(create) => create.destination.fs
    case Transfer(_, _) => s.activeOwner
    case ReadLink(id, _) => SourceOf(s.jobs, id)
    case Stat(id) => DestinationOf(s.jobs, id)
    case StatFree(id, _, _) => DestinationOf(s.jobs, id)
    case Unlink(id) => DestinationOf(s.jobs, id)
    case MakeLink(id) => DestinationOf(s.jobs, id)
    case SpacePrompt(_) => None
    case Prompt(_) => None
  }

  function Issue(s: State, request: Request, jobWeighed: bool): State {
    s.(out := s.out + multiset{request},
       log := s.log + [Issued(request, s.enumerating, Unweighed(s.jobs), jobWeighed, TargetOf(s, request))])
  }

  function Answered(s: State, request: Request): State {
    s.(out := s.out - multiset{request})
  }

  function WithJob(s: State, i: nat, job: Job): State
    requires i < |s.jobs|
  {
    s.(jobs := s.jobs[i := job])
  }

  // ------------------------------------------------------------------ pre-flight

  /** A queued job bound for the measured volume is marked weighed. */
  function Weighed(job: Job, volume: Option<nat>): Job {
    if job.state == Queued && job.destination.fs == volume then job.(spaceChecked := true) else job
  }

  function MarkWeighed(jobs: seq<Job>, volume: Option<nat>): (r: seq<Job>)
    ensures |r| == |jobs|
    ensures forall i | 0 <= i < |jobs| :: r[i] == Weighed(jobs[i], volume)
  {
    if jobs == [] then [] else [Weighed(jobs[0], volume)] + MarkWeighed(jobs[1..], volume)
  }

  /** The verdict on the first unweighed job's volume; true when the check is over. */
  function Verdict(s: State): (State, bool) {
    var first := FirstUnchecked(s.jobs);
    if first == |s.jobs| then (s, true)
    else
      var volume := s.jobs[first].destination.fs;
      var s := s.(jobs := MarkWeighed(s.jobs, volume));
      if s.config.concerning && s.config.hasSpacePrompt then (Issue(s, SpacePrompt(volume), true), false)
      else (s, true)
  }

  function QuerySpaceFrom(s: State, fs: nat, path: string, ancestorsLeft: nat): (State, bool) {
    if path == "" then Verdict(s) else (Issue(s, QuerySpace(fs, path, ancestorsLeft), true), false)
  }

  /** Start the check; true when it is over at once. */
  function BeginPreflight(s: State): (State, bool) {
    var s := s.(preflight := CheckingSpace);
    var first := FirstUnchecked(s.jobs);
    if first == |s.jobs| then (s, true)
    else if s.jobs[first].destination.fs.None? then
      (WithJob(s, first, s.jobs[first].(spaceChecked := true)), true)
    else QuerySpaceFrom(s, s.jobs[first].destination.fs.value, Parent(s.jobs[first].destPath), MAX_SPACE_PROBE_ANCESTORS)
  }

  // ------------------------------------------------------------------ scheduling

  /** Only ever called with no walk running and every queued job weighed. */
  function CreateNextDirectory(s: State): State
    requires s.dirsToCreate != [] && !s.enumerating && !Unweighed(s.jobs)
  {
    Issue(s.(dirsToCreate := s.dirsToCreate[1..]), MakeDir(s.dirsToCreate[0]), true)
  }

  /** The active slot is freed if the job holds it. */
  function SlotFreed(s: State, id: JobId): State {
    if s.activeId == id then s.(activeId := NO_JOB, activeOwner := None, cancellingActive := false) else s
  }

  /** A job retires: its outcome is recorded and its slot freed. */
  function Retired(s: State, i: nat, outcome: JobState): State
    requires i < |s.jobs|
  {
    SlotFreed(WithJob(s, i, s.jobs[i].(state := outcome)), s.jobs[i].id)
  }

  function QueuedCount(jobs: seq<Job>): nat {
    if jobs == [] then 0 else (if jobs[0].state == Queued then 1 else 0) + QueuedCount(jobs[1..])
  }

  function UnweighedCount(jobs: seq<Job>): nat {
    if jobs == [] then 0 else (if UnweighedJob(jobs[0]) then 1 else 0) + UnweighedCount(jobs[1..])
  }

  function Pump(s: State): State
    decreases QueuedCount(s.jobs), UnweighedCount(s.jobs), if s.preflight == Cleared then 0 else 1
  {
    if s.enumerating then s
    else
      var i := FirstQueued(s.jobs);
      if i == |s.jobs| then
        NoneQueuedNoneUnweighed(s.jobs);
        if s.activeId == NO_JOB && s.dirsToCreate != [] && !s.paused then CreateNextDirectory(s) else s
      else if s.preflight != Cleared || Unweighed(s.jobs) then
        if s.preflight == CheckingSpace then s
        else
          var (next, over) := BeginPreflight(s);
          BeginPreflightDecreases(s);
          if over then Pump(next.(preflight := Cleared)) else next
      else if s.paused || s.activeId != NO_JOB then s
      else if s.dirsToCreate != [] then CreateNextDirectory(s)
      else
        var job := s.jobs[i];
        var s := s.(activeId := job.id);
        if job.source.fs.None? || job.destination.fs.None? then
          CountsUpdate(s.jobs, i, job.(state := Failed));
          Pump(Retired(s, i, Failed))
        else Issue(WithJob(s, i, job.(state := Checking)), Stat(job.id), job.spaceChecked)
  }

  lemma {:induction false} CountsUpdate(jobs: seq<Job>, i: nat, job: Job)
    requires i < |jobs|
    ensures QueuedCount(jobs[i := job]) + (if jobs[i].state == Queued then 1 else 0)
         == QueuedCount(jobs) + (if job.state == Queued then 1 else 0)
    ensures UnweighedCount(jobs[i := job]) + (if UnweighedJob(jobs[i]) then 1 else 0)
         == UnweighedCount(jobs) + (if UnweighedJob(job) then 1 else 0)
    decreases |jobs|
  {
    if i > 0 {
      assert jobs[i := job][1..] == jobs[1..][i - 1 := job];
      CountsUpdate(jobs[1..], i - 1, job);
    } else {
      assert jobs[i := job][1..] == jobs[1..];
    }
  }

  lemma {:induction false} MarkingCounts(jobs: seq<Job>, volume: Option<nat>)
    ensures QueuedCount(MarkWeighed(jobs, volume)) == QueuedCount(jobs)
    ensures UnweighedCount(MarkWeighed(jobs, volume)) <= UnweighedCount(jobs)
    ensures (exists i :: 0 <= i < |jobs| && UnweighedJob(jobs[i]) && jobs[i].destination.fs == volume) ==>
              UnweighedCount(MarkWeighed(jobs, volume)) < UnweighedCount(jobs)
    decreases |jobs|
  {
    if jobs != [] {
      MarkingCounts(jobs[1..], volume);
      if i :| 0 <= i < |jobs| && UnweighedJob(jobs[i]) && jobs[i].destination.fs == volume {
        if i > 0 { assert jobs[1..][i - 1] == jobs[i]; }
      }
    }
  }

  lemma NoneQueuedNoneUnweighed(jobs: seq<Job>)
    ensures FirstQueued(jobs) == |jobs| ==> !Unweighed(jobs)
  {}

  /** A verdict that is over at once has weighed something, unless nothing was left to weigh. */
  lemma VerdictWeighs(s: State)
    ensures var (next, over) := Verdict(s);
            && QueuedCount(next.jobs) == QueuedCount(s.jobs)
            && (Unweighed(s.jobs) ==> UnweighedCount(next.jobs) < UnweighedCount(s.jobs))
            && (!Unweighed(s.jobs) ==> next == s)
  {
    var first := FirstUnchecked(s.jobs);
    if first < |s.jobs| { MarkingCounts(s.jobs, s.jobs[first].destination.fs); }
  }

  lemma QueryWeighs(s: State, fs: nat, path: string, left: nat)
    ensures var (next, over) := QuerySpaceFrom(s, fs, path, left);
            && QueuedCount(next.jobs) == QueuedCount(s.jobs)
            && (over && Unweighed(s.jobs) ==> UnweighedCount(next.jobs) < UnweighedCount(s.jobs))
  {
    VerdictWeighs(s);
  }

  lemma BeginPreflightDecreases(s: State)
    requires s.preflight == PendingCheck || Unweighed(s.jobs)
    ensures var (next, over) := BeginPreflight(s);
            && QueuedCount(next.jobs) == QueuedCount(s.jobs)
            && (over ==> UnweighedCount(next.jobs) < UnweighedCount(s.jobs) ||
                         (UnweighedCount(next.jobs) == UnweighedCount(s.jobs) && s.preflight != Cleared))
  {
    var t := s.(preflight := CheckingSpace);
    var first := FirstUnchecked(t.jobs);
    if first < |t.jobs| {
      var job := t.jobs[first];
      if job.destination.fs.None? { CountsUpdate(t.jobs, first, job.(spaceChecked := true)); }
      else { QueryWeighs(t, job.destination.fs.value, Parent(job.destPath), MAX_SPACE_PROBE_ANCESTORS); }
    }
  }

  // -------------------------------------------------------------- one job's steps

  function FinishJob(s: State, id: JobId, outcome: JobState): State {
    var i := Index(s.jobs, id);
    if i < |s.jobs| then Pump(Retired(s, i, outcome))
    else Pump(SlotFreed(s, id))
  }

  /** The job a reply is about is gone, or is not where the reply expects it. */
  function Abandon(s: State): State {
    Pump(s.(activeId := NO_JOB))
  }

  /** A job that has just become active is sent the way its two ends ask for. */
  function Launched(s: State, id: JobId, job: Job): State {
    if job.kind == LinkJob then Issue(s, ReadLink(id, job.destExisted), true)
    else if job.destination.IsLocalDisk() then Issue(s.(activeOwner := job.source.fs), Transfer(id, false), true)
    else if job.source.IsLocalDisk() then Issue(s.(activeOwner := job.destination.fs), Transfer(id, false), true)
    else if !s.config.relayRoot then FinishJob(s, id, Failed)
    else Issue(s.(activeOwner := job.source.fs), Transfer(id, true), true)
  }

  function StartTransfer(s: State, id: JobId): State {
    var i := Index(s.jobs, id);
    if i == |s.jobs| then Abandon(s)
    else
      var job := s.jobs[i].(state := Active);
      Launched(WithJob(s, i, job), id, job)
  }

  function Decimal(n: nat): string {
    if n < 10 then [('0' as int + n) as char] else Decimal(n / 10) + [('0' as int + n % 10) as char]
  }

  function LastDot(name: string): (pos: int)
    ensures -1 <= pos < |name|
  {
    if name == "" then -1 else if name[|name| - 1] == '.' then |name| - 1 else LastDot(name[..|name| - 1])
  }

  /** "notes.txt" becomes "notes (1).txt"; a leading dot is no extension. */
  function MakeUniqueCandidate(name: string, attempt: nat): string {
    var suffix := " (" + Decimal(attempt) + ")";
    var dot := LastDot(name);
    if dot <= 0 then name + suffix else name[..dot] + suffix + name[dot..]
  }

  function ResolveFreeName(s: State, id: JobId, attempt: nat): State {
    var i := Index(s.jobs, id);
    if i == |s.jobs| then Abandon(s)
    else if attempt > MAX_RENAME_ATTEMPTS then FinishJob(s, id, Failed)
    else
      var dest := s.jobs[i].destPath;
      Issue(s, StatFree(id, Join(Parent(dest), MakeUniqueCandidate(Leaf(dest), attempt)), attempt), true)
  }

  function Resolve(s: State, id: JobId, resolution: Resolution): State {
    if resolution == Overwrite then StartTransfer(s, id)
    else if resolution == Skip then FinishJob(s, id, Skipped)
    else ResolveFreeName(s, id, 1)
  }

  function OnConflictKnown(s: State, id: JobId, found: bool): State {
    var i := Index(s.jobs, id);
    if i == |s.jobs| || s.jobs[i].state != Checking then Abandon(s)
    else if !found then StartTransfer(s, id)
    else
      var s := WithJob(s, i, s.jobs[i].(destExisted := true));
      if s.config.policy != Ask then Resolve(s, id, s.config.policy)
      else if !s.config.hasPrompt then FinishJob(s, id, Skipped)
      else Issue(WithJob(s, i, s.jobs[i].(state := AwaitingResolution)), Prompt(id), true)
  }

  function OnFreeNameKnown(s: State, id: JobId, candidate: string, attempt: nat, found: bool): State {
    if found then ResolveFreeName(s, id, attempt + 1)
    else
      var i := Index(s.jobs, id);
      StartTransfer(if i < |s.jobs| then WithJob(s, i, s.jobs[i].(destPath := candidate, destExisted := false)) else s, id)
  }

  /** A prompt's answer counts only while the job still waits for it. */
  function OnPromptAnswered(s: State, id: JobId, resolution: Resolution, applyToAll: bool): State {
    var i := Index(s.jobs, id);
    if i == |s.jobs| || s.jobs[i].state != AwaitingResolution then s
    else Resolve(if applyToAll then s.(config := s.config.(policy := resolution)) else s, id, resolution)
  }

  function OnLegDone(s: State, id: JobId, firstLeg: bool, ok: bool, cancelled: bool): State {
    var i := Index(s.jobs, id);
    if i == |s.jobs| then Abandon(s)
    else if !ok then FinishJob(s, id, if cancelled then Cancelled else Failed)
    else if firstLeg then Issue(s.(activeOwner := s.jobs[i].destination.fs), Transfer(id, false), true)
    else FinishJob(s, id, Completed)
  }

  function WriteLink(s: State, id: JobId): State {
    if Index(s.jobs, id) == |s.jobs| then Abandon(s) else Issue(s, MakeLink(id), true)
  }

  function OnLinkRead(s: State, id: JobId, mustUnlink: bool, ok: bool): State {
    if !ok then FinishJob(s, id, Failed)
    else if Index(s.jobs, id) == |s.jobs| then Abandon(s)
    else if !mustUnlink then WriteLink(s, id)
    else Issue(s, Unlink(id), true)
  }

  function OnUnlinked(s: State, id: JobId, ok: bool): State {
    if ok then WriteLink(s, id) else FinishJob(s, id, Failed)
  }

  function OnLinkMade(s: State, id: JobId, ok: bool): State {
    FinishJob(s, id, if ok then Completed else Failed)
  }

  // -------------------------------------------------------------- enumeration

  datatype Info = Info(name: string, isDir: bool, isSymlink: bool)

  function WithNewJob(s: State, job: Job): State {
    s.(jobs := s.jobs + [job.(id := s.nextId)], nextId := s.nextId + 1)
  }

  function AddJob(s: State, job: Job): State {
    Pump(WithNewJob(s, job))
  }

  function NewJob(kind: JobKind, source: Endpoint, sourcePath: string, destination: Endpoint, destPath: string,
        state: JobState): Job {
    Job(NO_JOB, kind, source, destination, sourcePath, destPath, state, false, false)
  }

  function Enqueue(s: State, source: Endpoint, sourcePath: string, destination: Endpoint, destPath: string): State {
    AddJob(s, NewJob(Copy, source, sourcePath, destination, destPath, Queued))
  }

  function EnqueueSymlink(s: State, source: Endpoint, sourcePath: string, destination: Endpoint, destPath: string): State {
    AddJob(s, NewJob(LinkJob, source, sourcePath, destination, destPath, if s.config.skipLinks then Skipped else Queued))
  }

  function StepEnumeration(s: State): State {
    if s.toVisit == [] then Pump(s.(enumerating := false, enumCancelled := false))
    else Issue(s.(toVisit := s.toVisit[1..]), List(s.toVisit[0]), true)
  }

  /** One row of a listing: a link and a file are queued, a directory is kept for later unless it lies
      too deep. */
  function AbsorbOne(s: State, dir: PendingDir, e: Info): State {
    var src, dst := Join(dir.sourcePath, e.name), Join(dir.destPath, e.name);
    if e.isSymlink then EnqueueSymlink(s, dir.source, src, dir.destination, dst)
    else if !e.isDir then Enqueue(s, dir.source, src, dir.destination, dst)
    else if dir.depth + 1 >= MAX_TREE_DEPTH then s
    else s.(toVisit := s.toVisit + [PendingDir(dir.source, dir.destination, src, dst, dir.depth + 1)],
            dirsToCreate := s.dirsToCreate + [DirCreate(dir.destination, dst)])
  }

  function AbsorbEntries(s: State, dir: PendingDir, entries: seq<Info>): State
    decreases |entries|
  {
    if entries == [] then s else AbsorbEntries(AbsorbOne(s, dir, entries[0]), dir, entries[1..])
  }

  /** A lost endpoint ends the walk; any other error costs one directory, and rows read still count. */
  function AbsorbListing(s: State, dir: PendingDir, entries: seq<Info>, endpointGone: bool): State {
    AbsorbEntries(if endpointGone then s.(toVisit := []) else s, dir, entries)
  }

  function OnListed(s: State, dir: PendingDir, entries: seq<Info>, endpointGone: bool): State {
    StepEnumeration(if s.enumCancelled then s else AbsorbListing(s, dir, entries, endpointGone))
  }

  /** A tree is refused only when it would be copied into itself on one file system. */
  function EnqueueTree(s: State, source: Endpoint, sourceDir: string, destination: Endpoint, destDir: string): State {
    if source.fs == destination.fs && ContainsResult(sourceDir, destDir) then s
    else
      var s := s.(toVisit := s.toVisit + [PendingDir(source, destination, sourceDir, destDir, 0)],
                  dirsToCreate := s.dirsToCreate + [DirCreate(destination, destDir)]);
      if s.enumerating then s else StepEnumeration(s.(enumerating := true))
  }

  function EnqueueItem(s: State, source: Endpoint, item: Info, path: string, destination: Endpoint, destDir: string): State {
    var dest := Join(destDir, item.name);
    if item.isSymlink then EnqueueSymlink(s, source, path, destination, dest)
    else if item.isDir then EnqueueTree(s, source, path, destination, dest)
    else Enqueue(s, source, path, destination, dest)
  }

  // ------------------------------------------------------------------ pre-flight

  function Settled(r: (State, bool)): State {
    if r.1 then Pump(r.0.(preflight := Cleared)) else r.0
  }

  /** Climb to the parent on an error, unless the server has no such query at all. */
  function SpaceKnown(s: State, fs: nat, path: string, parent: string, ancestorsLeft: nat, ok: bool,
        unsupported: bool): (State, bool) {
    if ok || unsupported || ancestorsLeft == 0 || parent == "" || parent == path then Verdict(s)
    else QuerySpaceFrom(s, fs, parent, ancestorsLeft - 1)
  }

  function OnSpaceAnswered(s: State, fs: nat, path: string, ancestorsLeft: nat, ok: bool, unsupported: bool): State {
    Settled(SpaceKnown(s, fs, path, Parent(path), ancestorsLeft, ok, unsupported))
  }

  // ------------------------------------------------------------------ cancelling

  /** The transport is asked to stop a transfer it owns; anything else retires at once. */
  predicate TransportOwns(s: State, i: nat)
    requires i < |s.jobs|
  {
    s.jobs[i].state == Active && s.jobs[i].id == s.activeId && s.activeOwner.Some?
  }

  function CancelJob(s: State, id: JobId): State {
    var i := Index(s.jobs, id);
    if i == |s.jobs| || s.jobs[i].state.Terminal() then s
    else if TransportOwns(s, i) then s.(cancellingActive := true)
    else FinishJob(s, id, Cancelled)
  }

  function CancelJobs(s: State, ids: seq<JobId>): State
    decreases |ids|
  {
    if ids == [] then s else CancelJobs(CancelJob(s, ids[0]), ids[1..])
  }

  /** The ids of the unfinished jobs, those bound for `volume` when one is given. */
  function Unfinished(jobs: seq<Job>, volume: Option<Option<nat>>): seq<JobId> {
    if jobs == [] then []
    else if !jobs[0].state.Terminal() && (volume.None? || jobs[0].destination.fs == volume.value) then
      [jobs[0].id] + Unfinished(jobs[1..], volume)
    else Unfinished(jobs[1..], volume)
  }

  /** What is dropped before the jobs are cancelled. */
  function DropPending(s: State): State {
    s.(toVisit := [], dirsToCreate := [], enumCancelled := s.enumCancelled || s.enumerating)
  }

  function VisitsElsewhere(toVisit: seq<PendingDir>, volume: Option<nat>): seq<PendingDir> {
    if toVisit == [] then []
    else if toVisit[0].destination.fs != volume then [toVisit[0]] + VisitsElsewhere(toVisit[1..], volume)
    else VisitsElsewhere(toVisit[1..], volume)
  }

  function DirsElsewhere(dirs: seq<DirCreate>, volume: Option<nat>): seq<DirCreate> {
    if dirs == [] then []
    else if dirs[0].destination.fs != volume then [dirs[0]] + DirsElsewhere(dirs[1..], volume)
    else DirsElsewhere(dirs[1..], volume)
  }

  function DropPendingFor(s: State, volume: Option<nat>): State {
    s.(toVisit := VisitsElsewhere(s.toVisit, volume), dirsToCreate := DirsElsewhere(s.dirsToCreate, volume))
  }

  function CancelAll(s: State): State {
    CancelJobs(DropPending(s), Unfinished(s.jobs, None))
  }

  function CancelBatchFor(s: State, volume: Option<nat>): State {
    CancelJobs(DropPendingFor(s, volume), Unfinished(s.jobs, Some(volume)))
  }

  function Unfinishing(jobs: seq<Job>, fs: nat): seq<JobId> {
    if jobs == [] then []
    else if !jobs[0].state.Terminal() && (jobs[0].source.fs == Some(fs) || jobs[0].destination.fs == Some(fs)) then
      [jobs[0].id] + Unfinishing(jobs[1..], fs)
    else Unfinishing(jobs[1..], fs)
  }

  function Disconnected(e: Endpoint, fs: nat): Endpoint {
    if e.fs == Some(fs) then e.(fs := None) else e
  }

  /** A job that has lost a file system. */
  function Parted(job: Job, fs: nat): Job {
    job.(source := Disconnected(job.source, fs), destination := Disconnected(job.destination, fs))
  }

  /** A job whose file system is going away retires without being asked about. */
  function DropJob(s: State, id: JobId, fs: nat): State {
    var i := Index(s.jobs, id);
    if i == |s.jobs| then FinishJob(s, id, Cancelled)
    else
      var job := s.jobs[i];
      FinishJob(WithJob(s, i, Parted(job, fs)), id, Cancelled)
  }

  function DropJobs(s: State, ids: seq<JobId>, fs: nat): State
    decreases |ids|
  {
    if ids == [] then s else DropJobs(DropJob(s, ids[0], fs), ids[1..], fs)
  }

  function CancelJobsUsing(s: State, fs: nat): State {
    DropJobs(s, Unfinishing(s.jobs, fs), fs)
  }

  function OnSpacePromptAnswered(s: State, volume: Option<nat>, proceed: bool): State {
    Pump((if proceed then s else CancelBatchFor(s, volume)).(preflight := Cleared))
  }

  function Unterminated(jobs: seq<Job>): seq<Job> {
    if jobs == [] then []
    else if jobs[0].state.Terminal() then Unterminated(jobs[1..])
    else [jobs[0]] + Unterminated(jobs[1..])
  }

  // ------------------------------------------------------------------------ runs

  /** Everything an answer may say; each request reads the parts that concern it. */
  datatype Reply = Reply(ok: bool, found: bool, cancelled: bool, unsupported: bool, endpointGone: bool,
                         entries: seq<Info>, resolution: Resolution, applyToAll: bool, proceed: bool)

  datatype Event =
    | Answer(request: Request, reply: Reply)
    | EnqueueEvent(source: Endpoint, item: Info, path: string, destination: Endpoint, destDir: string)
    | PauseEvent | ResumeEvent | ClearFinishedEvent
    | CancelEvent(id: JobId) | CancelAllEvent | CancelBatchEvent(volume: Option<nat>) | CloseEvent(fs: nat)
    | ConfigureEvent(config: Config)

  predicate IsStep(request: Request) {
    request.Transfer? || request.ReadLink? || request.Unlink? || request.MakeLink?
  }

  /** A step of the job under way is done. */
  function OnStepDone(s: State, request: Request, r: Reply): State
    requires IsStep(request)
  {
    match request
    case Transfer(id, firstLeg) => OnLegDone(s, id, firstLeg, r.ok, r.cancelled)
    case ReadLink(id, mustUnlink) => OnLinkRead(s, id, mustUnlink, r.ok)
    case Unlink(id) => OnUnlinked(s, id, r.ok)
    case MakeLink(id) => OnLinkMade(s, id, r.ok)
  }

  function OnAnswer(s: State, request: Request, r: Reply): State {
    match request
    case List(dir) => OnListed(s, dir, r.entries, r.endpointGone)
    case QuerySpace(fs, path, left) => OnSpaceAnswered(s, fs, path, left, r.ok, r.unsupported)
    case SpacePrompt(volume) => OnSpacePromptAnswered(s, volume, r.proceed)
    case MakeDir(_) => Pump(s)
    case Stat(id) => OnConflictKnown(s, id, r.found)
    case StatFree(id, candidate, attempt) => OnFreeNameKnown(s, id, candidate, attempt, r.found)
    case Prompt(id) => OnPromptAnswered(s, id, r.resolution, r.applyToAll)
    case _ => OnStepDone(s, request, r)
  }

  predicate Possible(s: State, e: Event) {
    e.Answer? ==> e.request in s.out
  }

  predicate IsRetirement(e: Event) {
    e.CancelEvent? || e.CancelAllEvent? || e.CancelBatchEvent? || e.CloseEvent?
  }

  function OnRetirement(s: State, e: Event): State
    requires IsRetirement(e)
  {
    match e
    case CancelEvent(id) => CancelJob(s, id)
    case CancelAllEvent => CancelAll(s)
    case CancelBatchEvent(volume) => CancelBatchFor(s, volume)
    case CloseEvent(fs) => CancelJobsUsing(s, fs)
  }

  function Handle(s: State, e: Event): State
    requires Possible(s, e)
  {
    match e
    case Answer(request, reply) => OnAnswer(Answered(s, request), request, reply)
    case EnqueueEvent(source, item, path, destination, destDir) => EnqueueItem(s, source, item, path, destination, destDir)
    case PauseEvent => s.(paused := true)
    case ResumeEvent => if s.paused then Pump(s.(paused := false)) else s
    case ClearFinishedEvent => s.(jobs := Unterminated(s.jobs))
    case ConfigureEvent(config) => s.(config := config)
    case _ => OnRetirement(s, e)
  }

  predicate PossibleRun(s: State, events: seq<Event>)
    decreases |events|
  {
    events == [] || (Possible(s, events[0]) && PossibleRun(Handle(s, events[0]), events[1..]))
  }

  function Run(s: State, events: seq<Event>): State
    requires PossibleRun(s, events)
    decreases |events|
  {
    if events == [] then s else Run(Handle(s, events[0]), events[1..])
  }
}
