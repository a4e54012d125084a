/** Whole lives of the SFTP tasks (src/transport/SshSftpService.cpp:156-201, 356-774): a task that meets no failure
    succeeds, and comes to its end once enough of its calls have got anywhere. */
module SftpRuns {
  import opened Style
  import opened SftpTaskQueue
  import opened SftpTasks
  import opened SftpScheduling

  // ---------------------------------------------------------------- worlds and runs

  /** Nothing fails and nobody interferes; calls may block as long as they like. */
  ghost predicate Kind(w: World) {
    && !w.stopped && !w.cancelled && (w.init.Ready? || w.init.Pending?) && w.localOpens
    && !w.open.Error? && !w.close.Error? && !w.op.Error? && w.Gives()
    && (forall i: nat :: !w.write(i).Error? && !w.read(i).Error? && w.writes(i) && w.badRead(i).None?)
    && (forall d | d in w.next :: !d.DirError?)
  }

  /** Whatever the task calls gets somewhere. */
  predicate Progresses(w: World) {
    && w.init.Ready? && w.open.Done? && w.close.Done? && w.op.Done? && !w.stat.WouldBlock?
    && w.write(0).Done? && w.write(0).n > 0 && w.read(0).Done? && EndOf(w.next).Some?
  }

  ghost predicate AllKind(worlds: seq<World>) {
    forall w | w in worlds :: Kind(w)
  }

  function Progressing(worlds: seq<World>): nat {
    if worlds == [] then 0 else (if Progresses(worlds[0]) then 1 else 0) + Progressing(worlds[1..])
  }

  /** Stepped until it retires or the answers run out: the task then, and what its callback was given. */
  function RunOf(t: AnyTask, worlds: seq<World>): (AnyTask, seq<Report>)
    decreases |worlds|
  {
    if worlds == [] then (t, [])
    else
      var p := StepOf(t, worlds[0]);
      if p.again then RunOf(p.task, worlds[1..]) else (p.task, p.reports)
  }

  // --------------------------------------------------------- nothing has gone wrong so far

  /** A task on which nothing has failed. */
  ghost predicate Fine(t: AnyTask) {
    && TaskValid(t)
    && match t
       case Uploading(u) => !u.readFailed && (u.state.Closing? ==> u.outcome == Success)
       case Downloading(d) => d.state.DownloadClosing? ==> d.outcome == Success
       case Listing(l) => l.state.ListClosing? ==> l.outcome == Success
       case Operating(o) => true
  }

  /** How many calls at most have to get somewhere before the last one. */
  function ToDo(t: AnyTask): nat
    requires TaskValid(t)
  {
    match t
    case Uploading(u) =>
      (match u.state case InitSftp => 3 + |u.file| case OpenHandle => 2 + |u.file|
       case WriteLoop => 1 + (|u.buf| - u.bufSent) + |u.unread| case Closing => 0)
    case Downloading(d) =>
      (match d.state case DownloadInit => 4 case DownloadOpen => 3 case FStat => 2
       case DownloadLoop => 1 case DownloadClosing => 0) + if d.state.DownloadClosing? then 0 else |d.unread|
    case Listing(l) => (match l.state case ListInit => 3 case OpenDir => 2 case ReadLoop => 1 case ListClosing => 0)
    case Operating(o) => if o.initDone then 0 else 1
  }

  /** What the callback is given when all is well. */
  predicate Good(t: AnyTask, reports: seq<Report>) {
    match t
    case Uploading(u) => u.sent == u.file && reports == [Report([], Success)]
    case Downloading(d) => d.written == d.remote && reports == [Report([], Success)]
    case Listing(l) => reports == [Report(l.entries, Success)]
    case Operating(_) => reports == [Report([], Success)]
  }

  /** The same file, the same listing, the same operation. */
  predicate SameWork(t: AnyTask, u: AnyTask) {
    match t
    case Uploading(a) => u.Uploading? && u.up.file == a.file
    case Downloading(d) => u.Downloading? && u.down.remote == d.remote
    case Listing(_) => u.Listing?
    case Operating(o) => u.Operating? && u.op.opSlot == o.opSlot
  }

  /** A step among kind answers leaves a task on which nothing has failed, nearer to its end if it got anywhere, or is
      its good end. */
  ghost predicate GoesWell(t: AnyTask, w: World, p: Progress<AnyTask>)
    requires TaskValid(t)
  {
    SameWork(t, p.task) &&
    if p.again then Fine(p.task) && ToDo(p.task) <= ToDo(t) && (Progresses(w) ==> ToDo(p.task) < ToDo(t)) && p.reports == []
    else Good(p.task, p.reports)
  }

  function Remaining(u: Upload): nat
    requires u.bufSent <= |u.buf|
  {
    |u.buf| - u.bufSent + |u.unread|
  }

  ghost predicate WritesWell(u: Upload, w: World, first: bool, p: Progress<Upload>)
    requires u.bufSent <= |u.buf|
  {
    if p.again then
      && Fine(Uploading(p.task)) && p.reports == [] && p.task.file == u.file
      && (p.task.state.WriteLoop? || p.task.state.Closing?)
      && (p.task.state.WriteLoop? ==> Remaining(p.task) <= Remaining(u) && (first && Progresses(w) ==> Remaining(p.task) < Remaining(u)))
    else Good(Uploading(p.task), p.reports) && p.task.file == u.file
  }

  lemma ClosingGoesWell(u: Upload, w: World, calls: set<Slot>)
    requires Kind(w) && UploadConserves(u) && u.sent == u.file && u.handleOpen && !u.readFailed
    ensures WritesWell(u, w, true, UploadFinish(u, Success, w, calls))
  {}

  lemma {:induction false} SendingGoesWell(v: Upload, w: World, writes: nat, refills: nat)
    requires Kind(w) && UploadConserves(v) && v.bufSent < |v.buf| && v.state.WriteLoop? && v.handleOpen && !v.readFailed
    ensures WritesWell(v, w, writes == 0, WriteOn(v, w, writes, refills))
    decreases |v.unread| + |v.buf| - v.bufSent, 0
  {
    if w.write(writes).Done? {
      var n := Least(w.write(writes).n, |v.buf| - v.bufSent);
      if n > 0 {
        SendConserves(v, n);
        WritingGoesWell(Sent(v, n), w, writes + 1, refills);
      }
    }
  }

  lemma {:induction false} WritingGoesWell(u: Upload, w: World, writes: nat, refills: nat)
    requires Kind(w) && UploadConserves(u) && u.state.WriteLoop? && u.handleOpen && !u.readFailed
    ensures WritesWell(u, w, writes == 0, WriteSome(u, w, writes, refills))
    decreases |u.unread| + |u.buf| - u.bufSent, 1
  {
    if u.bufSent < |u.buf| { SendingGoesWell(u, w, writes, refills); return; }
    var v := Refilled(u, w.badRead(refills));
    RefillConserves(u, w.badRead(refills));
    assert w.badRead(refills).None?;
    if v.buf == [] {
      ClosingGoesWell(v, w, if writes > 0 then {SLOT_WRITE} else {});
    } else {
      SendingGoesWell(v, w, writes, refills + 1);
    }
  }

  lemma UploadSetUpGoesWell(u: Upload, w: World)
    requires Kind(w) && Fine(Uploading(u)) && (u.state.InitSftp? || u.state.OpenHandle?)
    ensures GoesWell(Uploading(u), w, StepOf(Uploading(u), w))
  {
    UploadStepKeeps(u, w);
    var p := UploadSetUp(u, w);
    assert UploadStep(u, w) == p && |u.file| == |u.unread|;
  }

  lemma UploadGoesWell(u: Upload, w: World)
    requires Kind(w) && Fine(Uploading(u))
    ensures GoesWell(Uploading(u), w, StepOf(Uploading(u), w))
  {
    match u.state
    case WriteLoop => WritingGoesWell(u, w, 0, 0);
    case Closing =>
    case _ => UploadSetUpGoesWell(u, w);
  }

  ghost predicate ReadsWell(d: Download, p: Progress<Download>) {
    if p.again then
      && Fine(Downloading(p.task)) && p.reports == [] && p.task.remote == d.remote
      && (p.task.state.DownloadLoop? || p.task.state.DownloadClosing?)
      && (p.task.state.DownloadLoop? ==> |p.task.unread| <= |d.unread|)
    else Good(Downloading(p.task), p.reports) && p.task.remote == d.remote
  }

  lemma {:induction false} ReadingGoesWell(d: Download, w: World, i: nat)
    requires Kind(w) && DownloadConserves(d) && d.state.DownloadLoop? && d.handleOpen
    ensures ReadsWell(d, ReadSome(d, w, i))
    decreases |d.unread|
  {
    if w.read(i).Done? {
      var n := Least(Least(w.read(i).n, TRANSFER_CHUNK), |d.unread|);
      if n > 0 {
        KeepConserves(d, n);
        ReadingGoesWell(Kept(d, n), w, i + 1);
      }
    }
  }

  lemma FirstReadGoesOn(d: Download, w: World)
    requires Kind(w) && Progresses(w) && DownloadConserves(d) && d.state.DownloadLoop? && d.handleOpen
    ensures var p := ReadSome(d, w, 0); p.again && p.task.state.DownloadLoop? ==> |p.task.unread| < |d.unread|
  {
    var n := Least(Least(w.read(0).n, TRANSFER_CHUNK), |d.unread|);
    if n > 0 {
      KeepConserves(d, n);
      ReadingGoesWell(Kept(d, n), w, 1);
    }
  }

  lemma DownloadGoesWell(d: Download, w: World)
    requires Kind(w) && Fine(Downloading(d))
    ensures GoesWell(Downloading(d), w, StepOf(Downloading(d), w))
  {
    if d.state.DownloadLoop? {
      ReadingGoesWell(d, w, 0);
      if Progresses(w) { FirstReadGoesOn(d, w); }
    }
  }

  lemma ListingGoesWell(l: ListDir, w: World)
    requires Kind(w) && Fine(Listing(l))
    ensures GoesWell(Listing(l), w, StepOf(Listing(l), w))
  {
    ListStepKeeps(l, w);
    if l.state.ReadLoop? { ReadingTakesAll(l, w, w.next); }
  }

  lemma StepGoesWell(t: AnyTask, w: World)
    requires Kind(w) && Fine(t)
    ensures GoesWell(t, w, StepOf(t, w))
  {
    match t
    case Uploading(u) => UploadGoesWell(u, w);
    case Downloading(d) => DownloadGoesWell(d, w);
    case Listing(l) => ListingGoesWell(l, w);
    case Operating(o) =>
  }

  /** Among kind answers nothing but success is ever reported, with the whole file sent or written; and it is reported,
      however often calls block in between, once more of them have got somewhere than there was to do. */
  lemma {:induction false} KindRunsSucceed(t: AnyTask, worlds: seq<World>)
    requires AllKind(worlds) && Fine(t)
    ensures var (u, reports) := RunOf(t, worlds);
            && (reports != [] ==> Good(u, reports) && SameWork(t, u))
            && (reports == [] ==> Progressing(worlds) <= ToDo(t))
    decreases |worlds|
  {
    if worlds == [] { return; }
    assert worlds[0] in worlds;
    StepGoesWell(t, worlds[0]);
    var p := StepOf(t, worlds[0]);
    if p.again { KindRunsSucceed(p.task, worlds[1..]); }
  }

  lemma NewIsFine(t: AnyTask)
    requires IsNew(t)
    ensures Fine(t)
  {
    NewIsValid(t);
  }

  /** So every new upload and download among kind answers arrives whole, after as many calls as it has bytes and a few
      more that get somewhere. */
  lemma KindTransfersArrive(file: seq<Byte>, worlds: seq<World>)
    requires AllKind(worlds)
    ensures var (u, reports) := RunOf(Uploading(NewUpload(file)), worlds);
            && (reports == [] || (u.Uploading? && u.up.sent == file && reports == [Report([], Success)]))
            && (Progressing(worlds) >= |file| + 4 ==> reports != [])
    ensures var (d, reports) := RunOf(Downloading(NewDownload(file)), worlds);
            && (reports == [] || (d.Downloading? && d.down.written == file && reports == [Report([], Success)]))
            && (Progressing(worlds) >= |file| + 5 ==> reports != [])
  {
    NewIsFine(Uploading(NewUpload(file)));
    NewIsFine(Downloading(NewDownload(file)));
    KindRunsSucceed(Uploading(NewUpload(file)), worlds);
    KindRunsSucceed(Downloading(NewDownload(file)), worlds);
  }

  // ------------------------------------------------------------------ how it fails

  /** What a task has come to say. */
  function Says(t: AnyTask, reports: seq<Report>): Option<FsError> {
    match t
    case Uploading(u) => if u.state.Closing? then Some(u.outcome) else None
    case Downloading(d) => if d.state.DownloadClosing? then Some(d.outcome) else None
    case Listing(l) => if l.state.ListClosing? then Some(l.outcome) else None
    case Operating(_) => if reports == [] then None else Some(reports[0].error)
  }

  /** The failure a task meets before its own work begins: it is stopped or cancelled, the subsystem does not come up, the
      local file or the remote handle does not open. */
  function EarlyFailure(t: AnyTask, w: World): Option<FsError> {
    if w.stopped then Some(Failure(NotConnected))
    else if IsTransfer(t) && w.cancelled then Some(Failure(Cancelled))
    else if SlotOf(t) == SLOT_INIT then
      if w.init.Failed? || w.init.TimedOut? then Some(Failure(Unsupported))
      else if IsTransfer(t) && w.init.Ready? && !w.localOpens then Some(Failure(LocalIoError))
      else None
    else if !t.Operating? && SlotOf(t) == SLOT_OPEN && w.open.Error? then Some(Failure(w.open.code))
    else None
  }

  /** A task that is not closing yet says so at once if it meets one, and says nothing that early otherwise. */
  lemma EarlyFailuresAreSaid(t: AnyTask, w: World)
    requires TaskValid(t) && !IsClosing(t) && (SlotOf(t) == SLOT_INIT || SlotOf(t) == SLOT_OPEN || EarlyFailure(t, w).Some?)
    requires !t.Operating? || SlotOf(t) == SLOT_INIT || w.stopped
    ensures var p := StepOf(t, w); Says(p.task, p.reports) == EarlyFailure(t, w)
  {}

  // --------------------------------------------------------------------- listings

  function Readies(): World -> bool { (w: World) => w.init.Ready? }

  function Opens(): World -> bool { (w: World) => w.open.Done? }

  /** What comes after the first one of that kind. */
  function After(worlds: seq<World>, p: World -> bool): seq<World> {
    if worlds == [] then [] else if p(worlds[0]) then worlds[1..] else After(worlds[1..], p)
  }

  /** The entries named from there on to the end of the directory, the dot entries left out. */
  function NamedUntilEnd(worlds: seq<World>): seq<string> {
    if worlds == [] then []
    else Named(worlds[0].next) + if EndOf(worlds[0].next).Some? then [] else NamedUntilEnd(worlds[1..])
  }

  /** A listing that is at that stage, and the entries still to come. */
  function ToCome(l: ListDir, worlds: seq<World>): seq<string> {
    match l.state
    case ListInit => NamedUntilEnd(After(After(worlds, Readies()), Opens()))
    case OpenDir => NamedUntilEnd(After(worlds, Opens()))
    case ReadLoop => NamedUntilEnd(worlds)
    case ListClosing => []
  }

  lemma {:induction false} ListingHandsOverRest(l: ListDir, worlds: seq<World>)
    requires AllKind(worlds) && Fine(Listing(l))
    ensures var reports := RunOf(Listing(l), worlds).1;
            reports == [] || reports == [Report(l.entries + ToCome(l, worlds), Success)]
    decreases |worlds|
  {
    if worlds == [] { return; }
    assert worlds[0] in worlds;
    var p := ListStep(l, worlds[0]);
    StepGoesWell(Listing(l), worlds[0]);
    ListStepKeeps(l, worlds[0]);
    assert l.entries + [] == l.entries;
    if l.state.ReadLoop? {
      ReadingTakesAll(l, worlds[0], worlds[0].next);
      ConcatAssoc(l.entries, Named(worlds[0].next), NamedUntilEnd(worlds[1..]));
      assert Named(worlds[0].next) + [] == Named(worlds[0].next);
    }
    if p.again {
      assert p.task.entries + [] == p.task.entries;
      ListingHandsOverRest(p.task, worlds[1..]);
    }
  }

  /** Among kind answers a listing hands over just the entries named once the directory is open, in order, to its end. */
  lemma ListingHandsOver(worlds: seq<World>)
    requires AllKind(worlds)
    ensures var reports := RunOf(Listing(NEW_LISTING), worlds).1;
            && (reports == [] || reports == [Report(NamedUntilEnd(After(After(worlds, Readies()), Opens())), Success)])
            && (Progressing(worlds) >= 4 ==> reports != [])
  {
    NewIsFine(Listing(NEW_LISTING));
    KindRunsSucceed(Listing(NEW_LISTING), worlds);
    ListingHandsOverRest(NEW_LISTING, worlds);
    assert [] + ToCome(NEW_LISTING, worlds) == ToCome(NEW_LISTING, worlds);
  }

  // ------------------------------------------------------------- single operations

  /** The call made for the operation itself is done in the m-th world, having blocked until then, nobody stopping it. */
  predicate DoneAt(worlds: seq<World>, m: nat) {
    m < |worlds| && worlds[m].op.Done? && !worlds[m].stopped && forall j | 0 <= j < m :: worlds[j].op.WouldBlock? && !worlds[j].stopped
  }

  /** The subsystem comes up in the i-th world, and the operation is done some time later. */
  ghost predicate Succeeds(worlds: seq<World>) {
    exists i: nat, m: nat :: SucceedsAt(worlds, i, m)
  }

  predicate SucceedsAt(worlds: seq<World>, i: nat, m: nat) {
    i < |worlds| && ReadyAt(worlds, i) && DoneAt(worlds[i + 1..], m)
  }

  predicate ReadyAt(worlds: seq<World>, i: nat) {
    i < |worlds| && worlds[i].init.Ready? && !worlds[i].stopped && forall j | 0 <= j < i :: worlds[j].init.Pending? && !worlds[j].stopped
  }

  lemma {:induction false} CalledSucceedsIff(o: SimpleOp, worlds: seq<World>)
    requires o.initDone
    ensures RunOf(Operating(o), worlds).1 == [Report([], Success)] <==> exists m: nat :: DoneAt(worlds, m)
    decreases |worlds|
  {
    if worlds == [] { return; }
    var rest := worlds[1..];
    if !worlds[0].stopped && worlds[0].op.Done? { assert DoneAt(worlds, 0); }
    if !worlds[0].stopped && worlds[0].op.WouldBlock? {
      CalledSucceedsIff(o, rest);
      if m: nat :| DoneAt(rest, m) {
        forall j | 0 <= j < m + 1 ensures worlds[j].op.WouldBlock? && !worlds[j].stopped { if j > 0 { assert rest[j - 1] == worlds[j]; } }
        assert DoneAt(worlds, m + 1);
      }
      if m: nat :| DoneAt(worlds, m) {
        forall j | 0 <= j < m - 1 ensures rest[j].op.WouldBlock? && !rest[j].stopped { assert rest[j] == worlds[j + 1]; }
        assert DoneAt(rest, m - 1);
      }
    }
  }

  /** For all answers whatever: an operation succeeds exactly when the subsystem comes up and then its own call does,
      before anyone stops it. */
  lemma {:induction false} OperationSucceedsIff(o: SimpleOp, worlds: seq<World>)
    requires !o.initDone
    ensures RunOf(Operating(o), worlds).1 == [Report([], Success)] <==> Succeeds(worlds)
    decreases |worlds|
  {
    if worlds == [] { return; }
    var w, rest := worlds[0], worlds[1..];
    if !w.stopped && w.init.Ready? {
      CalledSucceedsIff(o.(initDone := true), rest);
      assert worlds[0 + 1..] == rest;
      if m: nat :| DoneAt(rest, m) { assert SucceedsAt(worlds, 0, m); }
    }
    if !w.stopped && w.init.Pending? {
      OperationSucceedsIff(o, rest);
      LaterSucceeds(worlds);
    }
  }

  /** One more world in which the subsystem is not up yet makes no difference. */
  lemma LaterSucceeds(worlds: seq<World>)
    requires worlds != [] && !worlds[0].stopped && worlds[0].init.Pending?
    ensures Succeeds(worlds) <==> Succeeds(worlds[1..])
  {
    var rest := worlds[1..];
    if i: nat, m: nat :| SucceedsAt(rest, i, m) {
      forall j | 0 <= j < i + 1 ensures worlds[j].init.Pending? && !worlds[j].stopped { if j > 0 { assert rest[j - 1] == worlds[j]; } }
      assert worlds[i + 1 + 1..] == rest[i + 1..] && rest[i] == worlds[i + 1];
      assert SucceedsAt(worlds, i + 1, m);
    }
    if i: nat, m: nat :| SucceedsAt(worlds, i, m) {
      forall j | 0 <= j < i - 1 ensures rest[j].init.Pending? && !rest[j].stopped { assert rest[j] == worlds[j + 1]; }
      assert rest[i - 1 + 1..] == worlds[i + 1..] && rest[i - 1] == worlds[i];
      assert SucceedsAt(rest, i - 1, m);
    }
  }

  // ------------------------------------------------------------- transfers in place

  /** The worlds as a transfer sees them whose cancellation was asked for, or not, before it began. */
  function Seen(worlds: seq<World>, cancelled: bool): seq<World> {
    seq(|worlds|, i requires 0 <= i < |worlds| => worlds[i].(cancelled := cancelled))
  }

  /** A download stepped until it retires or the answers run out. */
  method RunDownload(task: DownloadTask, worlds: seq<World>) returns (retired: bool)
    requires task.Valid() && task.reports == [] && forall w | w in worlds :: w.Gives()
    modifies task, task.registry
    ensures task.Valid()
    ensures retired <==> task.reports != []
    ensures retired ==> task.reports == [Report([], task.outcome)]
    ensures retired ==> task.handleId !in task.registry.live + task.registry.cancelled
    ensures task.reports == [Report([], Success)] ==> task.written == task.remote
    ensures worlds != [] && worlds[|worlds| - 1].stopped ==> retired
    ensures var seen := Seen(worlds, old(task.handleId in task.registry.cancelled));
            (Downloading(task.Value()), task.reports) == RunOf(Downloading(old(task.Value())), seen)
  {
    ghost var seen := Seen(worlds, task.handleId in task.registry.cancelled);
    assert seen[0..] == seen;
    for i := 0 to |worlds|
      invariant task.Valid() && task.reports == [] && (task.handleId in task.registry.cancelled) == old(task.handleId in task.registry.cancelled)
      invariant i > 0 ==> !worlds[i - 1].stopped
      invariant RunOf(Downloading(task.Value()), seen[i..]) == RunOf(Downloading(old(task.Value())), seen)
    {
      assert seen[i..][0] == seen[i] && seen[i..][1..] == seen[i + 1..];
      var again := task.Step(worlds[i]);
      if !again { return true; }
    }
    return false;
  }

  /** An upload stepped until it retires or the answers run out: it reports exactly once, at the end,
      and never again; success means the file arrived whole. */
  method RunUpload(task: UploadTask, worlds: seq<World>) returns (retired: bool)
    requires task.Valid() && task.reports == []
    modifies task, task.registry
    ensures task.Valid()
    ensures retired <==> task.reports != []
    ensures retired ==> task.reports == [Report([], task.outcome)]
    ensures retired ==> task.handleId !in task.registry.live + task.registry.cancelled
    ensures task.reports == [Report([], Success)] ==> task.sent == task.file
    ensures worlds != [] && worlds[|worlds| - 1].stopped ==> retired
    ensures var seen := Seen(worlds, old(task.handleId in task.registry.cancelled));
            (Uploading(task.Value()), task.reports) == RunOf(Uploading(old(task.Value())), seen)
  {
    ghost var seen := Seen(worlds, task.handleId in task.registry.cancelled);
    assert seen[0..] == seen;
    for i := 0 to |worlds|
      invariant task.Valid() && task.reports == [] && (task.handleId in task.registry.cancelled) == old(task.handleId in task.registry.cancelled)
      invariant i > 0 ==> !worlds[i - 1].stopped
      invariant RunOf(Uploading(task.Value()), seen[i..]) == RunOf(Uploading(old(task.Value())), seen)
    {
      assert seen[i..][0] == seen[i] && seen[i..][1..] == seen[i + 1..];
      var again := task.Step(worlds[i]);
      if !again { return true; }
    }
    return false;
  }
}
