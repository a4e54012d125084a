/** The resumable SFTP tasks (src/transport/SshSftpService.cpp:156-201, 356-474, 476-774, 814-836, 877-909).

    A task is a value and a step a function of it and of what the outside world answers during the step:
    whether the service is stopped or the transfer cancelled, how the subsystem comes up, what each
    library call returns. A step says which slots' calls it made, on which it leaves a request
    outstanding, and what its callback is given. The classes are the same machines with their fields
    updated in place. Progress reporting and its clock are left out.
  */
module SftpTasks {
  import opened Style
  import opened SftpTaskQueue

  type Byte = b: int | 0 <= b < 256

  datatype FsErrorCode =
    | NoSuchFile | PermissionDenied | AlreadyExists | DirectoryNotEmpty | NotADirectory
    | NotConnected | Cancelled | Unsupported | Protocol | LocalIoError

  datatype FsError = Success | Failure(code: FsErrorCode)

  /** Bringing up the subsystem; a time-out leaves its request outstanding. */
  datatype InitReply = Ready | Pending | Failed | TimedOut

  /** A library call: it would block, it failed with a classified status, or it is done with a count. */
  datatype Reply = WouldBlock | Error(code: FsErrorCode) | Done(n: nat)

  /** One readdir call: it failed, hit the end, or named an entry. */
  datatype DirReply = DirError(code: FsErrorCode) | DirEnd | DirEntry(name: string)

  const TRANSFER_CHUNK := 32768

  /** What the world answers during one step; each task reads what concerns it. `write(i)` and `read(i)`
      answer the step's i-th write and read, `writes(i)` is whether the i-th local write succeeds, the
      i-th local read fails after `badRead(i)` bytes if that is given, and `next` are the directory
      entries at hand: past them a readdir would block. */
  datatype World = World(stopped: bool, cancelled: bool, init: InitReply, localOpens: bool, open: Reply, stat: Reply,
                         write: nat -> Reply, badRead: nat -> Option<nat>, read: nat -> Reply, writes: nat -> bool,
                         next: seq<DirReply>, op: Reply, close: Reply)
  {
    /** A read that is done hands over at least one byte unless the file is at its end. */
    ghost predicate Gives() { forall i :: read(i).Done? ==> read(i).n > 0 }
  }

  datatype Report = Report(entries: seq<string>, error: FsError)

  /** What a step did: whether there is more to do, the task it leaves, the slots whose calls it made, the
      one it left outstanding, and the callbacks it fired. */
  datatype Progress<T> = Progress(again: bool, task: T, calls: set<Slot>, outstanding: Option<Slot>, reports: seq<Report>)

  function Moved<T>(task: T, calls: set<Slot>): Progress<T> {
    Progress(true, task, calls, None, [])
  }

  function Waits<T>(task: T, slot: Slot): Progress<T> {
    Progress(true, task, {slot}, Some(slot), [])
  }

  // ------------------------------------------------------ cancellation registry

  class Registry {
    var live: set<nat>
    var cancelled: set<nat>

    predicate Valid()
      reads this
    {
      cancelled <= live
    }

    constructor ()
      ensures Valid() && live == {} && cancelled == {}
    {
      live, cancelled := {}, {};
    }

    method RegisterTransfer(handle: nat)
      requires Valid()
      modifies this`live
      ensures Valid() && live == old(live) + {handle}
    {
      live := live + {handle};
    }

    /** Only a transfer that is still running can be asked to stop. */
    method Cancel(handle: nat)
      requires Valid()
      modifies this`cancelled
      ensures Valid() && cancelled == if handle in live then old(cancelled) + {handle} else old(cancelled)
    {
      if handle !in live { return; }
      cancelled := cancelled + {handle};
    }

    method ForgetCancellation(handle: nat)
      requires Valid()
      modifies this
      ensures Valid() && live == old(live) - {handle} && cancelled == old(cancelled) - {handle}
    {
      live := live - {handle};
      cancelled := cancelled - {handle};
    }
  }

  /** What a step leaves of the registry: nothing changes until the task retires. */
  twostate predicate Forgotten(registry: Registry, handleId: nat, again: bool)
    reads registry
  {
    if again then registry.live == old(registry.live) && registry.cancelled == old(registry.cancelled)
    else registry.live == old(registry.live) - {handleId} && registry.cancelled == old(registry.cancelled) - {handleId}
  }

  // ----------------------------------------------------------------- closing

  /** One attempt at closing a handle: `None` while it is pending, else the outcome to report. A close
      error is reported only when there is nothing worse. */
  function StepHandleClose(open: bool, outcome: FsError, stopped: bool, close: Reply): Option<FsError> {
    if !open || stopped then Some(outcome)
    else if close.WouldBlock? then None
    else if close.Error? && outcome == Success then Some(Failure(close.code))
    else Some(outcome)
  }

  lemma CloseKeepsTheFirstError(open: bool, outcome: FsError, stopped: bool, close: Reply)
    ensures var r := StepHandleClose(open, outcome, stopped, close);
            && (outcome.Failure? && r.Some? ==> r.value == outcome)
            && (r.Some? && r.value == Success ==> outcome == Success)
            && (stopped ==> r == Some(outcome))
  {}

  function CloseCall(open: bool, stopped: bool): set<Slot> {
    if open && !stopped then {SLOT_CLOSE} else {}
  }

  /** A step retires its task exactly when it fires the callback, and at once when stopped. */
  predicate ReportsOnce<T>(p: Progress<T>, w: World) {
    |p.reports| == (if p.again then 0 else 1) && (w.stopped ==> !p.again && p.calls == {} && p.outstanding == None)
  }

  // ------------------------------------------------------------------ uploads

  datatype UploadState = InitSftp | OpenHandle | WriteLoop | Closing

  datatype Upload = Upload(file: seq<Byte>, state: UploadState, handleOpen: bool, unread: seq<Byte>, buf: seq<Byte>,
                           bufSent: nat, readFailed: bool, sent: seq<Byte>, transferred: nat, total: nat, outcome: FsError)

  function Least(a: nat, b: nat): nat { if a <= b then a else b }

  function NewUpload(file: seq<Byte>): Upload {
    Upload(file, InitSftp, false, file, [], 0, false, [], 0, 0, Success)
  }

  function UploadSlot(u: Upload): Slot {
    match u.state
    case InitSftp => SLOT_INIT
    case OpenHandle => SLOT_OPEN
    case WriteLoop => SLOT_WRITE
    case Closing => SLOT_CLOSE
  }

  /** No byte is lost, doubled or reordered on its way from the file to the server. */
  predicate UploadConserves(u: Upload) {
    && u.bufSent <= |u.buf|
    && u.sent + u.buf[u.bufSent..] + u.unread == u.file
    && u.transferred == |u.sent|
  }

  predicate UploadValid(u: Upload) {
    && UploadConserves(u)
    && (u.state.InitSftp? || u.state.OpenHandle? ==> u.sent == [] && u.buf == [] && !u.handleOpen)
    && (u.state.WriteLoop? ==> u.handleOpen)
    && (u.state.Closing? && u.outcome == Success ==> u.sent == u.file)
  }

  function UploadClose(u: Upload, w: World, calls: set<Slot>): Progress<Upload> {
    match StepHandleClose(u.handleOpen, u.outcome, w.stopped, w.close)
    case None => Progress(true, u, calls + {SLOT_CLOSE}, Some(SLOT_CLOSE), [])
    case Some(result) =>
      Progress(false, u.(outcome := result, handleOpen := false), calls + CloseCall(u.handleOpen, w.stopped), None,
               [Report([], result)])
  }

  function UploadFinish(u: Upload, err: FsError, w: World, calls: set<Slot>): Progress<Upload> {
    UploadClose(u.(outcome := err, state := Closing), w, calls)
  }

  /** The next chunk of the file, or what came before a read error; a failed stream reads no more. */
  function Refilled(u: Upload, bad: Option<nat>): Upload {
    var most := if u.readFailed then 0 else Least(TRANSFER_CHUNK, |u.unread|);
    var n := if bad.Some? then Least(most, bad.value) else most;
    u.(buf := u.unread[..n], unread := u.unread[n..], bufSent := 0, readFailed := u.readFailed || bad.Some?)
  }

  /** The server took the next `n` bytes of the buffer. */
  function Sent(u: Upload, n: nat): Upload
    requires u.bufSent + n <= |u.buf|
  {
    u.(sent := u.sent + u.buf[u.bufSent..u.bufSent + n], bufSent := u.bufSent + n, transferred := u.transferred + n)
  }

  /** The write loop: refill the buffer when it is spent, send, yield when nothing moves. */
  function WriteSome(u: Upload, w: World, writes: nat, refills: nat): Progress<Upload>
    requires u.bufSent <= |u.buf|
    decreases |u.unread| + |u.buf| - u.bufSent, 1
  {
    if u.bufSent < |u.buf| then WriteOn(u, w, writes, refills)
    else
      var v := Refilled(u, w.badRead(refills));
      if v.buf == [] then
        UploadFinish(v, if v.readFailed then Failure(LocalIoError) else Success, w, if writes > 0 then {SLOT_WRITE} else {})
      else WriteOn(v, w, writes, refills + 1)
  }

  function WriteOn(v: Upload, w: World, writes: nat, refills: nat): Progress<Upload>
    requires v.bufSent < |v.buf|
    decreases |v.unread| + |v.buf| - v.bufSent, 0
  {
    match w.write(writes)
    case WouldBlock => Waits(v, SLOT_WRITE)
    case Error(code) => UploadFinish(v, Failure(code), w, {SLOT_WRITE})
    case Done(asked) =>
      var n := Least(asked, |v.buf| - v.bufSent);
      if n == 0 then Moved(v, {SLOT_WRITE}) else WriteSome(Sent(v, n), w, writes + 1, refills)
  }

  /** The steps before the write loop: the subsystem, the local file, the remote handle. */
  function UploadSetUp(u: Upload, w: World): Progress<Upload> {
    if u.state.InitSftp? then
      match w.init
      case Pending => Waits(u, SLOT_INIT)
      case Failed => UploadFinish(u, Failure(Unsupported), w, {SLOT_INIT})
      case TimedOut => UploadFinish(u, Failure(Unsupported), w, {SLOT_INIT}).(outstanding := Some(SLOT_INIT))
      case Ready =>
        if !w.localOpens then UploadFinish(u, Failure(LocalIoError), w, {SLOT_INIT})
        else Moved(u.(total := |u.file|, state := OpenHandle), {SLOT_INIT})
    else
      match w.open
      case WouldBlock => Waits(u, SLOT_OPEN)
      case Error(code) => UploadFinish(u, Failure(code), w, {SLOT_OPEN})
      case Done(_) => Moved(u.(handleOpen := true, state := WriteLoop), {SLOT_OPEN})
  }

  function UploadStep(u: Upload, w: World): Progress<Upload>
    requires u.bufSent <= |u.buf|
  {
    if u.state.Closing? then UploadClose(u, w, {})
    else if w.stopped then UploadFinish(u, Failure(NotConnected), w, {})
    else if w.cancelled then UploadFinish(u, Failure(Cancelled), w, {})
    else if u.state.WriteLoop? then WriteSome(u, w, 0, 0)
    else UploadSetUp(u, w)
  }

  lemma RefillConserves(u: Upload, bad: Option<nat>)
    requires UploadConserves(u) && u.bufSent >= |u.buf|
    ensures UploadConserves(Refilled(u, bad))
    ensures var v := Refilled(u, bad); v.buf == [] && !v.readFailed ==> v.sent == v.file
  {
    var v := Refilled(u, bad);
    var n := |v.buf|;
    assert v.buf == u.unread[..n] && v.unread == u.unread[n..];
    assert u.unread == u.unread[..n] + u.unread[n..];
    assert v.buf[0..] == v.buf && u.buf[u.bufSent..] == [];
  }

  lemma SendConserves(u: Upload, n: nat)
    requires UploadConserves(u) && u.bufSent + n <= |u.buf|
    ensures UploadConserves(Sent(u, n)) && u.sent <= Sent(u, n).sent
  {
    assert u.buf[u.bufSent..] == u.buf[u.bufSent..u.bufSent + n] + u.buf[u.bufSent + n..];
  }

  /** What a step keeps: the bytes, in order, and the reporting; a task that retires is closing. */
  predicate UploadKept(u: Upload, p: Progress<Upload>, w: World) {
    && UploadValid(p.task) && u.sent <= p.task.sent && p.task.file == u.file && ReportsOnce(p, w)
    && (!p.again ==> p.task.state.Closing? && p.reports == [Report([], p.task.outcome)])
  }

  lemma UploadFinishKeeps(u: Upload, err: FsError, w: World, calls: set<Slot>)
    requires UploadConserves(u) && (err == Success ==> u.sent == u.file) && (w.stopped ==> calls == {})
    ensures UploadKept(u, UploadFinish(u, err, w, calls), w)
  {}

  lemma KeptFromEarlier(u: Upload, v: Upload, p: Progress<Upload>, w: World)
    requires UploadKept(v, p, w) && u.sent <= v.sent && v.file == u.file
    ensures UploadKept(u, p, w)
  {}

  /** The rest of the write loop once the buffer has something in it. */
  lemma {:induction false} SendingConserves(v: Upload, w: World, writes: nat, refills: nat)
    requires UploadConserves(v) && v.bufSent < |v.buf| && v.state.WriteLoop? && v.handleOpen && !w.stopped
    ensures UploadKept(v, WriteOn(v, w, writes, refills), w)
    decreases |v.unread| + |v.buf| - v.bufSent, 0
  {
    match w.write(writes)
    case WouldBlock => return;
    case Error(code) => UploadFinishKeeps(v, Failure(code), w, {SLOT_WRITE}); return;
    case Done(asked) =>
      var n := Least(asked, |v.buf| - v.bufSent);
      if n == 0 { return; }
      SendConserves(v, n);
      WritingConserves(Sent(v, n), w, writes + 1, refills);
      KeptFromEarlier(v, Sent(v, n), WriteSome(Sent(v, n), w, writes + 1, refills), w);
  }

  /** For every pattern of short, empty and blocked writes and of failing reads, the bytes sent, the
      unsent buffer and the unread rest make up the file; a loop that ends well has sent it all. */
  lemma {:induction false} WritingConserves(u: Upload, w: World, writes: nat, refills: nat)
    requires UploadConserves(u) && u.state.WriteLoop? && u.handleOpen && !w.stopped
    ensures UploadKept(u, WriteSome(u, w, writes, refills), w)
    decreases |u.unread| + |u.buf| - u.bufSent, 1
  {
    if u.bufSent < |u.buf| {
      SendingConserves(u, w, writes, refills);
      return;
    }
    var v := Refilled(u, w.badRead(refills));
    RefillConserves(u, w.badRead(refills));
    if v.buf == [] {
      UploadFinishKeeps(v, if v.readFailed then Failure(LocalIoError) else Success, w, if writes > 0 then {SLOT_WRITE} else {});
      return;
    }
    SendingConserves(v, w, writes, refills + 1);
  }

  /** Every step of an upload keeps the bytes, reports exactly when it retires the task, and reports
      success only when the server has the whole file in order. */
  lemma UploadStepKeeps(u: Upload, w: World)
    requires UploadValid(u)
    ensures var p := UploadStep(u, w);
            UploadKept(u, p, w) && (p.reports == [Report([], Success)] ==> p.task.sent == u.file)
  {
    if !u.state.Closing? && !w.stopped && !w.cancelled {
      if u.state.WriteLoop? { WritingConserves(u, w, 0, 0); } else { UploadSetUpKeeps(u, w); }
    }
  }

  /** Which error a step leaves when it is not the write loop that failed. */
  lemma UploadStepErrors(u: Upload, w: World)
    requires UploadValid(u)
    ensures var p, over := UploadStep(u, w), w.stopped || w.cancelled;
            && (u.state.Closing? && u.outcome.Failure? ==> p.task.outcome == u.outcome)
            && (w.stopped && !u.state.Closing? ==> p.task.outcome == Failure(NotConnected))
            && (!w.stopped && !u.state.Closing? && w.cancelled ==> p.task.outcome == Failure(Cancelled))
            && (!over && u.state.OpenHandle? && w.open.Error? ==> !p.again && p.task.outcome == Failure(w.open.code))
  {}

  lemma UploadSetUpKeeps(u: Upload, w: World)
    requires UploadValid(u) && (u.state.InitSftp? || u.state.OpenHandle?) && !w.stopped
    ensures UploadKept(u, UploadSetUp(u, w), w)
  {
    if u.state.InitSftp? {
      if w.init.Failed? || w.init.TimedOut? { UploadFinishKeeps(u, Failure(Unsupported), w, {SLOT_INIT}); return; }
      if w.init.Ready? && !w.localOpens { UploadFinishKeeps(u, Failure(LocalIoError), w, {SLOT_INIT}); return; }
    } else if w.open.Error? {
      UploadFinishKeeps(u, Failure(w.open.code), w, {SLOT_OPEN});
      return;
    }
  }

  /** The index of the write after the last one the step makes. */
  function WritesUpTo(u: Upload, w: World, writes: nat, refills: nat): (last: nat)
    requires u.bufSent <= |u.buf|
    ensures last >= writes
    decreases |u.unread| + |u.buf| - u.bufSent, 1
  {
    if u.bufSent < |u.buf| then WritesOnUpTo(u, w, writes, refills)
    else
      var v := Refilled(u, w.badRead(refills));
      if v.buf == [] then writes else WritesOnUpTo(v, w, writes, refills + 1)
  }

  function WritesOnUpTo(v: Upload, w: World, writes: nat, refills: nat): (last: nat)
    requires v.bufSent < |v.buf|
    ensures last > writes
    decreases |v.unread| + |v.buf| - v.bufSent, 0
  {
    if !w.write(writes).Done? then writes + 1
    else
      var n := Least(w.write(writes).n, |v.buf| - v.bufSent);
      if n == 0 then writes + 1 else WritesUpTo(Sent(v, n), w, writes + 1, refills)
  }

  /** The write loop went from one write to another, and an upload that failed in it failed for a reason: a bad local
      read, its very last write, or a failing close after everything was sent. */
  ghost predicate WriteErrorHasCause(p: Progress<Upload>, w: World, first: nat, last: nat) {
    p.task.state.Closing? && p.task.outcome.Failure? ==>
      || (p.task.readFailed && p.task.outcome.code == LocalIoError)
      || (!p.again && p.task.sent == p.task.file && w.close == Error(p.task.outcome.code))
      || (first < last && w.write(last - 1) == Error(p.task.outcome.code))
  }

  /** Every write before the last one took something. */
  lemma {:induction false} EarlierWritesTook(u: Upload, w: World, writes: nat, refills: nat, i: nat)
    requires u.bufSent <= |u.buf| && writes <= i < WritesUpTo(u, w, writes, refills) - 1
    ensures w.write(i).Done? && w.write(i).n > 0
    decreases |u.unread| + |u.buf| - u.bufSent
  {
    var spent := u.bufSent >= |u.buf|;
    var v := if spent then Refilled(u, w.badRead(refills)) else u;
    var n := Least(w.write(writes).n, |v.buf| - v.bufSent);
    if i > writes { EarlierWritesTook(Sent(v, n), w, writes + 1, if spent then refills + 1 else refills, i); }
  }

  lemma {:induction false} WriteErrorCause(u: Upload, w: World, writes: nat, refills: nat)
    requires UploadConserves(u) && u.state.WriteLoop?
    ensures WriteErrorHasCause(WriteSome(u, w, writes, refills), w, writes, WritesUpTo(u, w, writes, refills))
    ensures forall i | writes <= i < WritesUpTo(u, w, writes, refills) - 1 :: w.write(i).Done? && w.write(i).n > 0
    decreases |u.unread| + |u.buf| - u.bufSent, 1
  {
    forall i | writes <= i < WritesUpTo(u, w, writes, refills) - 1 ensures w.write(i).Done? && w.write(i).n > 0 {
      EarlierWritesTook(u, w, writes, refills, i);
    }
    if u.bufSent < |u.buf| { WriteOnErrorCause(u, w, writes, refills); return; }
    RefillConserves(u, w.badRead(refills));
    var v := Refilled(u, w.badRead(refills));
    if v.buf != [] { WriteOnErrorCause(v, w, writes, refills + 1); }
  }

  lemma {:induction false} WriteOnErrorCause(v: Upload, w: World, writes: nat, refills: nat)
    requires UploadConserves(v) && v.state.WriteLoop? && v.bufSent < |v.buf|
    ensures WriteErrorHasCause(WriteOn(v, w, writes, refills), w, writes, WritesOnUpTo(v, w, writes, refills))
    decreases |v.unread| + |v.buf| - v.bufSent, 0
  {
    if w.write(writes).Done? {
      var n := Least(w.write(writes).n, |v.buf| - v.bufSent);
      if n > 0 {
        SendConserves(v, n);
        WriteErrorCause(Sent(v, n), w, writes + 1, refills);
      }
    }
  }

  class UploadTask {
    const registry: Registry
    const handleId: nat
    const file: seq<Byte>

    var state: UploadState
    var handleOpen: bool
    var unread: seq<Byte>
    var buf: seq<Byte>
    var bufSent: nat
    var readFailed: bool
    var sent: seq<Byte>
    var transferred: nat
    var total: nat
    var outcome: FsError
    var reports: seq<Report>

    function Value(): Upload
      reads this
    {
      Upload(file, state, handleOpen, unread, buf, bufSent, readFailed, sent, transferred, total, outcome)
    }

    predicate Valid()
      reads this, registry
    {
      registry.Valid() && UploadValid(Value())
    }

    constructor (registry: Registry, handleId: nat, file: seq<Byte>)
      requires registry.Valid()
      ensures Valid() && reports == [] && Value() == NewUpload(file)
      ensures this.registry == registry && this.handleId == handleId && this.file == file
    {
      this.registry, this.handleId, this.file := registry, handleId, file;
      state, handleOpen, unread, buf, bufSent, readFailed := InitSftp, false, file, [], 0, false;
      sent, transferred, total, outcome, reports := [], 0, 0, Success, [];
    }

    /** One step. The callback fires in the step that returns false and in no other; it reports the
        first error, and it reports success only when the server has the whole file in order. */
    method Step(w: World) returns (again: bool)
      requires Valid() && reports == []
      modifies this, registry
      ensures Valid() && old(sent) <= sent && Forgotten(registry, handleId, again)
      ensures var p := UploadStep(old(Value()), w.(cancelled := handleId in old(registry.cancelled)));
              again == p.again && Value() == p.task && reports == p.reports
      ensures reports == if again then [] else [Report([], outcome)]
      ensures reports == [Report([], Success)] ==> sent == file
      ensures w.stopped ==> !again
      ensures old(state).Closing? && old(outcome).Failure? ==> outcome == old(outcome)
      ensures w.stopped && !old(state).Closing? ==> outcome == Failure(NotConnected)
      ensures !w.stopped && !old(state).Closing? && handleId in old(registry.cancelled) ==> outcome == Failure(Cancelled)
      ensures !w.stopped && old(state).OpenHandle? && handleId !in old(registry.cancelled) && w.open.Error? ==>
                !again && outcome == Failure(w.open.code)
    {
      var seen := w.(cancelled := handleId in registry.cancelled);
      UploadStepKeeps(Value(), seen);
      UploadStepErrors(Value(), seen);
      again := Advance(seen);
    }

    method Advance(w: World) returns (again: bool)
      requires Valid() && reports == [] && w.cancelled == (handleId in registry.cancelled)
      modifies this, registry
      ensures registry.Valid() && Forgotten(registry, handleId, again)
      ensures var p := UploadStep(old(Value()), w); again == p.again && Value() == p.task && reports == p.reports
    {
      if state.Closing? { again := AdvanceClose(w); return; }
      if w.stopped { again := Finish(Failure(NotConnected), w); return; }
      if w.cancelled { again := Finish(Failure(Cancelled), w); return; }
      if state.WriteLoop? { again := WriteLoopStep(w); } else { again := SetUp(w); }
    }

    /** The subsystem, then the local file and the remote handle; each change of slot yields. */
    method SetUp(w: World) returns (again: bool)
      requires (state.InitSftp? || state.OpenHandle?) && reports == [] && registry.Valid()
      modifies this, registry
      ensures registry.Valid() && Forgotten(registry, handleId, again)
      ensures var p := UploadSetUp(old(Value()), w); again == p.again && Value() == p.task && reports == p.reports
    {
      if state.InitSftp? {
        if w.init.Pending? { return true; }
        if w.init.Failed? || w.init.TimedOut? { again := Finish(Failure(Unsupported), w); return; }
        if !w.localOpens { again := Finish(Failure(LocalIoError), w); return; }
        total := |file|;
        state := OpenHandle;
        return true;
      }
      if w.open.WouldBlock? { return true; }
      if w.open.Error? { again := Finish(Failure(w.open.code), w); return; }
      handleOpen := true;
      state := WriteLoop;
      return true;
    }

    /** The write loop: refill the buffer when it is spent, send, yield when nothing moves. */
    method WriteLoopStep(w: World) returns (again: bool)
      requires UploadConserves(Value()) && state.WriteLoop? && reports == [] && registry.Valid()
      modifies this, registry
      ensures registry.Valid() && Forgotten(registry, handleId, again)
      ensures var p := WriteSome(old(Value()), w, 0, 0);
              again == p.again && Value() == p.task && reports == p.reports
    {
      var writes, refills := 0, 0;
      while true
        invariant UploadConserves(Value()) && state.WriteLoop? && reports == [] && registry.Valid()
        invariant registry.live == old(registry.live) && registry.cancelled == old(registry.cancelled)
        invariant WriteSome(Value(), w, writes, refills) == WriteSome(old(Value()), w, 0, 0)
        decreases |unread| + |buf| - bufSent
      {
        var over := false;
        if bufSent >= |buf| {
          over, again := RefillOnce(w, writes, refills);
          if over { return; }
          refills := refills + 1;
        }
        over, again := WriteOnce(w, writes, refills);
        if over { return; }
        writes := writes + 1;
      }
    }

    /** A spent buffer is refilled; with nothing more to read the step ends. */
    method RefillOnce(w: World, ghost writes: nat, refills: nat) returns (over: bool, again: bool)
      requires UploadConserves(Value()) && bufSent >= |buf| && state.WriteLoop? && reports == [] && registry.Valid()
      modifies this, registry
      ensures registry.Valid()
      ensures var p := WriteSome(old(Value()), w, writes, refills);
              if over then again == p.again && Value() == p.task && reports == p.reports && Forgotten(registry, handleId, again)
              else
                && UploadConserves(Value()) && bufSent < |buf| && p == WriteOn(Value(), w, writes, refills + 1) && state.WriteLoop?
                && |unread| + |buf| - bufSent <= old(|unread| + |buf| - bufSent) && reports == [] && Forgotten(registry, handleId, true)
    {
      RefillConserves(Value(), w.badRead(refills));
      Refill(w.badRead(refills));
      if |buf| == 0 {
        again := Finish(if readFailed then Failure(LocalIoError) else Success, w);
        return true, again;
      }
      return false, true;
    }

    /** One write: it ends the step unless the server took something. */
    method WriteOnce(w: World, writes: nat, ghost refills: nat) returns (over: bool, again: bool)
      requires UploadConserves(Value()) && bufSent < |buf| && state.WriteLoop? && reports == [] && registry.Valid()
      modifies this, registry
      ensures registry.Valid()
      ensures var p := WriteOn(old(Value()), w, writes, refills);
              if over then again == p.again && Value() == p.task && reports == p.reports && Forgotten(registry, handleId, again)
              else
                && UploadConserves(Value()) && p == WriteSome(Value(), w, writes + 1, refills) && state.WriteLoop?
                && |unread| + |buf| - bufSent < old(|unread| + |buf| - bufSent) && reports == [] && Forgotten(registry, handleId, true)
    {
      match w.write(writes)
      case WouldBlock => return true, true;
      case Error(code) =>
        again := Finish(Failure(code), w);
        return true, again;
      case Done(asked) =>
        var n := Least(asked, |buf| - bufSent);
        if n == 0 { return true, true; }
        SendConserves(Value(), n);
        Send(n);
        return false, true;
    }

    /** The next chunk of the file, or what came before a read error; a failed stream reads no more. */
    method Refill(bad: Option<nat>)
      requires bufSent >= |buf|
      modifies this`buf, this`unread, this`bufSent, this`readFailed
      ensures Value() == Refilled(old(Value()), bad)
    {
      var n := if readFailed then 0 else Least(TRANSFER_CHUNK, |unread|);
      if bad.Some? {
        n := Least(n, bad.value);
        readFailed := true;
      }
      buf, unread, bufSent := unread[..n], unread[n..], 0;
    }

    /** The server took the next `n` bytes of the buffer. */
    method Send(n: nat)
      requires bufSent + n <= |buf|
      modifies this`sent, this`bufSent, this`transferred
      ensures Value() == Sent(old(Value()), n)
    {
      sent := sent + buf[bufSent..bufSent + n];
      bufSent := bufSent + n;
      transferred := transferred + n;
    }

    method Finish(err: FsError, w: World) returns (again: bool)
      requires registry.Valid() && reports == []
      modifies this`outcome, this`state, this`handleOpen, this`reports, registry
      ensures registry.Valid() && Forgotten(registry, handleId, again)
      ensures var p := UploadFinish(old(Value()), err, w, {}); again == p.again && Value() == p.task && reports == p.reports
    {
      outcome := err;
      state := Closing;
      again := AdvanceClose(w);
    }

    method AdvanceClose(w: World) returns (again: bool)
      requires registry.Valid() && reports == []
      modifies this`outcome, this`handleOpen, this`reports, registry
      ensures registry.Valid() && Forgotten(registry, handleId, again)
      ensures var p := UploadClose(old(Value()), w, {}); again == p.again && Value() == p.task && reports == p.reports
    {
      match StepHandleClose(handleOpen, outcome, w.stopped, w.close)
      case None => return true;
      case Some(result) =>
        outcome := result;
        handleOpen := false;
        registry.ForgetCancellation(handleId);
        reports := [Report([], outcome)];
        return false;
    }
  }

  // --------------------------------------------------------------- downloads

  datatype DownloadState = DownloadInit | DownloadOpen | FStat | DownloadLoop | DownloadClosing

  datatype Download = Download(remote: seq<Byte>, state: DownloadState, handleOpen: bool, unread: seq<Byte>,
                               written: seq<Byte>, transferred: nat, total: nat, outcome: FsError)

  function NewDownload(remote: seq<Byte>): Download {
    Download(remote, DownloadInit, false, remote, [], 0, 0, Success)
  }

  function DownloadSlot(d: Download): Slot {
    match d.state
    case DownloadInit => SLOT_INIT
    case DownloadOpen => SLOT_OPEN
    case FStat => SLOT_FSTAT
    case DownloadLoop => SLOT_READ
    case DownloadClosing => SLOT_CLOSE
  }

  /** What is on disk is what came first from the server, in order, and none of it twice. */
  predicate DownloadConserves(d: Download) {
    d.transferred == |d.written| && d.written + d.unread == d.remote
  }

  predicate DownloadValid(d: Download) {
    && d.transferred == |d.written| && d.written <= d.remote
    && (!d.state.DownloadClosing? ==> DownloadConserves(d))
    && (d.state.DownloadInit? || d.state.DownloadOpen? ==> !d.handleOpen)
    && (d.state.FStat? || d.state.DownloadLoop? ==> d.handleOpen)
    && (d.state.DownloadClosing? && d.outcome == Success ==> d.written == d.remote)
  }

  function DownloadClose(d: Download, w: World, calls: set<Slot>): Progress<Download> {
    match StepHandleClose(d.handleOpen, d.outcome, w.stopped, w.close)
    case None => Progress(true, d, calls + {SLOT_CLOSE}, Some(SLOT_CLOSE), [])
    case Some(result) =>
      Progress(false, d.(outcome := result, handleOpen := false), calls + CloseCall(d.handleOpen, w.stopped), None,
               [Report([], result)])
  }

  function DownloadFinish(d: Download, err: FsError, w: World, calls: set<Slot>): Progress<Download> {
    DownloadClose(d.(outcome := err, state := DownloadClosing), w, calls)
  }

  /** The next `n` bytes reach the disk. */
  function Kept(d: Download, n: nat): Download
    requires n <= |d.unread|
  {
    d.(written := d.written + d.unread[..n], unread := d.unread[n..], transferred := d.transferred + n)
  }

  /** The read loop: everything the server has now is written before yielding. */
  function ReadSome(d: Download, w: World, i: nat): Progress<Download>
    decreases |d.unread|
  {
    match w.read(i)
    case WouldBlock => Waits(d, SLOT_READ)
    case Error(code) => DownloadFinish(d, Failure(code), w, {SLOT_READ})
    case Done(most) =>
      var n := Least(Least(most, TRANSFER_CHUNK), |d.unread|);
      if n == 0 then DownloadFinish(d, Success, w, {SLOT_READ})
      else if !w.writes(i) then DownloadFinish(d, Failure(LocalIoError), w, {SLOT_READ})
      else ReadSome(Kept(d, n), w, i + 1)
  }

  /** A server that refuses to say how long the file is costs nothing but the total. */
  function DownloadStep(d: Download, w: World): Progress<Download> {
    if d.state.DownloadClosing? then DownloadClose(d, w, {})
    else if w.stopped then DownloadFinish(d, Failure(NotConnected), w, {})
    else if w.cancelled then DownloadFinish(d, Failure(Cancelled), w, {})
    else match d.state
      case DownloadInit =>
        (match w.init
         case Pending => Waits(d, SLOT_INIT)
         case Failed => DownloadFinish(d, Failure(Unsupported), w, {SLOT_INIT})
         case TimedOut => DownloadFinish(d, Failure(Unsupported), w, {SLOT_INIT}).(outstanding := Some(SLOT_INIT))
         case Ready =>
           if !w.localOpens then DownloadFinish(d, Failure(LocalIoError), w, {SLOT_INIT})
           else Moved(d.(state := DownloadOpen), {SLOT_INIT}))
      case DownloadOpen =>
        (match w.open
         case WouldBlock => Waits(d, SLOT_OPEN)
         case Error(code) => DownloadFinish(d, Failure(code), w, {SLOT_OPEN})
         case Done(_) => Moved(d.(handleOpen := true, state := FStat), {SLOT_OPEN}))
      case FStat =>
        if w.stat.WouldBlock? then Waits(d, SLOT_FSTAT)
        else Moved(d.(total := if w.stat.Done? then w.stat.n else d.total, state := DownloadLoop), {SLOT_FSTAT})
      case DownloadLoop => ReadSome(d, w, 0)
      case DownloadClosing => DownloadClose(d, w, {})
  }

  predicate DownloadKept(d: Download, p: Progress<Download>, w: World) {
    && DownloadValid(p.task) && d.written <= p.task.written && p.task.remote == d.remote && ReportsOnce(p, w)
    && (!p.again ==> p.task.state.DownloadClosing? && p.reports == [Report([], p.task.outcome)])
  }

  lemma KeepConserves(d: Download, n: nat)
    requires DownloadConserves(d) && n <= |d.unread|
    ensures DownloadConserves(Kept(d, n)) && d.written <= Kept(d, n).written
  {
    assert d.unread == d.unread[..n] + d.unread[n..];
  }

  lemma DownloadFinishKeeps(d: Download, err: FsError, w: World, calls: set<Slot>)
    requires DownloadConserves(d) && (err == Success ==> d.unread == []) && (w.stopped ==> calls == {})
    ensures DownloadKept(d, DownloadFinish(d, err, w, calls), w)
  {}

  /** For every pattern of short and blocked reads and of failing local writes. */
  lemma {:induction false} ReadingConserves(d: Download, w: World, i: nat)
    requires DownloadConserves(d) && d.state.DownloadLoop? && d.handleOpen && !w.stopped && w.Gives()
    ensures DownloadKept(d, ReadSome(d, w, i), w)
    decreases |d.unread|
  {
    match w.read(i)
    case WouldBlock => return;
    case Error(code) => DownloadFinishKeeps(d, Failure(code), w, {SLOT_READ}); return;
    case Done(most) =>
      var n := Least(Least(most, TRANSFER_CHUNK), |d.unread|);
      if n == 0 { DownloadFinishKeeps(d, Success, w, {SLOT_READ}); return; }
      if !w.writes(i) { DownloadFinishKeeps(d, Failure(LocalIoError), w, {SLOT_READ}); return; }
      KeepConserves(d, n);
      ReadingConserves(Kept(d, n), w, i + 1);
  }

  /** Every step of a download keeps the bytes, reports exactly when it retires the task, and reports
      success only when the whole remote file is on disk in order. */
  lemma DownloadStepKeeps(d: Download, w: World)
    requires DownloadValid(d) && w.Gives()
    ensures var p := DownloadStep(d, w);
            DownloadKept(d, p, w) && (p.reports == [Report([], Success)] ==> p.task.written == d.remote)
  {
    if d.state.DownloadLoop? && !w.stopped && !w.cancelled { ReadingConserves(d, w, 0); }
  }

  /** The index of the last read the step makes. */
  function LastRead(d: Download, w: World, i: nat): (last: nat)
    ensures last >= i
    decreases |d.unread|
  {
    if !w.read(i).Done? then i
    else
      var n := Least(Least(w.read(i).n, TRANSFER_CHUNK), |d.unread|);
      if n == 0 || !w.writes(i) then i else LastRead(Kept(d, n), w, i + 1)
  }

  /** A download that fails in the read loop fails for a reason: its last read failed, the local write of what that read
      brought, or the close after the end was reached. */
  ghost predicate ReadErrorHasCause(p: Progress<Download>, w: World, last: nat) {
    p.task.state.DownloadClosing? && p.task.outcome.Failure? ==>
      || (p.task.outcome.code == LocalIoError && w.read(last).Done? && !w.writes(last))
      || (!p.again && w.close == Error(p.task.outcome.code) && p.task.written == p.task.remote)
      || w.read(last) == Error(p.task.outcome.code)
  }

  /** Every read before the last one brought something, and it was written. */
  lemma {:induction false} ReadErrorCause(d: Download, w: World, i: nat)
    requires DownloadConserves(d) && d.state.DownloadLoop? && w.Gives()
    ensures ReadErrorHasCause(ReadSome(d, w, i), w, LastRead(d, w, i))
    ensures forall k | i <= k < LastRead(d, w, i) :: w.read(k).Done? && w.read(k).n > 0 && w.writes(k)
    decreases |d.unread|
  {
    if w.read(i).Done? {
      var n := Least(Least(w.read(i).n, TRANSFER_CHUNK), |d.unread|);
      if n == 0 || !w.writes(i) { return; }
      KeepConserves(d, n);
      ReadErrorCause(Kept(d, n), w, i + 1);
    }
  }

  class DownloadTask {
    const registry: Registry
    const handleId: nat
    const remote: seq<Byte>

    var state: DownloadState
    var handleOpen: bool
    var unread: seq<Byte>
    var written: seq<Byte>
    var transferred: nat
    var total: nat
    var outcome: FsError
    var reports: seq<Report>

    function Value(): Download
      reads this
    {
      Download(remote, state, handleOpen, unread, written, transferred, total, outcome)
    }

    predicate Valid()
      reads this, registry
    {
      registry.Valid() && DownloadValid(Value())
    }

    constructor (registry: Registry, handleId: nat, remote: seq<Byte>)
      requires registry.Valid()
      ensures Valid() && reports == [] && Value() == NewDownload(remote)
      ensures this.registry == registry && this.handleId == handleId && this.remote == remote
    {
      this.registry, this.handleId, this.remote := registry, handleId, remote;
      state, handleOpen, unread, written, transferred, total := DownloadInit, false, remote, [], 0, 0;
      outcome, reports := Success, [];
    }

    /** One step; the callback fires in the step that returns false and in no other. */
    method Step(w: World) returns (again: bool)
      requires Valid() && reports == [] && w.Gives()
      modifies this, registry
      ensures Valid() && old(written) <= written && Forgotten(registry, handleId, again)
      ensures var p := DownloadStep(old(Value()), w.(cancelled := handleId in old(registry.cancelled)));
              again == p.again && Value() == p.task && reports == p.reports
      ensures reports == if again then [] else [Report([], outcome)]
      ensures reports == [Report([], Success)] ==> written == remote
      ensures w.stopped ==> !again
      ensures old(state).DownloadClosing? && old(outcome).Failure? ==> outcome == old(outcome)
      ensures w.stopped && !old(state).DownloadClosing? ==> outcome == Failure(NotConnected)
      ensures !w.stopped && !old(state).DownloadClosing? && handleId in old(registry.cancelled) ==>
                outcome == Failure(Cancelled)
      ensures !w.stopped && old(state).DownloadOpen? && handleId !in old(registry.cancelled) && w.open.Error? ==>
                !again && outcome == Failure(w.open.code)
    {
      var seen := w.(cancelled := handleId in registry.cancelled);
      assert seen.Gives();
      DownloadStepKeeps(Value(), seen);
      if state.DownloadClosing? { again := AdvanceClose(w); return; }
      if w.stopped { again := Finish(Failure(NotConnected), w); return; }
      if handleId in registry.cancelled { again := Finish(Failure(Cancelled), w); return; }
      again := Proceed(seen);
    }

    /** Whatever the state calls for, nothing being in the way. */
    method Proceed(w: World) returns (again: bool)
      requires registry.Valid() && reports == [] && !state.DownloadClosing? && !w.stopped && !w.cancelled
      modifies this, registry
      ensures registry.Valid() && Forgotten(registry, handleId, again)
      ensures var p := DownloadStep(old(Value()), w); again == p.again && Value() == p.task && reports == p.reports
    {
      match state
      case DownloadInit =>
        if w.init.Pending? { return true; }
        if w.init.Failed? || w.init.TimedOut? { again := Finish(Failure(Unsupported), w); return; }
        if !w.localOpens { again := Finish(Failure(LocalIoError), w); return; }
        state := DownloadOpen;
        return true;
      case DownloadOpen =>
        if w.open.WouldBlock? { return true; }
        if w.open.Error? { again := Finish(Failure(w.open.code), w); return; }
        handleOpen := true;
        state := FStat;
        return true;
      case FStat =>
        if w.stat.WouldBlock? { return true; }
        if w.stat.Done? { total := w.stat.n; }
        state := DownloadLoop;
        return true;
      case DownloadLoop =>
        again := ReadLoopStep(w);
    }

    /** The read loop: everything the server has now is written before yielding. */
    method ReadLoopStep(w: World) returns (again: bool)
      requires state.DownloadLoop? && reports == [] && registry.Valid()
      modifies this, registry
      ensures registry.Valid() && Forgotten(registry, handleId, again)
      ensures var p := ReadSome(old(Value()), w, 0); again == p.again && Value() == p.task && reports == p.reports
    {
      var i := 0;
      while true
        invariant state.DownloadLoop? && reports == [] && registry.Valid()
        invariant registry.live == old(registry.live) && registry.cancelled == old(registry.cancelled)
        invariant ReadSome(Value(), w, i) == ReadSome(old(Value()), w, 0)
        decreases |unread|
      {
        match w.read(i)
        case WouldBlock => return true;
        case Error(code) =>
          again := Finish(Failure(code), w);
          return;
        case Done(most) =>
          var n := Least(Least(most, TRANSFER_CHUNK), |unread|);
          if n == 0 { again := Finish(Success, w); return; }
          if !w.writes(i) { again := Finish(Failure(LocalIoError), w); return; }
          Keep(n);
          i := i + 1;
      }
    }

    /** The next `n` bytes reach the disk. */
    method Keep(n: nat)
      requires n <= |unread|
      modifies this`written, this`unread, this`transferred
      ensures Value() == Kept(old(Value()), n)
    {
      written, unread := written + unread[..n], unread[n..];
      transferred := transferred + n;
    }

    method Finish(err: FsError, w: World) returns (again: bool)
      requires registry.Valid() && reports == []
      modifies this`outcome, this`state, this`handleOpen, this`reports, registry
      ensures registry.Valid() && Forgotten(registry, handleId, again)
      ensures var p := DownloadFinish(old(Value()), err, w, {});
              again == p.again && Value() == p.task && reports == p.reports
    {
      outcome := err;
      state := DownloadClosing;
      again := AdvanceClose(w);
    }

    method AdvanceClose(w: World) returns (again: bool)
      requires registry.Valid() && reports == []
      modifies this`outcome, this`handleOpen, this`reports, registry
      ensures registry.Valid() && Forgotten(registry, handleId, again)
      ensures var p := DownloadClose(old(Value()), w, {}); again == p.again && Value() == p.task && reports == p.reports
    {
      match StepHandleClose(handleOpen, outcome, w.stopped, w.close)
      case None => return true;
      case Some(result) =>
        outcome := result;
        handleOpen := false;
        registry.ForgetCancellation(handleId);
        reports := [Report([], outcome)];
        return false;
    }
  }

  // ----------------------------------------------------------------- listings

  datatype ListState = ListInit | OpenDir | ReadLoop | ListClosing

  datatype ListDir = ListDir(state: ListState, handleOpen: bool, entries: seq<string>, outcome: FsError)

  const NEW_LISTING := ListDir(ListInit, false, [], Success)

  function ListSlot(l: ListDir): Slot {
    match l.state
    case ListInit => SLOT_INIT
    case OpenDir => SLOT_OPEN
    case ReadLoop => SLOT_READDIR
    case ListClosing => SLOT_CLOSE
  }

  /** The entries named before anything else is answered, the dot entries left out. */
  function Named(next: seq<DirReply>): seq<string> {
    if next == [] || !next[0].DirEntry? then []
    else if next[0].name == "." || next[0].name == ".." then Named(next[1..])
    else [next[0].name] + Named(next[1..])
  }

  /** The first answer that names no entry, if there is one at hand. */
  function EndOf(next: seq<DirReply>): (end: Option<DirReply>)
    ensures end.Some? ==> end.value in next && !end.value.DirEntry?
  {
    if next == [] then None else if next[0].DirEntry? then EndOf(next[1..]) else Some(next[0])
  }

  predicate ListValid(l: ListDir) {
    && (l.state.ListInit? || l.state.OpenDir? ==> !l.handleOpen)
    && (l.state.ReadLoop? ==> l.handleOpen)
    && "." !in l.entries && ".." !in l.entries
  }

  function ListClose(l: ListDir, w: World, calls: set<Slot>): Progress<ListDir> {
    match StepHandleClose(l.handleOpen, l.outcome, w.stopped, w.close)
    case None => Progress(true, l, calls + {SLOT_CLOSE}, Some(SLOT_CLOSE), [])
    case Some(result) =>
      Progress(false, l.(outcome := result, handleOpen := false), calls + CloseCall(l.handleOpen, w.stopped), None,
               [Report(l.entries, result)])
  }

  function ListFinish(l: ListDir, err: FsError, w: World, calls: set<Slot>): Progress<ListDir> {
    ListClose(l.(outcome := err, state := ListClosing), w, calls)
  }

  /** All entries at hand are read in one step. */
  function ReadEntries(l: ListDir, w: World, next: seq<DirReply>): Progress<ListDir>
    decreases |next|
  {
    if next == [] then Waits(l, SLOT_READDIR)
    else match next[0]
      case DirEnd => ListFinish(l, Success, w, {SLOT_READDIR})
      case DirError(code) => ListFinish(l, Failure(code), w, {SLOT_READDIR})
      case DirEntry(name) =>
        ReadEntries(if name == "." || name == ".." then l else l.(entries := l.entries + [name]), w, next[1..])
  }

  function ListStep(l: ListDir, w: World): Progress<ListDir> {
    if l.state.ListClosing? then ListClose(l, w, {})
    else if w.stopped then ListFinish(l, Failure(NotConnected), w, {})
    else match l.state
      case ListInit =>
        (match w.init
         case Pending => Waits(l, SLOT_INIT)
         case Failed => ListFinish(l, Failure(Unsupported), w, {SLOT_INIT})
         case TimedOut => ListFinish(l, Failure(Unsupported), w, {SLOT_INIT}).(outstanding := Some(SLOT_INIT))
         case Ready => Moved(l.(state := OpenDir), {SLOT_INIT}))
      case OpenDir =>
        (match w.open
         case WouldBlock => Waits(l, SLOT_OPEN)
         case Error(code) => ListFinish(l, Failure(code), w, {SLOT_OPEN})
         case Done(_) => Moved(l.(handleOpen := true, state := ReadLoop), {SLOT_OPEN}))
      case ReadLoop => ReadEntries(l, w, w.next)
      case ListClosing => ListClose(l, w, {})
  }

  /** The outcome a listing parks is the first answer's that named no entry. */
  function EndError(end: DirReply): FsError {
    if end.DirError? then Failure(end.code) else Success
  }

  /** Reading takes exactly the entries at hand, and finishes exactly when one of the answers at hand
      is the end or an error: success for the one, that error for the other. */
  lemma {:induction false} ReadingTakesAll(l: ListDir, w: World, next: seq<DirReply>)
    ensures var end := EndOf(next);
            var all := l.(entries := l.entries + Named(next));
            ReadEntries(l, w, next) ==
              if end.None? then Waits(all, SLOT_READDIR) else ListFinish(all, EndError(end.value), w, {SLOT_READDIR})
    decreases |next|
  {
    if next != [] && next[0].DirEntry? {
      var name := next[0].name;
      var after := if name == "." || name == ".." then l else l.(entries := l.entries + [name]);
      ReadingTakesAll(after, w, next[1..]);
      ConcatAssoc(l.entries, [name], Named(next[1..]));
      assert (l.entries + [name]) + Named(next[1..]) == l.entries + ([name] + Named(next[1..]));
    } else {
      assert l.entries + [] == l.entries;
    }
  }

  lemma {:induction false} NamedHasNoDots(next: seq<DirReply>)
    ensures "." !in Named(next) && ".." !in Named(next)
    decreases |next|
  {
    if next != [] { NamedHasNoDots(next[1..]); }
  }

  /** Every step of a listing reports exactly when it retires the task, with everything read so far. */
  lemma ListStepKeeps(l: ListDir, w: World)
    requires ListValid(l)
    ensures var p := ListStep(l, w);
            && ListValid(p.task) && ReportsOnce(p, w)
            && (!p.again ==> p.task.state.ListClosing? && p.reports == [Report(p.task.entries, p.task.outcome)])
            && p.task.entries == if l.state.ReadLoop? && !w.stopped then l.entries + Named(w.next) else l.entries
  {
    if l.state.ReadLoop? && !w.stopped {
      ReadingTakesAll(l, w, w.next);
      NamedHasNoDots(w.next);
    }
  }

  class ListDirTask {
    var state: ListState
    var handleOpen: bool
    var entries: seq<string>
    var outcome: FsError
    var reports: seq<Report>

    function Value(): ListDir
      reads this
    {
      ListDir(state, handleOpen, entries, outcome)
    }

    constructor ()
      ensures Value() == NEW_LISTING && reports == []
    {
      state, handleOpen, entries, outcome, reports := ListInit, false, [], Success, [];
    }

    /** One step. What was read is handed over with the outcome, failed or not; "." and ".." never are.
        Success is the directory's end and nothing else, and a failing call leaves its own error. */
    method Step(w: World) returns (again: bool)
      requires ListValid(Value()) && reports == []
      modifies this
      ensures ListValid(Value())
      ensures var p := ListStep(old(Value()), w); again == p.again && Value() == p.task && reports == p.reports
      ensures reports == if again then [] else [Report(entries, outcome)]
      ensures w.stopped ==> !again
      ensures old(state).ListClosing? && old(outcome).Failure? ==> outcome == old(outcome)
      ensures entries == if old(state).ReadLoop? && !w.stopped then old(entries) + Named(w.next) else old(entries)
      ensures !old(state).ListClosing? && state.ListClosing? && outcome == Success ==>
                old(state).ReadLoop? && EndOf(w.next) == Some(DirEnd)
      ensures !w.stopped && old(state).OpenDir? && w.open.Error? ==> !again && outcome == Failure(w.open.code)
      ensures !w.stopped && old(state).ReadLoop? && EndOf(w.next).Some? && EndOf(w.next).value.DirError? ==>
                outcome == Failure(EndOf(w.next).value.code)
    {
      ListStepKeeps(Value(), w);
      ReadingTakesAll(Value(), w, w.next);
      if state.ListClosing? { again := AdvanceClose(w); return; }
      if w.stopped { again := Finish(Failure(NotConnected), w); return; }
      match state
      case ListInit =>
        if w.init.Pending? { return true; }
        if w.init.Failed? || w.init.TimedOut? { again := Finish(Failure(Unsupported), w); return; }
        state := OpenDir;
        return true;
      case OpenDir =>
        if w.open.WouldBlock? { return true; }
        if w.open.Error? { again := Finish(Failure(w.open.code), w); return; }
        handleOpen := true;
        state := ReadLoop;
        return true;
      case ReadLoop =>
        again := ReadLoopStep(w);
    }

    method ReadLoopStep(w: World) returns (again: bool)
      requires state.ReadLoop? && reports == []
      modifies this
      ensures var p := ReadEntries(old(Value()), w, w.next); again == p.again && Value() == p.task && reports == p.reports
    {
      assert w.next[0..] == w.next;
      for i := 0 to |w.next|
        invariant reports == [] && state.ReadLoop?
        invariant ReadEntries(Value(), w, w.next[i..]) == ReadEntries(old(Value()), w, w.next)
      {
        assert w.next[i..][0] == w.next[i] && w.next[i..][1..] == w.next[i + 1..];
        match w.next[i]
        case DirEnd =>
          again := Finish(Success, w);
          return;
        case DirError(code) =>
          again := Finish(Failure(code), w);
          return;
        case DirEntry(name) =>
          if name != "." && name != ".." { entries := entries + [name]; }
      }
      return true;
    }

    method Finish(err: FsError, w: World) returns (again: bool)
      requires reports == []
      modifies this`outcome, this`state, this`handleOpen, this`reports
      ensures var p := ListFinish(old(Value()), err, w, {}); again == p.again && Value() == p.task && reports == p.reports
    {
      outcome := err;
      state := ListClosing;
      again := AdvanceClose(w);
    }

    method AdvanceClose(w: World) returns (again: bool)
      requires reports == []
      modifies this`outcome, this`handleOpen, this`reports
      ensures var p := ListClose(old(Value()), w, {}); again == p.again && Value() == p.task && reports == p.reports
    {
      match StepHandleClose(handleOpen, outcome, w.stopped, w.close)
      case None => return true;
      case Some(result) =>
        outcome := result;
        handleOpen := false;
        reports := [Report(entries, outcome)];
        return false;
    }
  }

  // ------------------------------------------------- single-call operations

  /** An operation that drives one slot of its own. */
  datatype SimpleOp = SimpleOp(opSlot: Slot, initDone: bool)

  function OpSlot(o: SimpleOp): Slot {
    if o.initDone then o.opSlot else SLOT_INIT
  }

  function Fired(o: SimpleOp, calls: set<Slot>, error: FsError): Progress<SimpleOp> {
    Progress(false, o, calls, None, [Report([], error)])
  }

  function OpStep(o: SimpleOp, w: World): Progress<SimpleOp> {
    if w.stopped then Fired(o, {}, Failure(NotConnected))
    else if !o.initDone then
      match w.init
      case Pending => Waits(o, SLOT_INIT)
      case Failed => Fired(o, {SLOT_INIT}, Failure(Unsupported))
      case TimedOut => Fired(o, {SLOT_INIT}, Failure(Unsupported)).(outstanding := Some(SLOT_INIT))
      case Ready => Moved(o.(initDone := true), {SLOT_INIT})
    else
      match w.op
      case WouldBlock => Waits(o, o.opSlot)
      case Error(code) => Fired(o, {o.opSlot}, Failure(code))
      case Done(_) => Fired(o, {o.opSlot}, Success)
  }

  class SimpleOpTask {
    const opSlot: Slot
    var initDone: bool
    var reports: seq<Report>

    function Value(): SimpleOp
      reads this
    {
      SimpleOp(opSlot, initDone)
    }

    constructor (opSlot: Slot)
      ensures Value() == SimpleOp(opSlot, false) && reports == []
    {
      this.opSlot, initDone, reports := opSlot, false, [];
    }

    method Step(w: World) returns (again: bool)
      requires reports == []
      modifies this
      ensures var p := OpStep(old(Value()), w); again == p.again && Value() == p.task && reports == p.reports
      ensures again <==> reports == []
      ensures w.stopped ==> !again && reports == [Report([], Failure(NotConnected))]
      ensures reports == [Report([], Success)] ==> old(initDone) && w.op.Done?
      ensures !w.stopped && old(initDone) && w.op.Error? ==> reports == [Report([], Failure(w.op.code))]
    {
      if w.stopped {
        reports := [Report([], Failure(NotConnected))];
        return false;
      }
      if !initDone {
        match w.init
        case Pending => return true;
        case Ready =>
          initDone := true;
          return true;
        case _ =>
          reports := [Report([], Failure(Unsupported))];
          return false;
      }
      match w.op
      case WouldBlock => return true;
      case Error(code) =>
        reports := [Report([], Failure(code))];
        return false;
      case Done(_) =>
        reports := [Report([], Success)];
        return false;
    }
  }
}
