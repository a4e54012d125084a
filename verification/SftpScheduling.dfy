/** The tasks of SftpTasks run by the scheduler of SftpTaskQueue (src/transport/SshSftpService.cpp:853-867):
    which of their steps drive a slot they were not cleared for, and when every reply goes to the task
    that sent its request. */
module SftpScheduling {
  import opened Style
  import opened SftpTaskQueue
  import opened SftpTasks

  datatype AnyTask = Uploading(up: Upload) | Downloading(down: Download) | Listing(list: ListDir) | Operating(op: SimpleOp)

  function SlotOf(t: AnyTask): Slot {
    match t
    case Uploading(u) => UploadSlot(u)
    case Downloading(d) => DownloadSlot(d)
    case Listing(l) => ListSlot(l)
    case Operating(o) => OpSlot(o)
  }

  predicate HandleOpen(t: AnyTask) {
    match t
    case Uploading(u) => u.handleOpen
    case Downloading(d) => d.handleOpen
    case Listing(l) => l.handleOpen
    case Operating(_) => false
  }

  predicate IsClosing(t: AnyTask) {
    match t
    case Uploading(u) => u.state.Closing?
    case Downloading(d) => d.state.DownloadClosing?
    case Listing(l) => l.state.ListClosing?
    case Operating(_) => false
  }

  /** Only transfers look at the cancellation registry. */
  predicate IsTransfer(t: AnyTask) {
    t.Uploading? || t.Downloading?
  }

  /** What every queued task satisfies; one that is closing has a handle to close. */
  predicate TaskValid(t: AnyTask) {
    && (IsClosing(t) ==> HandleOpen(t))
    && match t
       case Uploading(u) => UploadValid(u)
       case Downloading(d) => DownloadValid(d)
       case Listing(l) => ListValid(l)
       case Operating(o) => o.opSlot != SLOT_INIT && o.opSlot != SLOT_CLOSE
  }

  /** A task as it is pushed. */
  predicate IsNew(t: AnyTask) {
    match t
    case Uploading(u) => u == NewUpload(u.file)
    case Downloading(d) => d == NewDownload(d.remote)
    case Listing(l) => l == NEW_LISTING
    case Operating(o) => !o.initDone && o.opSlot != SLOT_INIT && o.opSlot != SLOT_CLOSE
  }

  lemma NewIsValid(t: AnyTask)
    requires IsNew(t)
    ensures TaskValid(t) && SlotOf(t) == SLOT_INIT && !HandleOpen(t)
  {
    if t.Uploading? { assert t.up.buf[t.up.bufSent..] == [] && t.up.sent + [] + t.up.unread == t.up.file; }
    if t.Downloading? { assert t.down.written + t.down.unread == t.down.remote; }
  }

  function Lifted<T>(p: Progress<T>, as_: T -> AnyTask): Progress<AnyTask> {
    Progress(p.again, as_(p.task), p.calls, p.outstanding, p.reports)
  }

  function StepOf(t: AnyTask, w: World): Progress<AnyTask> {
    match t
    case Uploading(u) => if u.bufSent <= |u.buf| then Lifted(UploadStep(u, w), (v: Upload) => Uploading(v)) else Moved(t, {})
    case Downloading(d) => Lifted(DownloadStep(d, w), (v: Download) => Downloading(v))
    case Listing(l) => Lifted(ListStep(l, w), (v: ListDir) => Listing(v))
    case Operating(o) => Lifted(OpStep(o, w), (v: SimpleOp) => Operating(v))
  }

  function OutcomeOf(t: AnyTask, w: World, pushed: seq<AnyTask>): Outcome<AnyTask> {
    var p := StepOf(t, w);
    Outcome(p.again, p.task, pushed, p.calls, p.outstanding)
  }

  // ------------------------------------------------------- which calls a step makes

  /** The step ends a task's work on an open handle and goes straight on to close it, although it was
      cleared for another slot. */
  predicate StrayClose(t: AnyTask, w: World) {
    HandleOpen(t) && !IsClosing(t) && !w.stopped && IsClosing(StepOf(t, w).task)
  }

  /** The step leaves its own slot alone: it saw the stop or the cancellation first, or an upload finds
      its buffer spent and nothing more to read. */
  predicate SkipsOwnCall(t: AnyTask, w: World) {
    || w.stopped
    || (IsTransfer(t) && !IsClosing(t) && w.cancelled)
    || (t.Uploading? && t.up.state.WriteLoop? && t.up.bufSent >= |t.up.buf| && Refilled(t.up, w.badRead(0)).buf == [])
  }

  /** What the calls of a step look like, for a task in slot `own` that leaves for `next`. */
  predicate CallsFit<T>(p: Progress<T>, own: Slot, next: Slot, stray: bool, skips: bool) {
    && p.calls == (if skips then {} else {own}) + (if stray then {SLOT_CLOSE} else {})
    && (p.outstanding.Some? && p.outstanding.value != SLOT_INIT ==>
          p.outstanding.value in p.calls && p.again && next == p.outstanding.value)
    && (p.again && next == SLOT_CLOSE ==> p.outstanding == Some(SLOT_CLOSE))
  }

  lemma {:induction false} WriteCalls(u: Upload, w: World, writes: nat, refills: nat)
    requires u.bufSent <= |u.buf| && u.state.WriteLoop? && u.handleOpen && !w.stopped
    ensures var p := WriteSome(u, w, writes, refills);
            && CallsFit(p, SLOT_WRITE, UploadSlot(p.task), p.task.state.Closing?,
                        writes == 0 && u.bufSent >= |u.buf| && Refilled(u, w.badRead(refills)).buf == [])
            && (p.task.state.WriteLoop? || p.task.state.Closing?)
            && (p.again ==> p.task.handleOpen)
            && (p.outstanding == Some(SLOT_WRITE) ==> p.task.state.WriteLoop? && p.task.bufSent < |p.task.buf|)
    decreases |u.unread| + |u.buf| - u.bufSent
  {
    var spent := u.bufSent >= |u.buf|;
    var v := if spent then Refilled(u, w.badRead(refills)) else u;
    if v.buf == [] { return; }
    var r := if spent then refills + 1 else refills;
    assert WriteSome(u, w, writes, refills) == WriteOn(v, w, writes, r);
    match w.write(writes)
    case WouldBlock => return;
    case Error(code) => return;
    case Done(asked) =>
      var n := Least(asked, |v.buf| - v.bufSent);
      if n == 0 { return; }
      assert WriteOn(v, w, writes, r) == WriteSome(Sent(v, n), w, writes + 1, r);
      WriteCalls(Sent(v, n), w, writes + 1, r);
  }

  lemma {:induction false} ReadCalls(d: Download, w: World, i: nat)
    requires d.state.DownloadLoop? && d.handleOpen && !w.stopped
    ensures var p := ReadSome(d, w, i);
            && CallsFit(p, SLOT_READ, DownloadSlot(p.task), p.task.state.DownloadClosing?, false)
            && (p.task.state.DownloadLoop? || p.task.state.DownloadClosing?) && (p.again ==> p.task.handleOpen)
    decreases |d.unread|
  {
    match w.read(i)
    case WouldBlock => return;
    case Error(code) => return;
    case Done(most) =>
      var n := Least(Least(most, TRANSFER_CHUNK), |d.unread|);
      if n == 0 || !w.writes(i) { return; }
      ReadCalls(Kept(d, n), w, i + 1);
  }

  /** The calls of a step, exactly. */
  predicate CallsAsSaid(t: AnyTask, w: World) {
    var p := StepOf(t, w);
    CallsFit(p, SlotOf(t), SlotOf(p.task), StrayClose(t, w), SkipsOwnCall(t, w)) && (p.again && IsClosing(p.task) ==> HandleOpen(p.task))
  }

  lemma UploadCalls(u: Upload, w: World)
    requires TaskValid(Uploading(u))
    ensures CallsAsSaid(Uploading(u), w)
    ensures StepOf(Uploading(u), w).outstanding == Some(SLOT_WRITE) ==>
              var v := StepOf(Uploading(u), w).task.up; v.bufSent < |v.buf|
  {
    if u.state.WriteLoop? && !w.stopped && !w.cancelled { WriteCalls(u, w, 0, 0); return; }
    if u.state.Closing? || w.stopped || w.cancelled { return; }
    assert StepOf(Uploading(u), w).task == Uploading(UploadSetUp(u, w).task);
  }

  lemma DownloadCalls(d: Download, w: World)
    requires TaskValid(Downloading(d))
    ensures CallsAsSaid(Downloading(d), w) && StepOf(Downloading(d), w).outstanding != Some(SLOT_WRITE)
  {
    if d.state.DownloadLoop? && !w.stopped && !w.cancelled { ReadCalls(d, w, 0); return; }
  }

  lemma ListCalls(l: ListDir, w: World)
    requires TaskValid(Listing(l))
    ensures CallsAsSaid(Listing(l), w) && StepOf(Listing(l), w).outstanding != Some(SLOT_WRITE)
  {
    if l.state.ReadLoop? && !w.stopped { ReadingTakesAll(l, w, w.next); return; }
  }

  /** For every task, every state and every answer: a step calls its own slot unless it skips it, and
      Close besides exactly when it ends an open handle's work, which it does without being cleared. It
      leaves a request only where it calls and then waits there; a time-out on Init aside. */
  lemma StepCallsExactly(t: AnyTask, w: World)
    requires TaskValid(t)
    ensures CallsAsSaid(t, w)
    ensures StepOf(t, w).outstanding == Some(SLOT_WRITE) && t.Uploading? ==>
              StepOf(t, w).task.Uploading? && StepOf(t, w).task.up.bufSent < |StepOf(t, w).task.up.buf|
  {
    match t
    case Uploading(u) => UploadCalls(u, w); return;
    case Downloading(d) => DownloadCalls(d, w); return;
    case Listing(l) => ListCalls(l, w); return;
    case Operating(o) => return;
  }

  /** A step drives two slots exactly when it ends an open handle's work with a call of its own. */
  lemma DrivesTwoSlotsIff(t: AnyTask, w: World)
    requires TaskValid(t)
    ensures |StepOf(t, w).calls| == 2 <==> StrayClose(t, w) && !SkipsOwnCall(t, w)
    ensures |StepOf(t, w).calls| <= 2
  {
    StepCallsExactly(t, w);
    if StrayClose(t, w) { assert SlotOf(t) != SLOT_CLOSE; }
  }

  // ---------------------------------------------------------------- what a step keeps

  /** Every step leaves a valid task or retires it, reports exactly when it retires it, and reports a
      transfer's success only when the file arrived whole and in order. */
  lemma StepKeepsTask(t: AnyTask, w: World)
    requires TaskValid(t) && w.Gives()
    ensures var p := StepOf(t, w);
            ReportsOnce(p, w) && (p.again ==> TaskValid(p.task))
    ensures StepOf(t, w).reports == [Report([], Success)] ==>
              && (t.Uploading? ==> StepOf(t, w).task.up.sent == t.up.file)
              && (t.Downloading? ==> StepOf(t, w).task.down.written == t.down.remote)
  {
    StepCallsExactly(t, w);
    match t
    case Uploading(u) => UploadStepKeeps(u, w); return;
    case Downloading(d) => DownloadStepKeeps(d, w); return;
    case Listing(l) => ListStepKeeps(l, w); return;
    case Operating(o) => return;
  }

  // ---------------------------------------------------------------- whose reply it is

  /** The slots to watch: all whose operation state the session holds, that is all but the subsystem's,
      whose one reply is everybody's, and Close, whose state is on the handle; and Close or not. */
  predicate Watched(slots: set<Slot>) {
    SLOT_INIT !in slots && forall s: Slot | s != SLOT_INIT && s != SLOT_CLOSE :: s in slots
  }

  function SessionSlots(): set<Slot> {
    {SLOT_OPEN, SLOT_READDIR, SLOT_READ, SLOT_WRITE, SLOT_STAT, SLOT_FSTAT, SLOT_STATVFS, SLOT_UNLINK, SLOT_RENAME,
     SLOT_MKDIR, SLOT_RMDIR, SLOT_SYMLINK}
  }

  lemma BothAreWatched()
    ensures Watched(SessionSlots()) && Watched(SessionSlots() + {SLOT_CLOSE})
  {}

  type Sys = System<AnyTask>

  /** Tasks are valid and new ones start at the subsystem; whoever holds Close waits for its reply; a write
      that waits has something unsent. */
  ghost predicate Waiting(y: Sys, slots: set<Slot>) {
    && (forall k | 0 <= k < |y.q.tasks| :: TaskValid(y.q.tasks[k].body))
    && |y.sent| == SLOT_COUNT
    && (SLOT_CLOSE in slots ==>
          forall k | 0 <= k < |y.q.tasks| && y.q.tasks[k].held == Some(SLOT_CLOSE) :: y.sent[SLOT_CLOSE] == Some(y.q.tasks[k].id))
    && (forall k | 0 <= k < |y.q.tasks| && y.q.tasks[k].body.Uploading? && y.sent[SLOT_WRITE] == Some(y.q.tasks[k].id) ::
          y.q.tasks[k].body.up.bufSent < |y.q.tasks[k].body.up.buf|)
  }

  ghost predicate Steady(y: Sys, slots: set<Slot>) {
    Consistent(y, SlotOf, slots) && Waiting(y, slots)
  }

  /** A step that ends before its own call although its request is still outstanding: stopped, or a
      transfer cancelled in the middle of a call. */
  predicate LeavesReplyBehind(y: Sys, i: nat, w: World, slots: set<Slot>)
    requires i < |y.q.tasks| && |y.sent| == SLOT_COUNT
  {
    var t := y.q.tasks[i];
    && SlotOf(t.body) in slots && y.sent[SlotOf(t.body)] == Some(t.id)
    && (w.stopped || (IsTransfer(t.body) && !IsClosing(t.body) && w.cancelled))
  }

  /** What a caller can see before the step: the slot named next is free, no reply is left behind, and
      a close made without clearance finds nobody closing. */
  predicate Obeys(y: Sys, i: nat, w: World, slots: set<Slot>)
    requires y.q.WellFormed() && i < |y.q.tasks| && |y.sent| == SLOT_COUNT
  {
    var t, p := y.q.tasks[i], StepOf(y.q.tasks[i].body, w);
    && (p.again && SlotOf(p.task) in slots ==> !Released(y.q, t.held)[SlotOf(p.task)])
    && !LeavesReplyBehind(y, i, w, slots)
    && (SLOT_CLOSE in slots && StrayClose(t.body, w) ==> !y.q.held[SLOT_CLOSE])
  }

  /** With its own request outstanding a task takes no other way round its call. */
  lemma AbandoningExactly(y: Sys, i: nat, w: World, pushed: seq<AnyTask>, slots: set<Slot>)
    requires Steady(y, slots) && Watched(slots) && i < |y.q.tasks|
    ensures Abandons(y, SlotOf, i, OutcomeOf(y.q.tasks[i].body, w, pushed), slots) <==> LeavesReplyBehind(y, i, w, slots)
  {
    var t := y.q.tasks[i].body;
    StepCallsExactly(t, w);
    if LeavesReplyBehind(y, i, w, slots) {
      assert SkipsOwnCall(t, w);
      SkippingLeaves(t, w);
    }
  }

  /** A task that sees the stop or its cancellation never stays in its slot. */
  lemma SkippingLeaves(t: AnyTask, w: World)
    requires TaskValid(t) && (w.stopped || (IsTransfer(t) && !IsClosing(t) && w.cancelled))
    ensures var p := StepOf(t, w); p.again ==> SlotOf(p.task) != SlotOf(t) && SlotOf(p.task) == SLOT_CLOSE
  {
    match t
    case Uploading(u) => return;
    case Downloading(d) => return;
    case Listing(l) => return;
    case Operating(o) => return;
  }

  lemma RealStepIsClear(y: Sys, i: nat, w: World, pushed: seq<AnyTask>, slots: set<Slot>)
    requires Steady(y, slots) && Watched(slots) && i < |y.q.tasks|
    ensures Obeys(y, i, w, slots) <==> Clear(y, SlotOf, i, OutcomeOf(y.q.tasks[i].body, w, pushed), slots)
  {
    AbandoningExactly(y, i, w, pushed, slots);
    CallsClearExactly(y, i, w, pushed, slots);
    StepCallsExactly(y.q.tasks[i].body, w);
  }

  lemma CallsClearExactly(y: Sys, i: nat, w: World, pushed: seq<AnyTask>, slots: set<Slot>)
    requires Steady(y, slots) && Watched(slots) && i < |y.q.tasks|
    ensures CallsClear(y.q, SlotOf, i, OutcomeOf(y.q.tasks[i].body, w, pushed), slots) <==>
              (SLOT_CLOSE in slots && StrayClose(y.q.tasks[i].body, w) ==> !y.q.held[SLOT_CLOSE])
    ensures WaitsWhereItCalls(SlotOf, OutcomeOf(y.q.tasks[i].body, w, pushed), slots)
  {
    StepCallsExactly(y.q.tasks[i].body, w);
    if StrayClose(y.q.tasks[i].body, w) { assert SLOT_CLOSE in StepOf(y.q.tasks[i].body, w).calls; }
  }

  predicate AllNew(bodies: seq<AnyTask>) {
    forall b | b in bodies :: IsNew(b)
  }

  /** Where each task after a step comes from. */
  lemma TasksAfter(q: Queue<AnyTask>, i: nat, outcome: Outcome<AnyTask>, k: nat)
    requires q.WellFormed() && i < |q.tasks| && k < |Stepped(q, SlotOf, i, outcome).tasks|
    ensures var r, n := Stepped(q, SlotOf, i, outcome), |q.tasks| - 1;
            if k < n then r.tasks[k] == q.tasks[if k < i then k else k + 1]
            else if k < n + |outcome.pushed| then
              r.tasks[k].body in outcome.pushed && r.tasks[k].held == None && r.tasks[k].id >= q.nextId
            else outcome.again && r.tasks[k] == Task(q.tasks[i].id, outcome.body, Some(SlotOf(outcome.body)))
  {
    var mid := Stepping(q, i);
    PushingKeepsSlots(mid, outcome.pushed);
    PushedBodies(mid, outcome.pushed);
    if k < |mid.tasks| {
      assert mid.tasks[k] == q.tasks[if k < i then k else k + 1];
    } else if k < |mid.tasks| + |outcome.pushed| {
      assert AllPushed(mid, outcome.pushed).tasks[|mid.tasks| + (k - |mid.tasks|)].body == outcome.pushed[k - |mid.tasks|];
    }
  }

  lemma {:induction false} PushedBodies<T>(q: Queue<T>, bodies: seq<T>)
    ensures |AllPushed(q, bodies).tasks| == |q.tasks| + |bodies|
    ensures forall k | 0 <= k < |bodies| :: AllPushed(q, bodies).tasks[|q.tasks| + k].body == bodies[k]
    decreases |bodies|
  {
    PushingKeepsSlots(q, bodies);
    if bodies != [] {
      var next := Pushed(q, bodies[0]);
      PushedBodies(next, bodies[1..]);
      PushingKeepsSlots(next, bodies[1..]);
      forall k | 0 <= k < |bodies| ensures AllPushed(q, bodies).tasks[|q.tasks| + k].body == bodies[k] {
        if k > 0 { assert bodies[1..][k - 1] == bodies[k]; }
      }
    }
  }

  /** What `Waiting` says of one task. */
  predicate TaskWaits(y: Sys, t: Task<AnyTask>, slots: set<Slot>)
    requires |y.sent| == SLOT_COUNT
  {
    && TaskValid(t.body)
    && (SLOT_CLOSE in slots && t.held == Some(SLOT_CLOSE) ==> y.sent[SLOT_CLOSE] == Some(t.id))
    && (t.body.Uploading? && y.sent[SLOT_WRITE] == Some(t.id) ==> t.body.up.bufSent < |t.body.up.buf|)
  }

  /** A step that calls Close is closing already or goes astray. */
  lemma ClosesOwn(t: AnyTask, w: World)
    requires TaskValid(t) && SLOT_CLOSE in StepOf(t, w).calls
    ensures StrayClose(t, w) || SlotOf(t) == SLOT_CLOSE
  {
    StepCallsExactly(t, w);
  }

  /** A task the step leaves alone: nobody took the reply it waits for. */
  lemma OtherStillWaits(y: Sys, i: nat, w: World, pushed: seq<AnyTask>, slots: set<Slot>, j: nat)
    requires Steady(y, slots) && Watched(slots) && i < |y.q.tasks| && j < |y.q.tasks| && j != i
    requires Runnable(y.q, SlotOf, y.q.tasks[i]) && Obeys(y, i, w, slots)
    ensures TaskWaits(SystemStepped(y, SlotOf, i, OutcomeOf(y.q.tasks[i].body, w, pushed)), y.q.tasks[j], slots)
  {
    var me, t := y.q.tasks[i], y.q.tasks[j];
    assert me.id != t.id;
    if SLOT_CLOSE in slots && t.held == Some(SLOT_CLOSE) {
      assert y.q.held[SLOT_CLOSE] && me.held != Some(SLOT_CLOSE);
      if SLOT_CLOSE in StepOf(me.body, w).calls { ClosesOwn(me.body, w); }
    }
  }

  /** A task just pushed has sent nothing. */
  lemma NewWaitsForNothing(y: Sys, i: nat, w: World, pushed: seq<AnyTask>, slots: set<Slot>, t: Task<AnyTask>)
    requires Steady(y, slots) && Watched(slots) && i < |y.q.tasks|
    requires t.id >= y.q.nextId && t.held == None && TaskValid(t.body)
    ensures TaskWaits(SystemStepped(y, SlotOf, i, OutcomeOf(y.q.tasks[i].body, w, pushed)), t, slots)
  {
    PendingIsOld(y, slots, SLOT_WRITE);
  }

  lemma PendingIsOld(y: Sys, slots: set<Slot>, s: Slot)
    requires Consistent(y, SlotOf, slots) && s in slots
    ensures y.sent[s].Some? ==> y.sent[s].value < y.q.nextId
  {
    if y.sent[s].Some? {
      var h :| h in y.q.tasks && Holds(h, s) && h.id == y.sent[s].value;
      assert h.id < y.q.nextId;
    }
  }

  /** Whoever has a reply pending on a watched slot holds it. */
  lemma PendingIsHeld(y: Sys, slots: set<Slot>, i: nat, s: Slot)
    requires Consistent(y, SlotOf, slots) && i < |y.q.tasks| && s in slots && y.sent[s] == Some(y.q.tasks[i].id)
    ensures y.q.tasks[i].held == Some(s) && SlotOf(y.q.tasks[i].body) == s
  {
    var h :| h in y.q.tasks && Holds(h, s) && h.id == y.sent[s].value;
    var k :| 0 <= k < |y.q.tasks| && y.q.tasks[k] == h;
    assert k == i;
  }

  lemma RequeuedWaits(y: Sys, i: nat, w: World, pushed: seq<AnyTask>, slots: set<Slot>)
    requires Steady(y, slots) && Watched(slots) && i < |y.q.tasks| && w.Gives() && Obeys(y, i, w, slots)
    requires StepOf(y.q.tasks[i].body, w).again
    ensures var p := StepOf(y.q.tasks[i].body, w);
            TaskWaits(SystemStepped(y, SlotOf, i, OutcomeOf(y.q.tasks[i].body, w, pushed)),
                      Task(y.q.tasks[i].id, p.task, Some(SlotOf(p.task))), slots)
  {
    var me := y.q.tasks[i];
    StepCallsExactly(me.body, w);
    StepKeepsTask(me.body, w);
    if SLOT_WRITE !in StepOf(me.body, w).calls && y.sent[SLOT_WRITE] == Some(me.id) {
      PendingIsHeld(y, slots, i, SLOT_WRITE);
    }
  }

  lemma StepKeepsWaiting(y: Sys, i: nat, w: World, pushed: seq<AnyTask>, slots: set<Slot>)
    requires Steady(y, slots) && Watched(slots) && i < |y.q.tasks| && w.Gives() && AllNew(pushed)
    requires Runnable(y.q, SlotOf, y.q.tasks[i]) && Obeys(y, i, w, slots)
    ensures Waiting(SystemStepped(y, SlotOf, i, OutcomeOf(y.q.tasks[i].body, w, pushed)), slots)
  {
    var o := OutcomeOf(y.q.tasks[i].body, w, pushed);
    var z := SystemStepped(y, SlotOf, i, o);
    forall k | 0 <= k < |z.q.tasks| ensures TaskWaits(z, z.q.tasks[k], slots) {
      TasksAfter(y.q, i, o, k);
      if k < |y.q.tasks| - 1 {
        OtherStillWaits(y, i, w, pushed, slots, if k < i then k else k + 1);
      } else if k < |y.q.tasks| - 1 + |pushed| {
        NewIsValid(z.q.tasks[k].body);
        NewWaitsForNothing(y, i, w, pushed, slots, z.q.tasks[k]);
      } else {
        RequeuedWaits(y, i, w, pushed, slots);
      }
    }
  }

  /** Somebody else's close is in the way of a stray one: its reply would be taken. */
  lemma StrayMeetsAnother(y: Sys, i: nat, w: World, pushed: seq<AnyTask>, slots: set<Slot>)
    requires Steady(y, slots) && SLOT_CLOSE in slots
    requires i < |y.q.tasks| && StrayClose(y.q.tasks[i].body, w) && y.q.held[SLOT_CLOSE]
    ensures !RepliesOwn(y, i, OutcomeOf(y.q.tasks[i].body, w, pushed), slots)
  {
    var me := y.q.tasks[i];
    StepCallsExactly(me.body, w);
    var h :| h in y.q.tasks && Holds(h, SLOT_CLOSE);
    var k :| 0 <= k < |y.q.tasks| && y.q.tasks[k] == h;
    assert y.sent[SLOT_CLOSE] == Some(h.id);
    assert k != i;
  }

  /** A scheduled step of a real task takes only its own replies and leaves everything as it should be
      exactly when it obeys: on the session's slots, and on Close too if that is counted in. */
  lemma RealStepIff(y: Sys, i: nat, w: World, pushed: seq<AnyTask>, slots: set<Slot>)
    requires Steady(y, slots) && Watched(slots) && i < |y.q.tasks| && Runnable(y.q, SlotOf, y.q.tasks[i])
    requires w.Gives() && AllNew(pushed)
    ensures var o := OutcomeOf(y.q.tasks[i].body, w, pushed);
            RepliesOwn(y, i, o, slots) && Steady(SystemStepped(y, SlotOf, i, o), slots) <==> Obeys(y, i, w, slots)
  {
    var o := OutcomeOf(y.q.tasks[i].body, w, pushed);
    RealStepIsClear(y, i, w, pushed, slots);
    if Obeys(y, i, w, slots) {
      ScheduledReplyIsOwn(y, SlotOf, i, o, slots);
      SystemStepStaysConsistent(y, SlotOf, i, o, slots);
      StepKeepsWaiting(y, i, w, pushed, slots);
      return;
    }
    if !NamesFreeSlot(y.q, SlotOf, i, o, slots) { StepKeepsExclusiveIff(y.q, SlotOf, i, o, slots); return; }
    if LeavesReplyBehind(y, i, w, slots) {
      AbandoningExactly(y, i, w, pushed, slots);
      AbandoningStrands(y, SlotOf, i, o, slots);
      return;
    }
    StrayMeetsAnother(y, i, w, pushed, slots);
  }

  // ----------------------------------------------------------------------- whole runs

  datatype RealEvent = PushTask(body: AnyTask) | RunStep(world: World, pushed: seq<AnyTask>)

  function Scheduled(e: RealEvent): Event<AnyTask> {
    match e
    case PushTask(body) => Push(body)
    case RunStep(w, pushed) => Run((t: AnyTask) => OutcomeOf(t, w, pushed))
  }

  function AllScheduled(events: seq<RealEvent>): seq<Event<AnyTask>> {
    if events == [] then [] else [Scheduled(events[0])] + AllScheduled(events[1..])
  }

  ghost predicate IsReal(e: RealEvent) {
    match e
    case PushTask(body) => IsNew(body)
    case RunStep(w, pushed) => w.Gives() && AllNew(pushed)
  }

  ghost predicate StoppedFromHere(events: seq<RealEvent>) {
    forall e | e in events :: e.RunStep? ==> e.world.stopped
  }

  /** Every scheduled step obeys, until the service is stopped for good. */
  ghost predicate ObeysRun(y: Sys, events: seq<RealEvent>, slots: set<Slot>)
    requires y.q.WellFormed() && |y.sent| == SLOT_COUNT
    decreases |events|
  {
    StoppedFromHere(events) ||
    (var e, i := events[0], FirstRunnable(y.q, SlotOf, 0);
     && (e.RunStep? && i < |y.q.tasks| ==> Obeys(y, i, e.world, slots))
     && ObeysRun(SystemAfter(y, SlotOf, Scheduled(e)), events[1..], slots))
  }

  lemma StoppedCallsNothing(t: AnyTask, w: World)
    requires w.stopped
    ensures StepOf(t, w).calls == {}
  {}

  lemma {:induction false} StoppedRunsCallNothing(y: Sys, events: seq<RealEvent>, slots: set<Slot>)
    requires y.q.WellFormed() && |y.sent| == SLOT_COUNT && StoppedFromHere(events)
    ensures RepliesAreOwn(y, SlotOf, AllScheduled(events), slots)
    decreases |events|
  {
    if events != [] {
      var e, i := events[0], FirstRunnable(y.q, SlotOf, 0);
      assert e in events;
      if e.RunStep? && i < |y.q.tasks| { StoppedCallsNothing(y.q.tasks[i].body, e.world); }
      assert AllScheduled(events)[1..] == AllScheduled(events[1..]);
      StoppedRunsCallNothing(SystemAfter(y, SlotOf, Scheduled(e)), events[1..], slots);
    }
  }

  lemma PushKeepsSteady(y: Sys, body: AnyTask, slots: set<Slot>)
    requires Steady(y, slots) && Watched(slots) && IsNew(body)
    ensures Steady(y.(q := Pushed(y.q, body)), slots)
  {
    NewIsValid(body);
    PushStaysConsistent(y, SlotOf, body, slots);
    var r := Pushed(y.q, body);
    PendingIsOld(y, slots, SLOT_WRITE);
    assert forall k | 0 <= k < |y.q.tasks| :: r.tasks[k] == y.q.tasks[k];
  }

  /** Uploads, downloads, listings and single operations, pushed and answered in any order: as long as
      the scheduled steps obey, every reply on a session slot goes to the task that sent the request;
      with Close counted in, so does every reply to a close. Once the service is stopped nothing is
      called any more. */
  lemma {:induction false} RealRunsDeliver(y: Sys, events: seq<RealEvent>, slots: set<Slot>)
    requires Steady(y, slots) && Watched(slots) && ObeysRun(y, events, slots)
    requires forall e | e in events :: IsReal(e)
    ensures RepliesAreOwn(y, SlotOf, AllScheduled(events), slots)
    decreases |events|
  {
    if StoppedFromHere(events) { StoppedRunsCallNothing(y, events, slots); return; }
    var e, i := events[0], FirstRunnable(y.q, SlotOf, 0);
    assert e in events && IsReal(e);
    match e {
      case PushTask(body) => PushKeepsSteady(y, body, slots);
      case RunStep(w, pushed) => if i < |y.q.tasks| { RealStepIff(y, i, w, pushed, slots); }
    }
    assert AllScheduled(events)[1..] == AllScheduled(events[1..]);
    RealRunsDeliver(SystemAfter(y, SlotOf, Scheduled(e)), events[1..], slots);
  }

  const IDLE: Queue<AnyTask> := Queue([], Fill(SLOT_COUNT, false), 0)

  lemma IdleIsSteady(slots: set<Slot>)
    ensures Steady(System(IDLE, Fill(SLOT_COUNT, None)), slots)
  {}

  // -------------------------------------------------------------- two listings collide

  /** The subsystem is up, directories open at once, and no entry is at hand yet. */
  function SlowListing(): World {
    World(false, false, Ready, true, Done(0), Done(0), (_: nat) => WouldBlock, (_: nat) => None, (_: nat) => WouldBlock,
          (_: nat) => true, [], Done(0), Done(0))
  }

  function Tick(): RealEvent {
    RunStep(SlowListing(), [])
  }

  const IN_OPEN := Listing(ListDir(OpenDir, false, [], Success))
  const IN_READ := Listing(ListDir(ReadLoop, true, [], Success))

  function Opening(id: nat): Task<AnyTask> { Task(id, IN_OPEN, Some(SLOT_OPEN)) }
  function Reading(id: nat): Task<AnyTask> { Task(id, IN_READ, Some(SLOT_READDIR)) }

  lemma ListingSteps()
    ensures OutcomeOf(Listing(NEW_LISTING), SlowListing(), []) == Outcome(true, IN_OPEN, [], {SLOT_INIT}, None)
    ensures OutcomeOf(IN_OPEN, SlowListing(), []) == Outcome(true, IN_READ, [], {SLOT_OPEN}, None)
    ensures OutcomeOf(IN_READ, SlowListing(), []) == Outcome(true, IN_READ, [], {SLOT_READDIR}, Some(SLOT_READDIR))
  {}

  /** The first of two tasks goes to the back, holding the slot it names next. */
  lemma Requeues(y: Sys, o: Outcome<AnyTask>)
    requires |y.q.tasks| == 2 && y.q.WellFormed() && |y.sent| == SLOT_COUNT
    requires o.again && o.pushed == [] && Runnable(y.q, SlotOf, y.q.tasks[0])
    requires o == OutcomeOf(y.q.tasks[0].body, SlowListing(), [])
    ensures var z := SystemAfter(y, SlotOf, Scheduled(Tick()));
            && z.q.tasks == [y.q.tasks[1], Task(y.q.tasks[0].id, o.body, Some(SlotOf(o.body)))]
            && z.q.held == Released(y.q, y.q.tasks[0].held)[SlotOf(o.body) := true]
            && (o.outstanding.Some? && o.outstanding.value in o.calls ==> z.sent[o.outstanding.value] == Some(y.q.tasks[0].id))
  {
    assert FirstRunnable(y.q, SlotOf, 0) == 0;
    assert AllPushed(Stepping(y.q, 0), []) == Stepping(y.q, 0);
  }

  function Ticks(n: nat): seq<RealEvent> {
    if n == 0 then [] else [Tick()] + Ticks(n - 1)
  }

  /** `n` further runs of these two tasks end in a reply that is not its receiver's. */
  ghost predicate Collides(y: Sys, n: nat)
    requires y.q.WellFormed() && |y.sent| == SLOT_COUNT
  {
    !RepliesAreOwn(y, SlotOf, AllScheduled(Ticks(n)), SessionSlots())
  }

  predicate Two(y: Sys, a: Task<AnyTask>, b: Task<AnyTask>) {
    y.q.WellFormed() && |y.sent| == SLOT_COUNT && y.q.tasks == [a, b]
  }

  lemma CollidesLater(y: Sys, n: nat)
    requires y.q.WellFormed() && |y.sent| == SLOT_COUNT && Collides(SystemAfter(y, SlotOf, Scheduled(Tick())), n)
    ensures Collides(y, n + 1)
  {
    assert Ticks(n + 1)[1..] == Ticks(n) && AllScheduled(Ticks(n + 1))[1..] == AllScheduled(Ticks(n));
  }

  lemma BothReading(y: Sys)
    requires Two(y, Reading(0), Reading(1))
    ensures Collides(y, 2)
  {
    ListingSteps();
    Requeues(y, Outcome(true, IN_READ, [], {SLOT_READDIR}, Some(SLOT_READDIR)));
    var z := SystemAfter(y, SlotOf, Scheduled(Tick()));
    assert !RepliesOwn(z, 0, OutcomeOf(IN_READ, SlowListing(), []), SessionSlots());
    CollidesLater(y, 1);
  }

  lemma BothOpening(y: Sys)
    requires Two(y, Opening(0), Opening(1))
    ensures Collides(y, 4)
  {
    ListingSteps();
    var o := Outcome(true, IN_READ, [], {SLOT_OPEN}, None);
    Requeues(y, o);
    var z := SystemAfter(y, SlotOf, Scheduled(Tick()));
    Requeues(z, o);
    BothReading(SystemAfter(z, SlotOf, Scheduled(Tick())));
    CollidesLater(z, 2);
    CollidesLater(y, 3);
  }

  function Fresh(id: nat): Task<AnyTask> { Task(id, Listing(NEW_LISTING), None) }

  lemma BothStarting(y: Sys)
    requires Two(y, Fresh(0), Fresh(1)) && !y.q.held[SLOT_INIT]
    ensures Collides(y, 6)
  {
    ListingSteps();
    var o := Outcome(true, IN_OPEN, [], {SLOT_INIT}, None);
    Requeues(y, o);
    var z := SystemAfter(y, SlotOf, Scheduled(Tick()));
    Requeues(z, o);
    BothOpening(SystemAfter(z, SlotOf, Scheduled(Tick())));
    CollidesLater(z, 4);
    CollidesLater(y, 5);
  }

  /** Two real listings of the same session, both waiting for their directories' entries: five runs bring
      each of them into the slot the other holds, and the sixth hands the second the first one's reply. */
  lemma TwoListingsCollide()
    ensures var start := TwoPushed();
            Steady(start, SessionSlots()) && Collides(start, 6)
  {
    var idle := System(IDLE, Fill(SLOT_COUNT, None));
    IdleIsSteady(SessionSlots());
    BothAreWatched();
    PushKeepsSteady(idle, Listing(NEW_LISTING), SessionSlots());
    PushKeepsSteady(idle.(q := Pushed(IDLE, Listing(NEW_LISTING))), Listing(NEW_LISTING), SessionSlots());
    assert Two(TwoPushed(), Fresh(0), Fresh(1));
    BothStarting(TwoPushed());
  }

  function TwoPushed(): Sys {
    System(Pushed(Pushed(IDLE, Listing(NEW_LISTING)), Listing(NEW_LISTING)), Fill(SLOT_COUNT, None))
  }
}
