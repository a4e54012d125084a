/** What follows when a step of a real task does not obey: whose reply is lost, and how soon
    (src/transport/SftpTaskQueue.h:60-140). */
module SftpCollisions {
  import opened Style
  import opened SftpTaskQueue
  import opened SftpTasks
  import opened SftpScheduling

  /** Nothing the server is asked about has been answered yet, and nobody is stopped or cancelled. */
  function Blocked(): World {
    World(false, false, Pending, true, WouldBlock, WouldBlock, (_: nat) => WouldBlock, (_: nat) => None,
          (_: nat) => WouldBlock, (_: nat) => true, [], WouldBlock, WouldBlock)
  }

  function Wait(): RealEvent {
    RunStep(Blocked(), [])
  }

  function Waits(n: nat): seq<RealEvent> {
    if n == 0 then [] else [Wait()] + Waits(n - 1)
  }

  lemma {:induction false} WaitsAreReal(n: nat)
    ensures forall e | e in Waits(n) :: IsReal(e)
    decreases n
  {
    if n > 0 { WaitsAreReal(n - 1); }
  }

  /** An upload with nothing left to send: its next step does not write any more. */
  predicate Spent(t: AnyTask) {
    SkipsOwnCall(t, Blocked())
  }

  /** While nothing is answered a task stays where it is and waits for its own slot's reply; an upload that is
      spent goes on to close and waits there. */
  lemma BlockedStep(t: AnyTask)
    requires TaskValid(t)
    ensures var p := StepOf(t, Blocked());
            && p.again && TaskValid(p.task) && p.calls == {SlotOf(p.task)} && p.outstanding == Some(SlotOf(p.task))
            && (!Spent(t) ==> SlotOf(p.task) == SlotOf(t) && !Spent(p.task))
  {
    StepKeepsTask(t, Blocked());
    match t
    case Uploading(u) => BlockedUpload(u); return;
    case Downloading(d) => return;
    case Listing(l) => return;
    case Operating(o) => return;
  }

  lemma BlockedUpload(u: Upload)
    requires TaskValid(Uploading(u))
    ensures var p := StepOf(Uploading(u), Blocked());
            && p.again && p.calls == {SlotOf(p.task)} && p.outstanding == Some(SlotOf(p.task))
            && (!Spent(Uploading(u)) ==> SlotOf(p.task) == SlotOf(Uploading(u)) && !Spent(p.task))
  {
    if u.state.WriteLoop? {
      var spent := u.bufSent >= |u.buf|;
      var v := if spent then Refilled(u, None) else u;
      assert Blocked().write(0) == Reply.WouldBlock && Blocked().badRead(0) == None;
      if v.buf != [] {
        assert WriteSome(u, Blocked(), 0, 0) == WriteOn(v, Blocked(), 0, if spent then 1 else 0);
        assert WriteOn(v, Blocked(), 0, if spent then 1 else 0) == SftpTasks.Waits(v, SLOT_WRITE);
      }
    }
  }

  ghost predicate AllValid(q: Queue<AnyTask>) {
    q.WellFormed() && Numbered(q) && forall k | 0 <= k < |q.tasks| :: TaskValid(q.tasks[k].body)
  }

  function Next(y: Sys): Sys
    requires y.q.WellFormed() && |y.sent| == SLOT_COUNT
  {
    SystemAfter(y, SlotOf, Scheduled(Wait()))
  }

  /** The next run, nothing being answered, hands the task it steps a reply that is not its own. */
  predicate Misdelivers(y: Sys, slots: set<Slot>)
    requires y.q.WellFormed() && |y.sent| == SLOT_COUNT
  {
    var k := FirstRunnable(y.q, SlotOf, 0);
    k < |y.q.tasks| && !RepliesOwn(y, k, OutcomeOf(y.q.tasks[k].body, Blocked(), []), slots)
  }

  /** One of the next `n` runs does. */
  predicate CollidesWithin(y: Sys, n: nat, slots: set<Slot>)
    requires y.q.WellFormed() && |y.sent| == SLOT_COUNT
    decreases n
  {
    n > 0 && (Misdelivers(y, slots) || CollidesWithin(Next(y), n - 1, slots))
  }

  lemma CollidesLater(y: Sys, n: nat, slots: set<Slot>)
    requires y.q.WellFormed() && |y.sent| == SLOT_COUNT && CollidesWithin(Next(y), n, slots)
    ensures CollidesWithin(y, n + 1, slots)
  {}

  lemma OneMoreWait(n: nat)
    ensures AllScheduled(Waits(n + 1)) == [Scheduled(Wait())] + AllScheduled(Waits(n))
  {
    assert Waits(n + 1)[1..] == Waits(n);
  }

  lemma OwnOnceMore(y: Sys, more: seq<Event<AnyTask>>, slots: set<Slot>)
    requires y.q.WellFormed() && |y.sent| == SLOT_COUNT
    ensures RepliesAreOwn(y, SlotOf, [Scheduled(Wait())] + more, slots) <==> !Misdelivers(y, slots) && RepliesAreOwn(Next(y), SlotOf, more, slots)
  {
    var events := [Scheduled(Wait())] + more;
    assert events[1..] == more && events[0] == Scheduled(Wait());
  }

  lemma {:induction false} CollidingIsReal(y: Sys, n: nat, slots: set<Slot>)
    requires y.q.WellFormed() && |y.sent| == SLOT_COUNT
    ensures CollidesWithin(y, n, slots) <==> !RepliesAreOwn(y, SlotOf, AllScheduled(Waits(n)), slots)
    decreases n
  {
    if n > 0 {
      OneMoreWait(n - 1);
      OwnOnceMore(y, AllScheduled(Waits(n - 1)), slots);
      CollidingIsReal(Next(y), n - 1, slots);
    }
  }

  /** One more run, in which the task at `k` was the first that could step. */
  lemma OneWaits(y: Sys, k: nat)
    requires AllValid(y.q) && |y.sent| == SLOT_COUNT && k == FirstRunnable(y.q, SlotOf, 0) < |y.q.tasks|
    ensures var p := StepOf(y.q.tasks[k].body, Blocked());
            && AllValid(Next(y).q)
            && Next(y).q.tasks == Without(y.q.tasks, k) + [Task(y.q.tasks[k].id, p.task, Some(SlotOf(p.task)))]
            && (forall s: Slot :: Next(y).sent[s] == if s == SlotOf(p.task) then Some(y.q.tasks[k].id) else y.sent[s])
  {
    var t := y.q.tasks[k];
    var o := OutcomeOf(t.body, Blocked(), []);
    BlockedStep(t.body);
    SteppedKeepsNumbers(y.q, SlotOf, k, o);
    assert AllPushed(Stepping(y.q, k), []) == Stepping(y.q, k);
    assert Next(y) == SystemStepped(y, SlotOf, k, o);
    forall j | 0 <= j < |Next(y).q.tasks| ensures TaskValid(Next(y).q.tasks[j].body) {
      if j < |y.q.tasks| - 1 { assert Next(y).q.tasks[j] == y.q.tasks[if j < k then j else j + 1]; }
    }
  }

  /** A reply waits in the task's slot that is somebody else's. */
  predicate Threatened(y: Sys, j: nat, s: Slot) {
    && j < |y.q.tasks| && |y.sent| == SLOT_COUNT && Calling(y.q.tasks[j], s)
    && y.sent[s].Some? && y.sent[s] != Some(y.q.tasks[j].id)
  }

  /** The task holds the slot it names and will call on it. */
  predicate Calling(t: Task<AnyTask>, s: Slot) {
    t.held == Some(s) && SlotOf(t.body) == s && !Spent(t.body)
  }

  lemma WithoutAt<T>(s: seq<T>, k: nat, j: nat)
    requires k < j < |s|
    ensures Without(s, k)[j - 1] == s[j]
  {}

  /** Whoever stands behind the task that steps moves up. */
  lemma MovesUp(y: Sys, k: nat, j: nat)
    requires AllValid(y.q) && |y.sent| == SLOT_COUNT && k == FirstRunnable(y.q, SlotOf, 0) < j < |y.q.tasks|
    ensures AllValid(Next(y).q) && |Next(y).q.tasks| == |y.q.tasks| && Next(y).q.tasks[j - 1] == y.q.tasks[j]
  {
    OneWaits(y, k);
    WithoutAt(y.q.tasks, k, j);
  }

  lemma SentAfter(y: Sys, k: nat, j: nat, s: Slot)
    requires AllValid(y.q) && |y.sent| == SLOT_COUNT && k == FirstRunnable(y.q, SlotOf, 0) < j < |y.q.tasks|
    ensures Next(y).sent[s] == y.sent[s] || Next(y).sent[s] == Some(y.q.tasks[k].id) != Some(y.q.tasks[j].id)
    ensures Calling(y.q.tasks[k], s) ==> Next(y).sent[s] == Some(y.q.tasks[k].id)
  {
    OneWaits(y, k);
    BlockedStep(y.q.tasks[k].body);
    assert y.q.tasks[k].id != y.q.tasks[j].id;
  }

  lemma OtherKeepsThreat(y: Sys, j: nat, s: Slot, k: nat)
    requires AllValid(y.q) && Threatened(y, j, s) && k == FirstRunnable(y.q, SlotOf, 0) < j
    ensures AllValid(Next(y).q) && Threatened(Next(y), j - 1, s)
  {
    MovesUp(y, k, j);
    SentAfter(y, k, j, s);
  }

  lemma HolderIsRunnable(q: Queue<AnyTask>, i: nat)
    requires q.WellFormed() && i < |q.tasks| && q.tasks[i].held.Some?
    ensures FirstRunnable(q, SlotOf, 0) <= i
  {
    assert Runnable(q, SlotOf, q.tasks[i]);
  }

  /** Two tasks hold the slot. */
  predicate Doubled(y: Sys, i: nat, j: nat, s: Slot) {
    i < j < |y.q.tasks| && |y.sent| == SLOT_COUNT && Calling(y.q.tasks[i], s) && Calling(y.q.tasks[j], s)
  }

  lemma OtherKeepsDoubled(y: Sys, i: nat, j: nat, s: Slot, k: nat)
    requires AllValid(y.q) && Doubled(y, i, j, s) && k == FirstRunnable(y.q, SlotOf, 0) < i
    ensures AllValid(Next(y).q) && Doubled(Next(y), i - 1, j - 1, s)
  {
    MovesUp(y, k, i);
    MovesUp(y, k, j);
  }

  /** Somebody else's reply waits for the task already, or will once the other holder has called. */
  ghost predicate InDanger(y: Sys, j: nat, s: Slot) {
    AllValid(y.q) && (Threatened(y, j, s) || exists i: nat :: Doubled(y, i, j, s))
  }

  lemma ThreatComesNearer(y: Sys, j: nat, s: Slot, slots: set<Slot>)
    requires AllValid(y.q) && Threatened(y, j, s) && s in slots
    ensures Misdelivers(y, slots) || (j > 0 && InDanger(Next(y), j - 1, s))
  {
    HolderIsRunnable(y.q, j);
    var k := FirstRunnable(y.q, SlotOf, 0);
    if k < j { OtherKeepsThreat(y, j, s, k); return; }
    BlockedStep(y.q.tasks[j].body);
    assert s in OutcomeOf(y.q.tasks[j].body, Blocked(), []).calls;
  }

  lemma DoubleComesNearer(y: Sys, i: nat, j: nat, s: Slot)
    requires AllValid(y.q) && Doubled(y, i, j, s)
    ensures InDanger(Next(y), j - 1, s)
  {
    HolderIsRunnable(y.q, i);
    var k := FirstRunnable(y.q, SlotOf, 0);
    if k < i { OtherKeepsDoubled(y, i, j, s, k); return; }
    MovesUp(y, i, j);
    SentAfter(y, i, j, s);
    assert Threatened(Next(y), j - 1, s);
  }

  lemma DangerComesNearer(y: Sys, j: nat, s: Slot, slots: set<Slot>)
    requires InDanger(y, j, s) && s in slots
    ensures y.q.WellFormed() && |y.sent| == SLOT_COUNT && (Misdelivers(y, slots) || (j > 0 && InDanger(Next(y), j - 1, s)))
  {
    if Threatened(y, j, s) { ThreatComesNearer(y, j, s, slots); return; }
    var i: nat :| Doubled(y, i, j, s);
    DoubleComesNearer(y, i, j, s);
  }

  /** It is met within as many runs as the task has places to go, whatever else is in the queue. */
  lemma {:induction false} DangerIsMet(y: Sys, j: nat, s: Slot, slots: set<Slot>)
    requires InDanger(y, j, s) && s in slots
    ensures y.q.WellFormed() && |y.sent| == SLOT_COUNT && CollidesWithin(y, j + 1, slots)
    decreases j
  {
    DangerComesNearer(y, j, s, slots);
    if !Misdelivers(y, slots) {
      DangerIsMet(Next(y), j - 1, s, slots);
      CollidesLater(y, j, slots);
    }
  }

  // ------------------------------------------- the three ways to disobey, and what follows

  lemma SteppedIsValid(y: Sys, i: nat, w: World, slots: set<Slot>)
    requires Steady(y, slots) && i < |y.q.tasks| && w.Gives()
    ensures var o := OutcomeOf(y.q.tasks[i].body, w, []);
            var z := SystemStepped(y, SlotOf, i, o);
            AllValid(z.q) && z.q.tasks == Without(y.q.tasks, i) + if o.again then [Task(y.q.tasks[i].id, o.body, Some(SlotOf(o.body)))] else []
  {
    var t := y.q.tasks[i];
    var o := OutcomeOf(t.body, w, []);
    StepKeepsTask(t.body, w);
    SteppedKeepsNumbers(y.q, SlotOf, i, o);
    assert AllPushed(Stepping(y.q, i), []) == Stepping(y.q, i);
    var z := SystemStepped(y, SlotOf, i, o);
    forall k | 0 <= k < |z.q.tasks| ensures TaskValid(z.q.tasks[k].body) {
      if k < |y.q.tasks| - 1 { assert z.q.tasks[k] == y.q.tasks[if k < i then k else k + 1]; }
    }
  }

  lemma OtherHolder(y: Sys, i: nat, s: Slot, slots: set<Slot>) returns (j: nat)
    requires Steady(y, slots) && i < |y.q.tasks| && Released(y.q, y.q.tasks[i].held)[s]
    ensures j < |y.q.tasks| && j != i && y.q.tasks[j].held == Some(s) && SlotOf(y.q.tasks[j].body) == s
  {
    var h :| h in y.q.tasks && Holds(h, s);
    j :| 0 <= j < |y.q.tasks| && y.q.tasks[j] == h;
  }

  /** The step names the slot that the task at `j` holds, and both will call on it. */
  predicate NamesSlotOf(y: Sys, i: nat, w: World, j: nat, s: Slot)
    requires i < |y.q.tasks| && j < |y.q.tasks|
  {
    var p := StepOf(y.q.tasks[i].body, w);
    j != i && p.again && SlotOf(p.task) == s && y.q.tasks[j].held == Some(s) && !Spent(p.task) && !Spent(y.q.tasks[j].body)
  }

  /** A step that names a slot another task holds: unless one of the two is an upload with nothing left to send, one of
      them takes the other's reply once both have waited their turn. */
  lemma NamingHeldCollides(y: Sys, i: nat, w: World, slots: set<Slot>, j: nat, s: Slot)
    requires Steady(y, slots) && i < |y.q.tasks| && j < |y.q.tasks| && w.Gives() && s in slots && NamesSlotOf(y, i, w, j, s)
    ensures CollidesWithin(SystemStepped(y, SlotOf, i, OutcomeOf(y.q.tasks[i].body, w, [])), |y.q.tasks|, slots)
  {
    var z := SystemStepped(y, SlotOf, i, OutcomeOf(y.q.tasks[i].body, w, []));
    NamedIsInDanger(y, i, w, slots, j, s, z);
    InDangerCollides(z, |y.q.tasks|, s, slots);
  }

  lemma InDangerCollides(z: Sys, n: nat, s: Slot, slots: set<Slot>)
    requires n > 0 && InDanger(z, n - 1, s) && s in slots
    ensures z.q.WellFormed() && |z.sent| == SLOT_COUNT && CollidesWithin(z, n, slots)
  {
    DangerIsMet(z, n - 1, s, slots);
  }

  lemma NamedIsInDanger(y: Sys, i: nat, w: World, slots: set<Slot>, j: nat, s: Slot, z: Sys)
    requires Steady(y, slots) && i < |y.q.tasks| && j < |y.q.tasks| && w.Gives() && NamesSlotOf(y, i, w, j, s)
    requires z == SystemStepped(y, SlotOf, i, OutcomeOf(y.q.tasks[i].body, w, []))
    ensures InDanger(z, |y.q.tasks| - 1, s)
  {
    NamedIsDoubled(y, i, w, slots, j);
  }

  lemma NamedIsDoubled(y: Sys, i: nat, w: World, slots: set<Slot>, j: nat)
    requires Steady(y, slots) && i < |y.q.tasks| && j < |y.q.tasks| && j != i && w.Gives()
    requires NamesSlotOf(y, i, w, j, SlotOf(StepOf(y.q.tasks[i].body, w).task))
    ensures Doubled(SystemStepped(y, SlotOf, i, OutcomeOf(y.q.tasks[i].body, w, [])), if j < i then j else j - 1, |y.q.tasks| - 1,
                    SlotOf(StepOf(y.q.tasks[i].body, w).task))
    ensures AllValid(SystemStepped(y, SlotOf, i, OutcomeOf(y.q.tasks[i].body, w, [])).q)
  {
    SteppedIsValid(y, i, w, slots);
    assert Without(y.q.tasks, i)[if j < i then j else j - 1] == y.q.tasks[j];
    assert SlotOf(y.q.tasks[j].body) == y.q.tasks[j].held.value;
  }

  /** Somewhere along the run a scheduled step calls on the slot. */
  predicate Calls(y: Sys, events: seq<RealEvent>, s: Slot)
    requires y.q.WellFormed() && |y.sent| == SLOT_COUNT
    decreases |events|
  {
    events != [] &&
    (var e, i := events[0], FirstRunnable(y.q, SlotOf, 0);
     || (e.RunStep? && i < |y.q.tasks| && s in StepOf(y.q.tasks[i].body, e.world).calls)
     || Calls(SystemAfter(y, SlotOf, Scheduled(e)), events[1..], s))
  }

  /** A reply waits on the slot for a task that will not call on it again: it is gone, or closing. */
  ghost predicate Orphaned(y: Sys, s: Slot) {
    && AllValid(y.q) && |y.sent| == SLOT_COUNT && y.sent[s].Some? && y.sent[s].value < y.q.nextId
    && forall k | 0 <= k < |y.q.tasks| && Some(y.q.tasks[k].id) == y.sent[s] :: IsClosing(y.q.tasks[k].body)
  }

  lemma ClosingStaysClosing(t: AnyTask, w: World, s: Slot)
    requires TaskValid(t) && IsClosing(t) && s != SLOT_CLOSE
    ensures s !in StepOf(t, w).calls && (StepOf(t, w).again ==> IsClosing(StepOf(t, w).task))
  {
    StepCallsExactly(t, w);
  }

  lemma OrphanStays(y: Sys, e: RealEvent, s: Slot)
    requires Orphaned(y, s) && IsReal(e) && s != SLOT_CLOSE
    requires var i := FirstRunnable(y.q, SlotOf, 0);
             e.RunStep? && i < |y.q.tasks| ==> s !in StepOf(y.q.tasks[i].body, e.world).calls
    ensures Orphaned(SystemAfter(y, SlotOf, Scheduled(e)), s)
  {
    if e.PushTask? {
      NewIsValid(e.body);
      var r := Pushed(y.q, e.body);
      assert forall k | 0 <= k < |y.q.tasks| :: r.tasks[k] == y.q.tasks[k];
      return;
    }
    var i := FirstRunnable(y.q, SlotOf, 0);
    if i < |y.q.tasks| { OrphanStaysOver(y, i, e.world, e.pushed, s); }
  }

  lemma OrphanStaysOver(y: Sys, i: nat, w: World, pushed: seq<AnyTask>, s: Slot)
    requires Orphaned(y, s) && i < |y.q.tasks| && w.Gives() && AllNew(pushed) && s != SLOT_CLOSE
    requires s !in StepOf(y.q.tasks[i].body, w).calls
    ensures Orphaned(SystemStepped(y, SlotOf, i, OutcomeOf(y.q.tasks[i].body, w, pushed)), s)
  {
    var t := y.q.tasks[i];
    var o := OutcomeOf(t.body, w, pushed);
    var z := SystemStepped(y, SlotOf, i, o);
    SteppedKeepsNumbers(y.q, SlotOf, i, o);
    PushingKeepsSlots(Stepping(y.q, i), pushed);
    StepKeepsTask(t.body, w);
    if IsClosing(t.body) { ClosingStaysClosing(t.body, w, s); }
    forall k | 0 <= k < |z.q.tasks|
      ensures TaskValid(z.q.tasks[k].body) && (Some(z.q.tasks[k].id) == z.sent[s] ==> IsClosing(z.q.tasks[k].body))
    {
      TasksAfter(y.q, i, o, k);
      if |y.q.tasks| - 1 <= k < |y.q.tasks| - 1 + |pushed| { NewIsValid(z.q.tasks[k].body); }
    }
  }

  /** Whoever calls on that slot next, however much later, is handed the reply that was left. */
  lemma {:induction false} OrphanIsMet(y: Sys, events: seq<RealEvent>, s: Slot, slots: set<Slot>)
    requires Orphaned(y, s) && s in slots && s != SLOT_CLOSE && forall e | e in events :: IsReal(e)
    ensures Calls(y, events, s) ==> !RepliesAreOwn(y, SlotOf, AllScheduled(events), slots)
    decreases |events|
  {
    if events != [] {
      var e, i := events[0], FirstRunnable(y.q, SlotOf, 0);
      assert e in events && AllScheduled(events)[1..] == AllScheduled(events[1..]);
      if e.RunStep? && i < |y.q.tasks| && s in StepOf(y.q.tasks[i].body, e.world).calls {
        if IsClosing(y.q.tasks[i].body) { ClosingStaysClosing(y.q.tasks[i].body, e.world, s); }
        assert !RepliesOwn(y, i, OutcomeOf(y.q.tasks[i].body, e.world, e.pushed), slots);
      } else {
        OrphanStays(y, e, s);
        OrphanIsMet(SystemAfter(y, SlotOf, Scheduled(e)), events[1..], s, slots);
      }
    }
  }

  /** A transfer cancelled in the middle of a call leaves such a reply. */
  lemma CancellingOrphans(y: Sys, i: nat, w: World, slots: set<Slot>)
    requires Steady(y, slots) && Watched(slots) && i < |y.q.tasks| && w.Gives() && !w.stopped && LeavesReplyBehind(y, i, w, slots)
    ensures Orphaned(SystemStepped(y, SlotOf, i, OutcomeOf(y.q.tasks[i].body, w, [])), SlotOf(y.q.tasks[i].body))
    ensures SlotOf(y.q.tasks[i].body) != SLOT_CLOSE
  {
    var t := y.q.tasks[i];
    var s := SlotOf(t.body);
    var z := SystemStepped(y, SlotOf, i, OutcomeOf(t.body, w, []));
    StepCallsExactly(t.body, w);
    SteppedIsValid(y, i, w, slots);
    PendingIsOld(y, slots, s);
    PushingKeepsSlots(Stepping(y.q, i), []);
    forall k | 0 <= k < |y.q.tasks| - 1 ensures z.q.tasks[k].id != t.id {
      assert z.q.tasks[k] == y.q.tasks[if k < i then k else k + 1];
    }
  }

  /** The slot the step names is held by an upload with nothing left to send, or will be. */
  ghost predicate SpentInTheWay(y: Sys, i: nat, o: Outcome<AnyTask>)
    requires i < |y.q.tasks|
  {
    o.again && (Spent(o.body) || exists j :: 0 <= j < |y.q.tasks| && j != i && y.q.tasks[j].held == Some(SlotOf(o.body)) && Spent(y.q.tasks[j].body))
  }

  /** What a step that does not obey costs, while the service runs: it takes somebody else's reply itself; or
      the reply it leaves behind goes to whoever calls on that slot next; or, nothing more being answered, one
      of the two that now hold a slot takes the other's reply within as many runs as there are tasks. Only an
      upload with nothing left to send can make a shared slot harmless. */
  lemma DisobeyingCosts(y: Sys, i: nat, w: World, slots: set<Slot>)
    requires Steady(y, slots) && Watched(slots) && i < |y.q.tasks| && w.Gives() && !w.stopped && !Obeys(y, i, w, slots)
    ensures var o := OutcomeOf(y.q.tasks[i].body, w, []);
            || !RepliesOwn(y, i, o, slots)
            || Orphaned(SystemStepped(y, SlotOf, i, o), SlotOf(y.q.tasks[i].body))
            || CollidesWithin(SystemStepped(y, SlotOf, i, o), |y.q.tasks|, slots)
            || SpentInTheWay(y, i, o)
  {
    var t, p := y.q.tasks[i], StepOf(y.q.tasks[i].body, w);
    if LeavesReplyBehind(y, i, w, slots) { CancellingOrphans(y, i, w, slots); return; }
    if SLOT_CLOSE in slots && StrayClose(t.body, w) && y.q.held[SLOT_CLOSE] { StrayMeetsAnother(y, i, w, [], slots); return; }
    HeldIsNamed(y, i, w, slots);
  }

  lemma HeldIsNamed(y: Sys, i: nat, w: World, slots: set<Slot>)
    requires Steady(y, slots) && i < |y.q.tasks| && w.Gives()
    requires var p := StepOf(y.q.tasks[i].body, w);
             p.again && SlotOf(p.task) in slots && Released(y.q, y.q.tasks[i].held)[SlotOf(p.task)]
    ensures var o := OutcomeOf(y.q.tasks[i].body, w, []);
            CollidesWithin(SystemStepped(y, SlotOf, i, o), |y.q.tasks|, slots) || SpentInTheWay(y, i, o)
  {
    var s := SlotOf(StepOf(y.q.tasks[i].body, w).task);
    var j := OtherHolder(y, i, s, slots);
    if NamesSlotOf(y, i, w, j, s) { NamingHeldCollides(y, i, w, slots, j, s); }
  }
}
