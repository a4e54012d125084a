/** What becomes of every task given to the SFTP service, from its push to the transport's end
    (src/transport/SshSftpService.cpp:853-867, src/transport/SshTransport.cpp:245-247,
    src/transport/SftpTaskQueue.h:85-147): its callback fires once, except for what is pushed while the
    pending tasks are being cancelled. */
module SftpService {
  import opened Style
  import opened SftpTaskQueue
  import opened SftpTasks
  import opened SftpScheduling

  /** A callback that fired: for which task, how the step left it, and what it was told. */
  datatype Note = Note(id: nat, task: AnyTask, report: Report)

  /** The queue, the callbacks so far, and every task as it was pushed, by its number. */
  datatype Ledger = Ledger(q: Queue<AnyTask>, told: seq<Note>, given: seq<AnyTask>)

  const EMPTY := Ledger(IDLE, [], [])

  function Notes(id: nat, p: Progress<AnyTask>): (r: seq<Note>)
    ensures |r| == |p.reports| && forall k | 0 <= k < |r| :: r[k] == Note(id, p.task, p.reports[k])
  {
    seq(|p.reports|, k requires 0 <= k < |p.reports| => Note(id, p.task, p.reports[k]))
  }

  /** The ledger after an event: a push is entered, a run enters what its step's callbacks did. */
  function Entered(g: Ledger, e: RealEvent): (r: Ledger)
    requires g.q.WellFormed()
    ensures r.q.WellFormed() && r.q == After(g.q, SlotOf, Scheduled(e))
  {
    match e
    case PushTask(body) => Ledger(Pushed(g.q, body), g.told, g.given + [body])
    case RunStep(w, pushed) =>
      var i := FirstRunnable(g.q, SlotOf, 0);
      if i == |g.q.tasks| then g
      else Ledger(Stepped(g.q, SlotOf, i, OutcomeOf(g.q.tasks[i].body, w, pushed)),
                  g.told + Notes(g.q.tasks[i].id, StepOf(g.q.tasks[i].body, w)), g.given + pushed)
  }

  function AllEntered(g: Ledger, events: seq<RealEvent>): (r: Ledger)
    requires g.q.WellFormed()
    ensures r.q.WellFormed()
    decreases |events|
  {
    if events == [] then g else AllEntered(Entered(g, events[0]), events[1..])
  }

  // ------------------------------------------------------------------- counting

  function TimesQueued<T>(tasks: seq<Task<T>>, id: nat): nat {
    if tasks == [] then 0 else (if tasks[0].id == id then 1 else 0) + TimesQueued(tasks[1..], id)
  }

  function TimesTold(notes: seq<Note>, id: nat): nat {
    if notes == [] then 0 else (if notes[0].id == id then 1 else 0) + TimesTold(notes[1..], id)
  }

  lemma {:induction false} QueuedConcat<T>(a: seq<Task<T>>, b: seq<Task<T>>, id: nat)
    ensures TimesQueued(a + b, id) == TimesQueued(a, id) + TimesQueued(b, id)
    decreases |a|
  {
    if a == [] { assert a + b == b; return; }
    QueuedConcat(a[1..], b, id);
    assert (a + b)[0] == a[0] && (a + b)[1..] == a[1..] + b;
  }

  lemma {:induction false} ToldConcat(a: seq<Note>, b: seq<Note>, id: nat)
    ensures TimesTold(a + b, id) == TimesTold(a, id) + TimesTold(b, id)
    decreases |a|
  {
    if a == [] { assert a + b == b; return; }
    ToldConcat(a[1..], b, id);
    assert (a + b)[0] == a[0] && (a + b)[1..] == a[1..] + b;
  }

  lemma QueuedWithout<T>(tasks: seq<Task<T>>, i: nat, id: nat)
    requires i < |tasks|
    ensures TimesQueued(tasks, id) == TimesQueued(Without(tasks, i), id) + if tasks[i].id == id then 1 else 0
  {
    assert tasks == tasks[..i] + tasks[i..] && tasks[i..][0] == tasks[i] && tasks[i..][1..] == tasks[i + 1..];
    QueuedConcat(tasks[..i], tasks[i..], id);
    QueuedConcat(tasks[..i], tasks[i + 1..], id);
  }

  lemma QueuedAlone<T>(t: Task<T>, id: nat)
    ensures TimesQueued([t], id) == if t.id == id then 1 else 0
  {
    assert [t][1..] == [];
  }

  lemma {:induction false} QueuedPushes<T>(q: Queue<T>, bodies: seq<T>, id: nat)
    ensures AllPushed(q, bodies).nextId == q.nextId + |bodies|
    ensures TimesQueued(AllPushed(q, bodies).tasks, id) ==
              TimesQueued(q.tasks, id) + if q.nextId <= id < q.nextId + |bodies| then 1 else 0
    decreases |bodies|
  {
    if bodies == [] { return; }
    QueuedPushes(Pushed(q, bodies[0]), bodies[1..], id);
    QueuedConcat(q.tasks, [Task(q.nextId, bodies[0], None)], id);
    QueuedAlone(Task(q.nextId, bodies[0], None), id);
  }

  lemma ToldOnce(notes: seq<Note>, mine: nat, id: nat)
    requires |notes| <= 1 && forall n | n in notes :: n.id == mine
    ensures TimesTold(notes, id) == if id == mine then |notes| else 0
  {
    if notes != [] { assert notes[0] in notes && notes[1..] == []; }
  }

  /** Every task ever pushed is queued or has had its callback, and not both, and that once. */
  ghost predicate EachOnce(g: Ledger) {
    && |g.given| == g.q.nextId
    && forall id: nat :: TimesTold(g.told, id) + TimesQueued(g.q.tasks, id) == (if id < g.q.nextId then 1 else 0)
  }

  /** The same work: what a task is about never changes. */
  predicate SameWork(a: AnyTask, b: AnyTask) {
    match a
    case Uploading(u) => b.Uploading? && b.up.file == u.file
    case Downloading(d) => b.Downloading? && b.down.remote == d.remote
    case Listing(_) => b.Listing?
    case Operating(o) => b.Operating? && b.op.opSlot == o.opSlot
  }

  /** What is said to a callback: a transfer's success means that all of its file arrived, in order. */
  predicate SaidTruly(n: Note) {
    && (n.report.error == Success && n.task.Uploading? ==> n.task.up.sent == n.task.up.file)
    && (n.report.error == Success && n.task.Downloading? ==> n.task.down.written == n.task.down.remote)
    && (n.task.Listing? ==> n.report.entries == n.task.list.entries)
  }

  /** Every callback so far was for a task as it was pushed, and true. */
  predicate AllTrue(g: Ledger) {
    forall n | n in g.told :: n.id < |g.given| && SameWork(g.given[n.id], n.task) && SaidTruly(n)
  }

  ghost predicate TasksKept(g: Ledger) {
    && |g.given| == g.q.nextId
    && (forall t | t in g.q.tasks :: t.id < |g.given| && TaskValid(t.body) && SameWork(g.given[t.id], t.body))
    && AllTrue(g)
  }

  ghost predicate Accounted(g: Ledger) {
    g.q.WellFormed() && EachOnce(g) && TasksKept(g)
  }

  lemma EmptyIsAccounted()
    ensures Accounted(EMPTY)
  {}

  lemma PushIsAccounted(g: Ledger, body: AnyTask)
    requires Accounted(g) && IsNew(body)
    ensures Accounted(Entered(g, PushTask(body)))
  {
    var t := Task(g.q.nextId, body, None);
    forall id: nat ensures TimesQueued(g.q.tasks + [t], id) == TimesQueued(g.q.tasks, id) + (if id == t.id then 1 else 0) {
      QueuedConcat(g.q.tasks, [t], id);
      QueuedAlone(t, id);
    }
    NewIsValid(body);
    SameAsItself(body);
  }

  lemma SameAsItself(t: AnyTask)
    ensures SameWork(t, t)
  {}

  lemma StepSameWork(t: AnyTask, w: World)
    requires TaskValid(t) && w.Gives()
    ensures SameWork(t, StepOf(t, w).task)
  {
    match t
    case Uploading(u) => UploadStepKeeps(u, w); return;
    case Downloading(d) => DownloadStepKeeps(d, w); return;
    case Listing(l) => return;
    case Operating(o) => return;
  }

  /** What one step's callback is told. */
  lemma StepSaysTruly(id: nat, t: AnyTask, w: World)
    requires TaskValid(t) && w.Gives()
    ensures forall n | n in Notes(id, StepOf(t, w)) :: n.id == id && n.task == StepOf(t, w).task && SaidTruly(n)
  {
    StepKeepsTask(t, w);
    match t
    case Uploading(u) => UploadStepKeeps(u, w); return;
    case Downloading(d) => DownloadStepKeeps(d, w); return;
    case Listing(l) => ListStepKeeps(l, w); return;
    case Operating(o) => return;
  }

  lemma StepIsCounted(g: Ledger, i: nat, w: World, pushed: seq<AnyTask>, id: nat)
    requires EachOnce(g) && g.q.WellFormed() && i < |g.q.tasks| && ReportsOnce(StepOf(g.q.tasks[i].body, w), w)
    ensures var t := g.q.tasks[i];
            TimesTold(g.told + Notes(t.id, StepOf(t.body, w)), id) +
            TimesQueued(Stepped(g.q, SlotOf, i, OutcomeOf(t.body, w, pushed)).tasks, id) ==
            if id < g.q.nextId + |pushed| then 1 else 0
  {
    var t := g.q.tasks[i];
    var p := StepOf(t.body, w);
    var mid := Stepping(g.q, i);
    QueuedWithout(g.q.tasks, i, id);
    QueuedPushes(mid, pushed, id);
    ToldConcat(g.told, Notes(t.id, p), id);
    ToldOnce(Notes(t.id, p), t.id, id);
    if p.again {
      var back := Task(t.id, p.task, Some(SlotOf(p.task)));
      QueuedConcat(AllPushed(mid, pushed).tasks, [back], id);
      QueuedAlone(back, id);
    }
  }

  lemma StepKeepsTasks(g: Ledger, i: nat, w: World, pushed: seq<AnyTask>)
    requires Accounted(g) && i < |g.q.tasks| && w.Gives() && AllNew(pushed)
    ensures var t := g.q.tasks[i];
            TasksKept(Ledger(Stepped(g.q, SlotOf, i, OutcomeOf(t.body, w, pushed)), g.told + Notes(t.id, StepOf(t.body, w)), g.given + pushed))
  {
    var t := g.q.tasks[i];
    var r := Stepped(g.q, SlotOf, i, OutcomeOf(t.body, w, pushed));
    var given := g.given + pushed;
    StepKeepsTask(t.body, w);
    StepSameWork(t.body, w);
    StepSaysTruly(t.id, t.body, w);
    PushingKeepsSlots(Stepping(g.q, i), pushed);
    forall k | 0 <= k < |r.tasks|
      ensures r.tasks[k].id < |given| && TaskValid(r.tasks[k].body) && SameWork(given[r.tasks[k].id], r.tasks[k].body)
    {
      TasksAfter(g.q, i, OutcomeOf(t.body, w, pushed), k);
      PushedAreGiven(Stepping(g.q, i), pushed);
      if |g.q.tasks| - 1 <= k < |g.q.tasks| - 1 + |pushed| { NewIsValid(r.tasks[k].body); }
    }
  }

  lemma PushedAreGiven(q: Queue<AnyTask>, bodies: seq<AnyTask>)
    ensures |AllPushed(q, bodies).tasks| == |q.tasks| + |bodies|
    ensures forall k | 0 <= k < |bodies| ::
              var t := AllPushed(q, bodies).tasks[|q.tasks| + k]; t.id == q.nextId + k && t.body == bodies[k]
  {
    PushedBodies(q, bodies);
    PushingKeepsSlots(q, bodies);
  }

  lemma EntryIsAccounted(g: Ledger, e: RealEvent)
    requires Accounted(g) && IsReal(e)
    ensures Accounted(Entered(g, e))
  {
    match e
    case PushTask(body) => PushIsAccounted(g, body);
    case RunStep(w, pushed) =>
      var i := FirstRunnable(g.q, SlotOf, 0);
      if i < |g.q.tasks| {
        StepKeepsTask(g.q.tasks[i].body, w);
        forall id: nat { StepIsCounted(g, i, w, pushed, id); }
        PushingKeepsSlots(Stepping(g.q, i), pushed);
        StepKeepsTasks(g, i, w, pushed);
      }
  }

  /** Any pushes and any runs, with any answers: no callback is lost, none fires twice, and none is told
      of a success that did not happen. */
  lemma {:induction false} EveryRunIsAccounted(g: Ledger, events: seq<RealEvent>)
    requires Accounted(g) && forall e | e in events :: IsReal(e)
    ensures Accounted(AllEntered(g, events))
    decreases |events|
  {
    if events != [] {
      EntryIsAccounted(g, events[0]);
      EveryRunIsAccounted(Entered(g, events[0]), events[1..]);
    }
  }

  // -------------------------------------------------- cancelling what is pending

  /** How one pending task is retired: what the world answers, stopped by then, and what its callback pushes. */
  datatype Answer = Answer(world: World, pushed: seq<AnyTask>)

  ghost predicate Stops(answers: seq<Answer>) {
    forall a | a in answers :: a.world.stopped && a.world.Gives() && AllNew(a.pushed)
  }

  function Drained(g: Ledger): Ledger {
    g.(q := Queue([], Fill(SLOT_COUNT, false), g.q.nextId))
  }

  /** A task taken out of the queue is stepped once; nobody looks at whether it asks for more. */
  function RetiredOne(g: Ledger, t: Task<AnyTask>, a: Answer): (r: Ledger)
  {
    Ledger(AllPushed(g.q, a.pushed), g.told + Notes(t.id, StepOf(t.body, a.world)), g.given + a.pushed)
  }

  function RetiredAll(g: Ledger, taken: seq<Task<AnyTask>>, answers: seq<Answer>): Ledger
    requires |taken| == |answers|
    decreases |taken|
  {
    if taken == [] then g else RetiredAll(RetiredOne(g, taken[0], answers[0]), taken[1..], answers[1..])
  }

  function PendingCancelled(g: Ledger, answers: seq<Answer>): Ledger
    requires |answers| == |g.q.tasks|
  {
    RetiredAll(Drained(g), g.q.tasks, answers)
  }

  /** What a task's callback is told when the service stops: the failure it already had, or how its
      closing was to end, or that there is no connection. */
  function LastWord(t: AnyTask): FsError {
    if !IsClosing(t) then Failure(NotConnected)
    else match t
      case Uploading(u) => u.outcome
      case Downloading(d) => d.outcome
      case Listing(l) => l.outcome
      case Operating(_) => Success
  }

  lemma StoppedSaysLastWord(id: nat, t: AnyTask, w: World)
    requires w.stopped
    ensures var n := Notes(id, StepOf(t, w)); TaskValid(t) ==> |n| == 1 && n[0].id == id && n[0].report.error == LastWord(t)
  {}

  /** The account while tasks are out of the queue. */
  ghost predicate EachOnceBut(g: Ledger, taken: seq<Task<AnyTask>>) {
    && |g.given| == g.q.nextId && g.q.WellFormed()
    && (forall id: nat :: TimesTold(g.told, id) + TimesQueued(g.q.tasks, id) + TimesQueued(taken, id) == (if id < g.q.nextId then 1 else 0))
    && TasksKept(g)
    && (forall t | t in taken :: t.id < |g.given| && TaskValid(t.body) && SameWork(g.given[t.id], t.body))
  }

  lemma {:induction false} RetiringIsCounted(g: Ledger, taken: seq<Task<AnyTask>>, a: Answer, id: nat)
    requires taken != [] && a.world.stopped && TaskValid(taken[0].body)
    ensures var r := RetiredOne(g, taken[0], a);
            TimesTold(r.told, id) + TimesQueued(r.q.tasks, id) + TimesQueued(taken[1..], id) ==
            TimesTold(g.told, id) + TimesQueued(g.q.tasks, id) + TimesQueued(taken, id) +
            if g.q.nextId <= id < g.q.nextId + |a.pushed| then 1 else 0
  {
    var t := taken[0];
    StoppedSaysLastWord(t.id, t.body, a.world);
    QueuedPushes(g.q, a.pushed, id);
    ToldConcat(g.told, Notes(t.id, StepOf(t.body, a.world)), id);
    ToldOnce(Notes(t.id, StepOf(t.body, a.world)), t.id, id);
  }

  lemma RetiringKeepsTasks(g: Ledger, t: Task<AnyTask>, a: Answer)
    requires TasksKept(g) && a.world.stopped && a.world.Gives() && AllNew(a.pushed)
    requires t.id < |g.given| && TaskValid(t.body) && SameWork(g.given[t.id], t.body)
    ensures TasksKept(RetiredOne(g, t, a))
  {
    var r := RetiredOne(g, t, a);
    PushedAreGiven(g.q, a.pushed);
    PushingKeepsSlots(g.q, a.pushed);
    StepSameWork(t.body, a.world);
    StepSaysTruly(t.id, t.body, a.world);
    forall k | 0 <= k < |r.q.tasks|
      ensures r.q.tasks[k].id < |r.given| && TaskValid(r.q.tasks[k].body) && SameWork(r.given[r.q.tasks[k].id], r.q.tasks[k].body)
    {
      if k < |g.q.tasks| { assert r.q.tasks[k] == g.q.tasks[k]; }
      else { assert r.q.tasks[|g.q.tasks| + (k - |g.q.tasks|)].body == a.pushed[k - |g.q.tasks|]; NewIsValid(r.q.tasks[k].body); SameAsItself(r.q.tasks[k].body); }
    }
  }

  lemma RetiringCounts(g: Ledger, taken: seq<Task<AnyTask>>, a: Answer)
    requires EachOnceBut(g, taken) && taken != [] && Stops([a])
    ensures EachOnceBut(RetiredOne(g, taken[0], a), taken[1..])
  {
    var t := taken[0];
    assert t in taken && a in [a];
    var r := RetiredOne(g, t, a);
    forall id: nat { RetiringIsCounted(g, taken, a, id); }
    RetiringKeepsTasks(g, t, a);
    PushingKeepsSlots(g.q, a.pushed);
    assert forall o | o in taken[1..] :: o in taken;
    assert forall k | 0 <= k < |g.given| :: r.given[k] == g.given[k];
  }

  lemma {:induction false} RetiringAllCounts(g: Ledger, taken: seq<Task<AnyTask>>, answers: seq<Answer>)
    requires EachOnceBut(g, taken) && |taken| == |answers| && Stops(answers)
    ensures EachOnceBut(RetiredAll(g, taken, answers), [])
    decreases |taken|
  {
    if taken == [] { return; }
    assert answers[0] in answers;
    RetiringCounts(g, taken, answers[0]);
    RetiringAllCounts(RetiredOne(g, taken[0], answers[0]), taken[1..], answers[1..]);
  }

  /** The callbacks of the tasks taken, in their order. */
  lemma {:induction false} RetiringSaysLastWords(g: Ledger, taken: seq<Task<AnyTask>>, answers: seq<Answer>)
    requires |taken| == |answers| && Stops(answers) && forall t | t in taken :: TaskValid(t.body)
    ensures var r := RetiredAll(g, taken, answers);
            && |r.told| == |g.told| + |taken| && g.told <= r.told
            && (forall k | 0 <= k < |taken| ::
                  r.told[|g.told| + k].id == taken[k].id && r.told[|g.told| + k].report.error == LastWord(taken[k].body))
    decreases |taken|
  {
    if taken == [] { return; }
    var t, a := taken[0], answers[0];
    assert t in taken && a in answers;
    var next := RetiredOne(g, t, a);
    StoppedSaysLastWord(t.id, t.body, a.world);
    RetiringSaysLastWords(next, taken[1..], answers[1..]);
    var r := RetiredAll(g, taken, answers);
    forall k | 0 <= k < |taken|
      ensures r.told[|g.told| + k].id == taken[k].id && r.told[|g.told| + k].report.error == LastWord(taken[k].body)
    {
      if k > 0 { assert taken[1..][k - 1] == taken[k] && |g.told| + k == |next.told| + (k - 1); }
      else { assert r.told[|g.told|] == next.told[|g.told|]; }
    }
  }

  function AllNewOnes(answers: seq<Answer>): seq<AnyTask> {
    if answers == [] then [] else answers[0].pushed + AllNewOnes(answers[1..])
  }

  lemma {:induction false} PushingInTwo<T>(q: Queue<T>, a: seq<T>, b: seq<T>)
    ensures AllPushed(AllPushed(q, a), b) == AllPushed(q, a + b)
    decreases |a|
  {
    if a == [] { assert a + b == b; return; }
    PushingInTwo(Pushed(q, a[0]), a[1..], b);
    assert (a + b)[0] == a[0] && (a + b)[1..] == a[1..] + b;
  }

  /** All that is queued in the end is what was pushed meanwhile. */
  lemma {:induction false} RetiringOnlyQueuesNew(g: Ledger, taken: seq<Task<AnyTask>>, answers: seq<Answer>)
    requires |taken| == |answers|
    ensures RetiredAll(g, taken, answers).q == AllPushed(g.q, AllNewOnes(answers))
    decreases |taken|
  {
    if taken != [] {
      RetiringOnlyQueuesNew(RetiredOne(g, taken[0], answers[0]), taken[1..], answers[1..]);
      PushingInTwo(g.q, answers[0].pushed, AllNewOnes(answers[1..]));
    }
  }

  lemma {:induction false} NothingNewIff(answers: seq<Answer>)
    ensures AllNewOnes(answers) == [] <==> forall a | a in answers :: a.pushed == []
    decreases |answers|
  {
    if answers != [] {
      NothingNewIff(answers[1..]);
      assert forall a | a in answers :: a == answers[0] || a in answers[1..];
    }
  }

  /** After the pending tasks are cancelled the transport steps nothing any more; late pushes only queue. */
  function PushedLate(g: Ledger, late: seq<AnyTask>): Ledger {
    Ledger(AllPushed(g.q, late), g.told, g.given + late)
  }

  /** A ledger after which nothing is stepped: whatever was numbered below `n` has had its one callback. */
  ghost predicate AllBelow(g: Ledger, n: nat) {
    forall id: nat | id < g.q.nextId :: TimesTold(g.told, id) == if id < n then 1 else 0
  }

  lemma CancellingReports(g: Ledger, answers: seq<Answer>)
    requires Accounted(g) && |answers| == |g.q.tasks| && Stops(answers)
    ensures var r := PendingCancelled(g, answers);
            && Accounted(r) && r.q.nextId == g.q.nextId + |AllNewOnes(answers)|
            && (forall id: nat :: TimesTold(r.told, id) == if id < g.q.nextId then 1 else 0)
  {
    var r, d := PendingCancelled(g, answers), Drained(g);
    RetiringAllCounts(d, g.q.tasks, answers);
    RetiringOnlyQueuesNew(d, g.q.tasks, answers);
    PushingKeepsSlots(d.q, AllNewOnes(answers));
    forall id: nat ensures TimesTold(r.told, id) == if id < g.q.nextId then 1 else 0 {
      QueuedPushes(d.q, AllNewOnes(answers), id);
    }
  }

  lemma LatePushesOnlyQueue(g: Ledger, late: seq<AnyTask>)
    requires Accounted(g)
    ensures var r := PushedLate(g, late); r.q.nextId == g.q.nextId + |late| && AllTrue(r)
  {
    PushingKeepsSlots(g.q, late);
  }

  /** After any run, whatever the last steps' callbacks push and whoever pushes afterwards: each task that
      was pushed before the queue was taken has had its callback exactly once, and what it was told is
      true; each task pushed later never has. */
  lemma CancellingReportsEachOnce(events: seq<RealEvent>, answers: seq<Answer>, late: seq<AnyTask>)
    requires forall e | e in events :: IsReal(e)
    requires |answers| == |AllEntered(EMPTY, events).q.tasks| && Stops(answers)
    ensures var g := AllEntered(EMPTY, events);
            var r := PushedLate(PendingCancelled(g, answers), late);
            AllBelow(r, g.q.nextId) && AllTrue(r) && r.q.nextId == g.q.nextId + |AllNewOnes(answers)| + |late|
  {
    EmptyIsAccounted();
    EveryRunIsAccounted(EMPTY, events);
    CancellingReports(AllEntered(EMPTY, events), answers);
    LatePushesOnlyQueue(PendingCancelled(AllEntered(EMPTY, events), answers), late);
  }

  /** Every task ever pushed is reported exactly when none was pushed after the queue was taken. */
  lemma EverythingIsReportedIff(events: seq<RealEvent>, answers: seq<Answer>, late: seq<AnyTask>)
    requires forall e | e in events :: IsReal(e)
    requires |answers| == |AllEntered(EMPTY, events).q.tasks| && Stops(answers)
    ensures var r := PushedLate(PendingCancelled(AllEntered(EMPTY, events), answers), late);
            AllBelow(r, r.q.nextId) <==> late == [] && forall a | a in answers :: a.pushed == []
  {
    CancellingReportsEachOnce(events, answers, late);
    NothingNewIff(answers);
    var g := AllEntered(EMPTY, events);
    var r := PushedLate(PendingCancelled(g, answers), late);
    if g.q.nextId < r.q.nextId { assert TimesTold(r.told, g.q.nextId) == 0; }
  }

  // --------------------------------------------------------------- the service itself

  class SftpService {
    const queue: SftpTaskQueue<AnyTask>
    var cancelling: bool
    ghost var told: seq<Note>
    ghost var given: seq<AnyTask>

    ghost predicate Valid()
      reads this, queue, queue.held
    {
      queue.Valid() && queue.slotOf == SlotOf
    }

    ghost function Account(): Ledger
      reads this, queue, queue.held
    {
      Ledger(queue.Value(), told, given)
    }

    constructor ()
      ensures Valid() && fresh(queue) && fresh(queue.held) && !cancelling && Account() == EMPTY && Accounted(Account())
    {
      queue := new SftpTaskQueue<AnyTask>(SlotOf);
      cancelling, told, given := false, [], [];
    }

    method Push(body: AnyTask)
      requires Valid() && IsNew(body)
      modifies this`told, this`given, queue
      ensures Valid() && Account() == Entered(old(Account()), PushTask(body))
      ensures old(Accounted(Account())) ==> Accounted(Account())
    {
      if Accounted(Account()) { PushIsAccounted(Account(), body); }
      queue.Push(body);
      given := given + [body];
    }

    /** One turn of the transport's loop. */
    method Service(w: World, pushed: seq<AnyTask>)
      requires Valid() && w.Gives() && AllNew(pushed) && (cancelling ==> w.stopped)
      modifies this`told, this`given, queue, queue.held
      ensures Valid() && Account() == Entered(old(Account()), RunStep(w, pushed))
      ensures old(Accounted(Account())) ==> Accounted(Account())
    {
      if Accounted(Account()) { EntryIsAccounted(Account(), RunStep(w, pushed)); }
      ghost var g := Entered(Account(), RunStep(w, pushed));
      var ran := queue.RunNext(t => OutcomeOf(t, w, pushed));
      told, given := g.told, g.given;
    }

    /** Takes everything queued and retires it with one step each. */
    method CancelPending(answers: seq<Answer>)
      requires Valid() && |answers| == |queue.tasks| && Stops(answers)
      modifies this, queue, queue.held
      ensures Valid() && cancelling && Account() == PendingCancelled(old(Account()), answers)
      ensures old(Accounted(Account())) ==> Accounted(Account())
    {
      ghost var g := Account();
      if Accounted(g) { RetiringAllCounts(Drained(g), g.q.tasks, answers); }
      cancelling := true;
      var taken := queue.Drain();
      assert taken[0..] == taken && answers[0..] == answers;
      for i := 0 to |taken|
        invariant Valid() && cancelling && queue.held == old(queue.held)
        invariant RetiredAll(Account(), taken[i..], answers[i..]) == PendingCancelled(g, answers)
      {
        assert taken[i..][1..] == taken[i + 1..] && answers[i..][1..] == answers[i + 1..];
        var p := StepOf(taken[i].body, answers[i].world);
        queue.PushAll(answers[i].pushed);
        told, given := told + Notes(taken[i].id, p), given + answers[i].pushed;
      }
    }
  }
}
