/** The SFTP slot scheduler (src/transport/SftpTaskQueue.h).

    A task is an identity, a body and the slot it holds. What a step does to a body, which further
    tasks its callbacks push, which slots' calls it makes and on which it leaves a request outstanding
    is arbitrary: it is given anew for every call of `RunNext`. Locking is left out; there is one
    consumer.
  */
module SftpTaskQueue {
  import opened Style

  const SLOT_COUNT := 14

  type Slot = s: int | 0 <= s < SLOT_COUNT

  const SLOT_INIT: Slot := 0
  const SLOT_OPEN: Slot := 1
  const SLOT_READDIR: Slot := 2
  const SLOT_READ: Slot := 3
  const SLOT_WRITE: Slot := 4
  const SLOT_STAT: Slot := 5
  const SLOT_FSTAT: Slot := 6
  const SLOT_STATVFS: Slot := 7
  const SLOT_UNLINK: Slot := 8
  const SLOT_RENAME: Slot := 9
  const SLOT_MKDIR: Slot := 10
  const SLOT_RMDIR: Slot := 11
  const SLOT_SYMLINK: Slot := 12
  const SLOT_CLOSE: Slot := 13

  datatype Task<T> = Task(id: nat, body: T, held: Option<Slot>)

  /** What one step did: whether there is more to do, the body it leaves, the tasks its callbacks
      pushed, the slots whose calls it made, and the one it left a request outstanding on. */
  datatype Outcome<T> = Outcome(again: bool, body: T, pushed: seq<T>, calls: set<Slot>, outstanding: Option<Slot>)

  datatype Queue<T> = Queue(tasks: seq<Task<T>>, held: seq<bool>, nextId: nat)
  {
    predicate WellFormed() {
      |held| == SLOT_COUNT
    }
  }

  function Released<T>(q: Queue<T>, slot: Option<Slot>): seq<bool>
    requires q.WellFormed()
  {
    if slot.Some? then q.held[slot.value := false] else q.held
  }

  predicate Runnable<T>(q: Queue<T>, slotOf: T -> Slot, t: Task<T>)
    requires q.WellFormed()
  {
    t.held.Some? || !q.held[slotOf(t.body)]
  }

  /** The first runnable task at or after `from`, or `|tasks|`. */
  function FirstRunnable<T>(q: Queue<T>, slotOf: T -> Slot, from: nat): (i: nat)
    requires q.WellFormed() && from <= |q.tasks|
    ensures from <= i <= |q.tasks|
    ensures i < |q.tasks| ==> Runnable(q, slotOf, q.tasks[i])
    ensures forall j | from <= j < i :: !Runnable(q, slotOf, q.tasks[j])
    decreases |q.tasks| - from
  {
    if from == |q.tasks| || Runnable(q, slotOf, q.tasks[from]) then from else FirstRunnable(q, slotOf, from + 1)
  }

  function Pushed<T>(q: Queue<T>, body: T): Queue<T> {
    Queue(q.tasks + [Task(q.nextId, body, None)], q.held, q.nextId + 1)
  }

  function AllPushed<T>(q: Queue<T>, bodies: seq<T>): Queue<T>
    decreases |bodies|
  {
    if bodies == [] then q else AllPushed(Pushed(q, bodies[0]), bodies[1..])
  }

  function Without<T>(s: seq<T>, i: nat): seq<T>
    requires i < |s|
  {
    s[..i] + s[i + 1..]
  }

  /** The queue while task `i` is stepping: it is out of the queue and its slot is free. */
  function Stepping<T>(q: Queue<T>, i: nat): Queue<T>
    requires q.WellFormed() && i < |q.tasks|
  {
    Queue(Without(q.tasks, i), Released(q, q.tasks[i].held), q.nextId)
  }

  /** A task that reports more work takes the slot it now names, whoever may hold it. */
  function Requeued<T>(q: Queue<T>, id: nat, body: T, slot: Slot): Queue<T>
    requires q.WellFormed()
  {
    Queue(q.tasks + [Task(id, body, Some(slot))], q.held[slot := true], q.nextId)
  }

  lemma {:induction false} PushingKeepsSlots<T>(q: Queue<T>, bodies: seq<T>)
    ensures var r := AllPushed(q, bodies);
            && r.held == q.held && q.tasks <= r.tasks && r.nextId == q.nextId + |bodies|
            && |r.tasks| == |q.tasks| + |bodies|
            && forall j | |q.tasks| <= j < |r.tasks| ::
                 r.tasks[j].held == None && r.tasks[j].id == q.nextId + (j - |q.tasks|)
    decreases |bodies|
  {
    if bodies != [] { PushingKeepsSlots(Pushed(q, bodies[0]), bodies[1..]); }
  }

  /** The queue after task `i` stepped with `outcome`. */
  function Stepped<T>(q: Queue<T>, slotOf: T -> Slot, i: nat, outcome: Outcome<T>): (r: Queue<T>)
    requires q.WellFormed() && i < |q.tasks|
    ensures r.WellFormed()
  {
    var during := AllPushed(Stepping(q, i), outcome.pushed);
    PushingKeepsSlots(Stepping(q, i), outcome.pushed);
    if !outcome.again then during
    else Requeued(during, q.tasks[i].id, outcome.body, slotOf(outcome.body))
  }

  function Ran<T>(q: Queue<T>, slotOf: T -> Slot, step: T -> Outcome<T>): (r: Queue<T>)
    requires q.WellFormed()
    ensures r.WellFormed()
  {
    var i := FirstRunnable(q, slotOf, 0);
    if i == |q.tasks| then q else Stepped(q, slotOf, i, step(q.tasks[i].body))
  }

  class SftpTaskQueue<T> {
    var tasks: seq<Task<T>>
    var held: array<bool>
    var nextId: nat
    const slotOf: T -> Slot

    constructor (slotOf: T -> Slot)
      ensures Valid() && fresh(held) && this.slotOf == slotOf
      ensures Value() == Queue([], Fill(SLOT_COUNT, false), 0)
    {
      tasks, nextId, this.slotOf := [], 0, slotOf;
      held := new bool[SLOT_COUNT](_ => false);
      new;
      assert held[..] == Fill(SLOT_COUNT, false);
    }

    predicate Valid()
      reads this
    {
      held.Length == SLOT_COUNT
    }

    function Value(): Queue<T>
      reads this, held
    {
      Queue(tasks, held[..], nextId)
    }

    method Push(body: T)
      requires Valid()
      modifies this`tasks, this`nextId
      ensures Valid() && held == old(held) && Value() == Pushed(old(Value()), body)
    {
      tasks := tasks + [Task(nextId, body, None)];
      nextId := nextId + 1;
    }

    /** The callbacks of a step pushing further tasks. */
    method PushAll(bodies: seq<T>)
      requires Valid()
      modifies this`tasks, this`nextId
      ensures Valid() && Value() == AllPushed(old(Value()), bodies)
    {
      assert bodies[0..] == bodies;
      for i := 0 to |bodies|
        invariant Valid() && held[..] == old(held[..])
        invariant AllPushed(Value(), bodies[i..]) == AllPushed(old(Value()), bodies)
      {
        assert bodies[i..][1..] == bodies[i + 1..];
        Push(bodies[i]);
      }
    }

    /** Advances the first task whose slot is available. A raised flag without a holder never
        happens, so with that invariant `ran` is false only when the queue is empty. */
    method RunNext(step: T -> Outcome<T>) returns (ran: bool)
      requires Valid()
      modifies this`tasks, this`nextId, held
      ensures Valid() && held == old(held)
      ensures Value() == Ran(old(Value()), slotOf, step)
      ensures old(FlagsHaveHolders(Value())) ==> FlagsHaveHolders(Value()) && (ran <==> old(tasks) != [])
    {
      ghost var was := Value();
      if FlagsHaveHolders(was) {
        RanKeepsFlags(was, slotOf, step);
        SomethingIsRunnable(was, slotOf);
      }
      var i := 0;
      while i < |tasks| && !Runnable(Value(), slotOf, tasks[i])
        invariant 0 <= i <= |tasks|
        invariant FirstRunnable(was, slotOf, i) == FirstRunnable(was, slotOf, 0)
      {
        i := i + 1;
      }
      if i == |tasks| { return false; }
      var task := tasks[i];
      tasks := tasks[..i] + tasks[i + 1..];
      if task.held.Some? { held[task.held.value] := false; }
      assert Value() == Stepping(was, i);

      var outcome := step(task.body);
      PushAll(outcome.pushed);
      if !outcome.again { return true; }

      var slot := slotOf(outcome.body);
      held[slot] := true;
      tasks := tasks + [Task(task.id, outcome.body, Some(slot))];
      return true;
    }

    method Drain() returns (taken: seq<Task<T>>)
      requires Valid()
      modifies this`tasks, held
      ensures Valid() && held == old(held) && taken == old(tasks)
      ensures Value() == Queue([], Fill(SLOT_COUNT, false), nextId)
    {
      taken := tasks;
      tasks := [];
      forall s | 0 <= s < held.Length { held[s] := false; }
      assert held[..] == Fill(SLOT_COUNT, false);
    }
  }

  // ------------------------------------- for arbitrary tasks: nothing gets stuck

  predicate Holds<T>(t: Task<T>, s: Slot) {
    t.held == Some(s)
  }

  /** A raised slot flag always has a queued holder. */
  ghost predicate FlagsHaveHolders<T>(q: Queue<T>) {
    q.WellFormed() && forall s: Slot | q.held[s] :: exists t :: t in q.tasks && Holds(t, s)
  }

  lemma RanKeepsFlags<T>(q: Queue<T>, slotOf: T -> Slot, step: T -> Outcome<T>)
    requires FlagsHaveHolders(q)
    ensures FlagsHaveHolders(Ran(q, slotOf, step))
  {
    var i := FirstRunnable(q, slotOf, 0);
    if i < |q.tasks| { SteppedKeepsFlags(q, slotOf, i, step(q.tasks[i].body)); }
  }

  lemma SteppedKeepsFlags<T>(q: Queue<T>, slotOf: T -> Slot, i: nat, outcome: Outcome<T>)
    requires FlagsHaveHolders(q) && i < |q.tasks|
    ensures FlagsHaveHolders(Stepped(q, slotOf, i, outcome))
  {
    var mid := Stepping(q, i);
    var during := AllPushed(mid, outcome.pushed);
    var after := Stepped(q, slotOf, i, outcome);
    PushingKeepsSlots(mid, outcome.pushed);
    forall s: Slot | after.held[s] ensures exists t :: t in after.tasks && Holds(t, s) {
      if outcome.again && s == slotOf(outcome.body) {
        var t := Task(q.tasks[i].id, outcome.body, Some(s));
        assert after.tasks[|after.tasks| - 1] == t;
        assert t in after.tasks && Holds(t, s);
      } else {
        assert q.held[s] && q.tasks[i].held != Some(s);
        var t :| t in q.tasks && Holds(t, s);
        assert t in mid.tasks;
        assert t in during.tasks;
        assert t in after.tasks && Holds(t, s);
      }
    }
  }

  /** A queue with a task in it always has one that can run. */
  lemma SomethingIsRunnable<T>(q: Queue<T>, slotOf: T -> Slot)
    requires FlagsHaveHolders(q)
    ensures FirstRunnable(q, slotOf, 0) == |q.tasks| <==> q.tasks == []
  {
    if q.tasks != [] && !Runnable(q, slotOf, q.tasks[0]) {
      var t :| t in q.tasks && Holds(t, slotOf(q.tasks[0].body));
      var j :| 0 <= j < |q.tasks| && q.tasks[j] == t;
      assert Runnable(q, slotOf, q.tasks[j]);
    }
  }

  datatype Event<!T> = Push(body: T) | Run(step: T -> Outcome<T>)

  function After<T>(q: Queue<T>, slotOf: T -> Slot, e: Event<T>): (r: Queue<T>)
    requires q.WellFormed()
    ensures r.WellFormed()
  {
    match e
    case Push(body) => Pushed(q, body)
    case Run(step) => Ran(q, slotOf, step)
  }

  function Replayed<T>(q: Queue<T>, slotOf: T -> Slot, events: seq<Event<T>>): (r: Queue<T>)
    requires q.WellFormed()
    ensures r.WellFormed()
    decreases |events|
  {
    if events == [] then q else Replayed(After(q, slotOf, events[0]), slotOf, events[1..])
  }

  function Runs<T>(events: seq<Event<T>>): nat {
    if events == [] then 0 else (if events[0].Run? then 1 else 0) + Runs(events[1..])
  }

  /** One run either steps the holder at position `i` or brings it one place forward. */
  lemma HolderAdvances<T>(q: Queue<T>, slotOf: T -> Slot, i: nat, step: T -> Outcome<T>)
    requires q.WellFormed() && i < |q.tasks| && q.tasks[i].held.Some?
    ensures FirstRunnable(q, slotOf, 0) <= i
    ensures FirstRunnable(q, slotOf, 0) < i ==>
              var r := Ran(q, slotOf, step); |r.tasks| >= i && r.tasks[i - 1] == q.tasks[i]
  {
    var k := FirstRunnable(q, slotOf, 0);
    assert Runnable(q, slotOf, q.tasks[i]);
    if k < i {
      var outcome := step(q.tasks[k].body);
      PushingKeepsSlots(Stepping(q, k), outcome.pushed);
      assert Stepping(q, k).tasks[i - 1] == q.tasks[i];
    }
  }

  /** No holder starves: whatever is pushed and whatever the steps do, the holder at position `i` is
      the one stepped by one of the next `i + 1` runs. */
  lemma {:induction false} HolderIsSteppedSoon<T>(q: Queue<T>, slotOf: T -> Slot, i: nat, events: seq<Event<T>>)
    returns (n: nat, j: nat)
    requires q.WellFormed() && i < |q.tasks| && q.tasks[i].held.Some? && Runs(events) >= i + 1
    ensures n < |events| && events[n].Run? && Runs(events[..n]) <= i
    ensures var later := Replayed(q, slotOf, events[..n]);
            j <= i && j < |later.tasks| && later.tasks[j] == q.tasks[i] && FirstRunnable(later, slotOf, 0) == j
    decreases |events|
  {
    var e := events[0];
    if e.Run? && FirstRunnable(q, slotOf, 0) == i {
      return 0, i;
    }
    var next := After(q, slotOf, e);
    var i' := i;
    if e.Run? {
      HolderAdvances(q, slotOf, i, e.step);
      HolderAdvances(q, slotOf, i, e.step);
      i' := i - 1;
    }
    assert next.tasks[i'] == q.tasks[i];
    n, j := HolderIsSteppedSoon(next, slotOf, i', events[1..]);
    assert events[..n + 1] == [e] + events[1..][..n];
    n := n + 1;
  }

  // --------------------------------------------- exclusive slots and their condition

  /** A holder names the slot it holds; each of these slots has at most one holder and is flagged when held. */
  ghost predicate Exclusive<T>(q: Queue<T>, slotOf: T -> Slot, slots: set<Slot>) {
    && q.WellFormed()
    && (forall i | 0 <= i < |q.tasks| :: q.tasks[i].held.Some? ==> slotOf(q.tasks[i].body) == q.tasks[i].held.value)
    && (forall i | 0 <= i < |q.tasks| :: q.tasks[i].held.Some? && q.tasks[i].held.value in slots ==>
          q.held[q.tasks[i].held.value])
    && (forall i, j | 0 <= i < j < |q.tasks| :: q.tasks[i].held.Some? && q.tasks[i].held.value in slots ==>
          q.tasks[i].held != q.tasks[j].held)
    && FlagsHaveHolders(q)
  }

  /** The test the scheduler does not make before it takes the slot a task names after its step. */
  predicate NamesFreeSlot<T>(q: Queue<T>, slotOf: T -> Slot, i: nat, outcome: Outcome<T>, slots: set<Slot>)
    requires q.WellFormed() && i < |q.tasks|
  {
    outcome.again && slotOf(outcome.body) in slots ==> !Released(q, q.tasks[i].held)[slotOf(outcome.body)]
  }

  /** A step keeps these slots exclusive exactly when the one it names next, if among them, is free. */
  lemma StepKeepsExclusiveIff<T>(q: Queue<T>, slotOf: T -> Slot, i: nat, outcome: Outcome<T>, slots: set<Slot>)
    requires Exclusive(q, slotOf, slots) && i < |q.tasks|
    ensures Exclusive(Stepped(q, slotOf, i, outcome), slotOf, slots) <==> NamesFreeSlot(q, slotOf, i, outcome, slots)
  {
    var mid := Stepping(q, i);
    var during := AllPushed(mid, outcome.pushed);
    var after := Stepped(q, slotOf, i, outcome);
    PushingKeepsSlots(mid, outcome.pushed);
    SteppedKeepsFlags(q, slotOf, i, outcome);
    RemovingKeepsExclusive(q, slotOf, i, slots);
    PushingKeepsExclusive(mid, slotOf, outcome.pushed, slots);
    if !NamesFreeSlot(q, slotOf, i, outcome, slots) {
      var s := slotOf(outcome.body);
      var t :| t in during.tasks && Holds(t, s);
      var k :| 0 <= k < |during.tasks| && during.tasks[k] == t;
      assert after.tasks[k].held == after.tasks[|after.tasks| - 1].held == Some(s);
    }
  }

  lemma FreedFlagsHaveHolders<T>(q: Queue<T>, slotOf: T -> Slot, i: nat, slots: set<Slot>)
    requires Exclusive(q, slotOf, slots) && i < |q.tasks|
    ensures FlagsHaveHolders(Stepping(q, i))
  {
    var mid := Stepping(q, i);
    forall s: Slot | mid.held[s] ensures exists t :: t in mid.tasks && Holds(t, s) {
      var t :| t in q.tasks && Holds(t, s);
      var k :| 0 <= k < |q.tasks| && q.tasks[k] == t;
      assert k != i;
      assert mid.tasks[if k < i then k else k - 1] == t;
      assert t in mid.tasks && Holds(t, s);
    }
  }

  lemma RemovingKeepsExclusive<T>(q: Queue<T>, slotOf: T -> Slot, i: nat, slots: set<Slot>)
    requires Exclusive(q, slotOf, slots) && i < |q.tasks|
    ensures Exclusive(Stepping(q, i), slotOf, slots)
  {
    var mid := Stepping(q, i);
    forall k | 0 <= k < |mid.tasks|
      ensures mid.tasks[k] == q.tasks[if k < i then k else k + 1]
    {}
    FreedFlagsHaveHolders(q, slotOf, i, slots);
  }

  lemma PushingKeepsExclusive<T>(q: Queue<T>, slotOf: T -> Slot, bodies: seq<T>, slots: set<Slot>)
    requires Exclusive(q, slotOf, slots)
    ensures Exclusive(AllPushed(q, bodies), slotOf, slots)
  {
    PushingKeepsSlots(q, bodies);
    var r := AllPushed(q, bodies);
    forall s: Slot | r.held[s] ensures exists t :: t in r.tasks && Holds(t, s) {
      var t :| t in q.tasks && Holds(t, s);
      assert t in r.tasks && Holds(t, s);
    }
  }

  // ------------------------------------------------------------------- identities

  /** Tasks are numbered as they are pushed, and no number is used twice. */
  predicate Numbered<T>(q: Queue<T>) {
    && (forall i | 0 <= i < |q.tasks| :: q.tasks[i].id < q.nextId)
    && (forall i, j | 0 <= i < j < |q.tasks| :: q.tasks[i].id != q.tasks[j].id)
  }

  lemma SteppedKeepsNumbers<T>(q: Queue<T>, slotOf: T -> Slot, i: nat, outcome: Outcome<T>)
    requires q.WellFormed() && Numbered(q) && i < |q.tasks|
    ensures Numbered(Stepped(q, slotOf, i, outcome))
  {
    var mid := Stepping(q, i);
    forall k | 0 <= k < |mid.tasks| ensures mid.tasks[k] == q.tasks[if k < i then k else k + 1] {}
    PushingKeepsSlots(mid, outcome.pushed);
    var during := AllPushed(mid, outcome.pushed);
    forall k | 0 <= k < |during.tasks|
      ensures during.tasks[k].id != q.tasks[i].id && during.tasks[k].id < during.nextId
    {
      if k < |mid.tasks| { assert during.tasks[k] == mid.tasks[k]; }
    }
    forall j, k | 0 <= j < k < |during.tasks| ensures during.tasks[j].id != during.tasks[k].id {
      if j < |mid.tasks| { assert during.tasks[j] == mid.tasks[j]; }
      if k < |mid.tasks| { assert during.tasks[k] == mid.tasks[k]; }
    }
  }

  // ------------------------------------------- replies go to whoever sent the request

  /** The session remembers one outstanding request per slot, by the task that sent it. */
  datatype System<T> = System(q: Queue<T>, sent: seq<Option<nat>>)

  /** Whoever waits for a reply on one of these slots is queued and holds it. */
  ghost predicate Consistent<T>(y: System<T>, slotOf: T -> Slot, slots: set<Slot>) {
    && Exclusive(y.q, slotOf, slots) && Numbered(y.q) && |y.sent| == SLOT_COUNT
    && (forall s: Slot | s in slots && y.sent[s].Some? :: exists t :: t in y.q.tasks && Holds(t, s) && t.id == y.sent[s].value)
  }

  /** A step's requests: a call takes the reply its slot holds and may leave a new one pending. */
  function SystemStepped<T>(y: System<T>, slotOf: T -> Slot, i: nat, outcome: Outcome<T>): (r: System<T>)
    requires y.q.WellFormed() && i < |y.q.tasks| && |y.sent| == SLOT_COUNT
    ensures |r.sent| == SLOT_COUNT
    ensures forall s: Slot :: r.sent[s] ==
              if s !in outcome.calls then y.sent[s] else if outcome.outstanding == Some(s) then Some(y.q.tasks[i].id) else None
  {
    System(Stepped(y.q, slotOf, i, outcome),
           seq(SLOT_COUNT, s requires 0 <= s < SLOT_COUNT =>
             if s !in outcome.calls then y.sent[s] else if outcome.outstanding == Some(s) then Some(y.q.tasks[i].id) else None))
  }

  /** A reply pending where the task makes a call is its own. */
  predicate RepliesOwn<T>(y: System<T>, i: nat, outcome: Outcome<T>, slots: set<Slot>)
    requires i < |y.q.tasks| && |y.sent| == SLOT_COUNT
  {
    forall s: Slot | s in outcome.calls && s in slots :: y.sent[s] == None || y.sent[s] == Some(y.q.tasks[i].id)
  }

  /** On these slots a step leaves a request only where it calls and waits. */
  predicate WaitsWhereItCalls<T>(slotOf: T -> Slot, outcome: Outcome<T>, slots: set<Slot>) {
    outcome.outstanding.Some? && outcome.outstanding.value in slots ==>
      outcome.outstanding.value in outcome.calls && outcome.again && slotOf(outcome.body) == outcome.outstanding.value
  }

  /** On these slots a step calls only where it was cleared, or where nobody is. */
  predicate CallsClear<T>(q: Queue<T>, slotOf: T -> Slot, i: nat, outcome: Outcome<T>, slots: set<Slot>)
    requires q.WellFormed() && i < |q.tasks|
  {
    forall s: Slot | s in outcome.calls && s in slots :: s == slotOf(q.tasks[i].body) || !q.held[s]
  }

  /** The task leaves the slot it waits on without having taken its reply. */
  predicate Abandons<T>(y: System<T>, slotOf: T -> Slot, i: nat, outcome: Outcome<T>, slots: set<Slot>)
    requires i < |y.q.tasks| && |y.sent| == SLOT_COUNT
  {
    var t := y.q.tasks[i];
    var s := slotOf(t.body);
    s in slots && s !in outcome.calls && y.sent[s] == Some(t.id) && !(outcome.again && slotOf(outcome.body) == s)
  }

  /** What a step has to respect for the replies on these slots to go where they belong. */
  predicate Clear<T>(y: System<T>, slotOf: T -> Slot, i: nat, outcome: Outcome<T>, slots: set<Slot>)
    requires y.q.WellFormed() && i < |y.q.tasks| && |y.sent| == SLOT_COUNT
  {
    && WaitsWhereItCalls(slotOf, outcome, slots) && CallsClear(y.q, slotOf, i, outcome, slots)
    && NamesFreeSlot(y.q, slotOf, i, outcome, slots) && !Abandons(y, slotOf, i, outcome, slots)
  }

  lemma ScheduledReplyIsOwn<T>(y: System<T>, slotOf: T -> Slot, i: nat, outcome: Outcome<T>, slots: set<Slot>)
    requires Consistent(y, slotOf, slots) && i < |y.q.tasks| && Runnable(y.q, slotOf, y.q.tasks[i])
    requires CallsClear(y.q, slotOf, i, outcome, slots)
    ensures RepliesOwn(y, i, outcome, slots)
  {
    forall s: Slot | s in outcome.calls && s in slots ensures y.sent[s] == None || y.sent[s] == Some(y.q.tasks[i].id) {
      if y.sent[s].Some? {
        var t :| t in y.q.tasks && Holds(t, s) && t.id == y.sent[s].value;
        var k :| 0 <= k < |y.q.tasks| && y.q.tasks[k] == t;
        assert y.q.held[s];
      }
    }
  }

  lemma SystemStepStaysConsistent<T>(y: System<T>, slotOf: T -> Slot, i: nat, outcome: Outcome<T>, slots: set<Slot>)
    requires Consistent(y, slotOf, slots) && i < |y.q.tasks| && Clear(y, slotOf, i, outcome, slots)
    ensures Consistent(SystemStepped(y, slotOf, i, outcome), slotOf, slots)
  {
    StepKeepsExclusiveIff(y.q, slotOf, i, outcome, slots);
    SteppedKeepsNumbers(y.q, slotOf, i, outcome);
    var after := SystemStepped(y, slotOf, i, outcome);
    forall s: Slot | s in slots && after.sent[s].Some?
      ensures exists t :: t in after.q.tasks && Holds(t, s) && t.id == after.sent[s].value
    {
      if s in outcome.calls { NewRequestIsHeld(y, slotOf, i, outcome, s); } else { OldRequestIsHeld(y, slotOf, i, outcome, s, slots); }
    }
  }

  lemma NewRequestIsHeld<T>(y: System<T>, slotOf: T -> Slot, i: nat, outcome: Outcome<T>, s: Slot)
    requires y.q.WellFormed() && i < |y.q.tasks| && outcome.again && slotOf(outcome.body) == s
    ensures exists t :: t in Stepped(y.q, slotOf, i, outcome).tasks && Holds(t, s) && t.id == y.q.tasks[i].id
  {
    var after := Stepped(y.q, slotOf, i, outcome);
    var t := after.tasks[|after.tasks| - 1];
    assert t in after.tasks && Holds(t, s) && t.id == y.q.tasks[i].id;
  }

  lemma OldRequestIsHeld<T>(y: System<T>, slotOf: T -> Slot, i: nat, outcome: Outcome<T>, s: Slot, slots: set<Slot>)
    requires Consistent(y, slotOf, slots) && i < |y.q.tasks| && Clear(y, slotOf, i, outcome, slots)
    requires s in slots && s !in outcome.calls && y.sent[s].Some?
    ensures exists t :: t in Stepped(y.q, slotOf, i, outcome).tasks && Holds(t, s) && t.id == y.sent[s].value
  {
    var after, mid := Stepped(y.q, slotOf, i, outcome), Stepping(y.q, i);
    PushingKeepsSlots(mid, outcome.pushed);
    var t :| t in y.q.tasks && Holds(t, s) && t.id == y.sent[s].value;
    var k :| 0 <= k < |y.q.tasks| && y.q.tasks[k] == t;
    if k == i {
      NewRequestIsHeld(y, slotOf, i, outcome, s);
    } else {
      assert mid.tasks[if k < i then k else k - 1] == t;
      assert t in mid.tasks && t in AllPushed(mid, outcome.pushed).tasks;
      assert t in after.tasks && Holds(t, s) && t.id == y.sent[s].value;
    }
  }

  /** A request left behind waits for a task that no longer holds its slot. */
  lemma AbandoningStrands<T>(y: System<T>, slotOf: T -> Slot, i: nat, outcome: Outcome<T>, slots: set<Slot>)
    requires Consistent(y, slotOf, slots) && i < |y.q.tasks| && Abandons(y, slotOf, i, outcome, slots)
    ensures !Consistent(SystemStepped(y, slotOf, i, outcome), slotOf, slots)
  {
    var s, me, after := slotOf(y.q.tasks[i].body), y.q.tasks[i], SystemStepped(y, slotOf, i, outcome);
    var mid := Stepping(y.q, i);
    PushingKeepsSlots(mid, outcome.pushed);
    assert forall k | 0 <= k < |mid.tasks| :: mid.tasks[k] == y.q.tasks[if k < i then k else k + 1];
    assert forall k | 0 <= k < |mid.tasks| :: after.q.tasks[k] == mid.tasks[k];
    assert forall k | 0 <= k < |after.q.tasks| && Holds(after.q.tasks[k], s) :: after.q.tasks[k].id != me.id;
  }

  function SystemAfter<T>(y: System<T>, slotOf: T -> Slot, e: Event<T>): (r: System<T>)
    requires y.q.WellFormed() && |y.sent| == SLOT_COUNT
    ensures r.q == After(y.q, slotOf, e) && |r.sent| == SLOT_COUNT
  {
    match e
    case Push(body) => y.(q := Pushed(y.q, body))
    case Run(step) =>
      var i := FirstRunnable(y.q, slotOf, 0);
      if i == |y.q.tasks| then y else SystemStepped(y, slotOf, i, step(y.q.tasks[i].body))
  }

  /** Along the whole run every scheduled step is clear. */
  predicate Disciplined<T>(y: System<T>, slotOf: T -> Slot, events: seq<Event<T>>, slots: set<Slot>)
    requires y.q.WellFormed() && |y.sent| == SLOT_COUNT
    decreases |events|
  {
    events == [] ||
    (var e, i := events[0], FirstRunnable(y.q, slotOf, 0);
     && (e.Run? && i < |y.q.tasks| ==> Clear(y, slotOf, i, e.step(y.q.tasks[i].body), slots))
     && Disciplined(SystemAfter(y, slotOf, e), slotOf, events[1..], slots))
  }

  /** Along the whole run no task ever meets a reply on one of these slots that is not its own. */
  predicate RepliesAreOwn<T>(y: System<T>, slotOf: T -> Slot, events: seq<Event<T>>, slots: set<Slot>)
    requires y.q.WellFormed() && |y.sent| == SLOT_COUNT
    decreases |events|
  {
    events == [] ||
    (var e, i := events[0], FirstRunnable(y.q, slotOf, 0);
     && (e.Run? && i < |y.q.tasks| ==> RepliesOwn(y, i, e.step(y.q.tasks[i].body), slots))
     && RepliesAreOwn(SystemAfter(y, slotOf, e), slotOf, events[1..], slots))
  }

  lemma {:induction false} DisciplinedRunsDeliverToSender<T>(y: System<T>, slotOf: T -> Slot, events: seq<Event<T>>, slots: set<Slot>)
    requires Consistent(y, slotOf, slots) && Disciplined(y, slotOf, events, slots)
    ensures RepliesAreOwn(y, slotOf, events, slots)
    decreases |events|
  {
    if events != [] {
      var e, i := events[0], FirstRunnable(y.q, slotOf, 0);
      if e.Push? {
        PushStaysConsistent(y, slotOf, e.body, slots);
      } else if i < |y.q.tasks| {
        var outcome := e.step(y.q.tasks[i].body);
        ScheduledReplyIsOwn(y, slotOf, i, outcome, slots);
        SystemStepStaysConsistent(y, slotOf, i, outcome, slots);
      }
      DisciplinedRunsDeliverToSender(SystemAfter(y, slotOf, e), slotOf, events[1..], slots);
    }
  }

  lemma PushStaysConsistent<T>(y: System<T>, slotOf: T -> Slot, body: T, slots: set<Slot>)
    requires Consistent(y, slotOf, slots)
    ensures Consistent(y.(q := Pushed(y.q, body)), slotOf, slots)
  {
    var r := Pushed(y.q, body);
    assert AllPushed(Pushed(y.q, body), [body][1..]) == r;
    PushingKeepsExclusive(y.q, slotOf, [body], slots);
    assert forall k | 0 <= k < |y.q.tasks| :: r.tasks[k] == y.q.tasks[k];
    forall s: Slot | s in slots && y.sent[s].Some? ensures exists t :: t in r.tasks && Holds(t, s) && t.id == y.sent[s].value {
      var t :| t in y.q.tasks && Holds(t, s) && t.id == y.sent[s].value;
      assert t in r.tasks && Holds(t, s) && t.id == y.sent[s].value;
    }
  }
}
