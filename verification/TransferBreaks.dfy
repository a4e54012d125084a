/** What the discipline is for: a run breaks one job at a time, or changes a job that has retired, exactly
    when somebody retires a job behind the back of a call outstanding for it. */
module TransferBreaks {
  import opened Style
  import opened TransferQueue
  import opened TransferSafety
  import opened TransferSlot
  import opened TransferDiscipline
  import opened TransferRuns
  import opened TransferProgress
  import opened TransferDrain
  import RemotePath

  // ------------------------------------------------------------- the property itself

  /** At most one job is under way, and it is the one the active id names. */
  predicate OneUnderWay(s: State) {
    forall i, j | 0 <= i < |s.jobs| && 0 <= j < |s.jobs| && s.jobs[i].state.InProgress() && s.jobs[j].state.InProgress() ::
      i == j && s.jobs[i].id == s.activeId
  }

  /** A job that has retired is, if it is still listed, as it retired. */
  predicate RetiredStay(s: State, t: State) {
    forall i, j | 0 <= i < |s.jobs| && 0 <= j < |t.jobs| && s.jobs[i].state.Terminal() && t.jobs[j].id == s.jobs[i].id ::
      t.jobs[j].state == s.jobs[i].state
  }

  /** Every state of the run has one job under way at most, and no step changes a retired job. */
  predicate Proper(s: State, events: seq<Event>)
    requires PossibleRun(s, events)
    decreases |events|
  {
    OneUnderWay(s)
    && (events == [] || (RetiredStay(s, Handle(s, events[0])) && Proper(Handle(s, events[0]), events[1..])))
  }

  /** Answers, new work, pausing and settings: nothing is cancelled, closed, declined or cleared away. */
  predicate Quiet(e: Event) {
    match e
    case Answer(q, r) => q.SpacePrompt? ==> r.proceed
    case EnqueueEvent(_, _, _, _, _) => true
    case PauseEvent => true
    case ResumeEvent => true
    case ConfigureEvent(_) => true
    case _ => false
  }

  /** Quiet events alone can break the property from here. */
  ghost predicate CanBreak(s: State) {
    exists more: seq<Event> :: PossibleRun(s, more) && (forall e | e in more :: Quiet(e)) && !Proper(s, more)
  }

  // --------------------------------------------------------- disciplined runs are proper

  lemma GoodIsOneUnderWay(s: State)
    requires Good(ViewOf(s))
    ensures OneUnderWay(s)
  {
    forall i, j | 0 <= i < |s.jobs| && 0 <= j < |s.jobs| && s.jobs[i].state.InProgress() && s.jobs[j].state.InProgress()
      ensures i == j && s.jobs[i].id == s.activeId
    {
      OneAtATime(s, i, j);
    }
  }

  lemma SettledStay(s: State, t: State)
    requires Good(ViewOf(s)) && Good(ViewOf(t)) && Settles(ViewOf(s), ViewOf(t))
    ensures RetiredStay(s, t)
  {
    var v, w := ViewOf(s), ViewOf(t);
    forall i, j | 0 <= i < |s.jobs| && 0 <= j < |t.jobs| && s.jobs[i].state.Terminal() && t.jobs[j].id == s.jobs[i].id
      ensures t.jobs[j].state == s.jobs[i].state
    {
      assert v.rows[i] == Row(s.jobs[i].id, s.jobs[i].state) && w.rows[j] == Row(t.jobs[j].id, t.jobs[j].state);
      assert Pos(v.rows, s.jobs[i].id) == i && Pos(w.rows, s.jobs[i].id) == j;
    }
  }

  lemma {:induction false} DisciplinedRunsAreProper(s: State, events: seq<Event>)
    requires Good(ViewOf(s)) && PossibleRun(s, events) && DisciplinedRun(s, events)
    ensures Proper(s, events)
    decreases |events|
  {
    GoodIsOneUnderWay(s);
    if events != [] {
      EventExactly(s, events[0]);
      EventSettles(s, events[0]);
      SettledStay(s, Handle(s, events[0]));
      DisciplinedRunsAreProper(Handle(s, events[0]), events[1..]);
    }
  }

  lemma {:induction false} QuietIsDisciplined(s: State, events: seq<Event>)
    requires PossibleRun(s, events) && forall e | e in events :: Quiet(e)
    ensures DisciplinedRun(s, events)
    decreases |events|
  {
    if events != [] {
      assert Quiet(events[0]);
      QuietIsDisciplined(Handle(s, events[0]), events[1..]);
    }
  }

  // ------------------------------------------------- a stranded call changes its job

  lemma FailsAfterAll(s: State, id: JobId)
    requires Index(s.jobs, id) < |s.jobs|
    ensures var i, t := Index(s.jobs, id), FinishJob(s, id, Failed);
            i < |t.jobs| && t.jobs[i].id == id && t.jobs[i].state == Failed
  {
    var i := Index(s.jobs, id);
    RetiredView(s, i, Failed);
    PumpLeads(Retired(s, i, Failed));
    assert ViewOf(Retired(s, i, Failed)).rows[i] == Row(id, Failed);
    assert ViewOf(FinishJob(s, id, Failed)).rows[i] == Row(id, Failed);
  }

  /** Started after all: whatever it was, the job is now active, or failed where two remote ends need a relay. */
  lemma StartsAfterAll(s: State, id: JobId)
    requires Index(s.jobs, id) < |s.jobs|
    ensures var i, t := Index(s.jobs, id), StartTransfer(s, id);
            i < |t.jobs| && t.jobs[i].id == id && t.jobs[i].state in {Active, Failed}
  {
    var i := Index(s.jobs, id);
    var job := s.jobs[i].(state := Active);
    SameIds(s.jobs, i, job, id);
    LaunchedAfterAll(WithJob(s, i, job), id);
  }

  lemma LaunchedAfterAll(s: State, id: JobId)
    requires Index(s.jobs, id) < |s.jobs| && s.jobs[Index(s.jobs, id)].state == Active
    ensures var i := Index(s.jobs, id);
            var t := Launched(s, id, s.jobs[i]);
            i < |t.jobs| && t.jobs[i].id == id && t.jobs[i].state in {Active, Failed}
  {
    var job := s.jobs[Index(s.jobs, id)];
    if job.kind == Copy && !job.destination.IsLocalDisk() && !job.source.IsLocalDisk() && !s.config.relayRoot {
      FailsAfterAll(s, id);
      assert Launched(s, id, job) == FinishJob(s, id, Failed);
    }
  }

  lemma SameIds(jobs: seq<Job>, i: nat, job: Job, id: JobId)
    requires i < |jobs| && job.id == jobs[i].id
    ensures Index(jobs[i := job], id) == Index(jobs, id)
  {
    assert forall j | 0 <= j < |jobs| :: jobs[i := job][j].id == jobs[j].id;
  }

  const YES := Reply(true, false, false, false, false, [], Skip, false, true)
  const NO := YES.(ok := false)

  lemma StaleIsThere(s: State, r: Request)
    requires Stale(ViewOf(s), r)
    ensures var i := Index(s.jobs, r.id); i < |s.jobs| && s.jobs[i].state == Cancelled
  {
    PosIsIndex(s.jobs, r.id);
    var i := Index(s.jobs, r.id);
    var k :| 0 <= k < |s.jobs| && ViewOf(s).rows[k].id == r.id;
    assert s.jobs[k].id == r.id;
    assert ViewOf(s).rows[i] == Row(s.jobs[i].id, s.jobs[i].state);
  }

  /** A free name found for a cancelled job starts its transfer; any other failure turns it into a failed one. */
  lemma FreeNameStarts(s: State, r: Request)
    requires r.StatFree? && Index(s.jobs, r.id) < |s.jobs|
    ensures var i, t := Index(s.jobs, r.id), OnAnswer(s, r, YES);
            i < |t.jobs| && t.jobs[i].id == r.id && t.jobs[i].state in {Active, Failed}
  {
    var i := Index(s.jobs, r.id);
    var job := s.jobs[i].(destPath := r.candidate, destExisted := false);
    SameIds(s.jobs, i, job, r.id);
    StartsAfterAll(WithJob(s, i, job), r.id);
  }

  lemma FailureFails(s: State, r: Request)
    requires ClassOf(r) == Calling && !r.Stat? && !r.StatFree? && Index(s.jobs, r.id) < |s.jobs|
    ensures OnAnswer(s, r, NO) == FinishJob(s, r.id, Failed)
  {}

  /** Any call but the first look at the destination, outstanding for a cancelled job, has an answer that
      changes that job. */
  lemma StrandedCallChangesJob(s: State, r: Request)
    requires Stale(ViewOf(s), r) && !r.Stat?
    ensures var e := Answer(r, if r.StatFree? then YES else NO);
            Possible(s, e) && Quiet(e) && !RetiredStay(s, Handle(s, e))
  {
    StaleIsThere(s, r);
    var t, i := Answered(s, r), Index(s.jobs, r.id);
    if r.StatFree? {
      FreeNameStarts(t, r);
    } else {
      FailureFails(t, r);
      FailsAfterAll(t, r.id);
    }
    var u := Handle(s, Answer(r, if r.StatFree? then YES else NO));
    assert u.jobs[i].id == s.jobs[i].id && u.jobs[i].state != s.jobs[i].state;
  }

  // ---------------------------------------------- a stranded first look loses the slot

  /** The pump does not take up a job again that is under way. */
  lemma {:induction false} PumpForgetsUnderWay(s: State, k: nat)
    requires k < |s.jobs| && s.jobs[k].state.InProgress() && s.jobs[k].id != NO_JOB && s.activeId != s.jobs[k].id
    requires forall j | 0 <= j < |s.jobs| && j != k :: s.jobs[j].id != s.jobs[k].id
    ensures var t := Pump(s); k < |t.jobs| && t.jobs[k].id == s.jobs[k].id && t.jobs[k].state == s.jobs[k].state
    ensures Pump(s).activeId != s.jobs[k].id
    decreases QueuedCount(s.jobs), UnweighedCount(s.jobs), if s.preflight == Cleared then 0 else 1
  {
    if !s.enumerating && FirstQueued(s.jobs) < |s.jobs| {
      var i := FirstQueued(s.jobs);
      if s.preflight != Cleared || Unweighed(s.jobs) {
        if s.preflight != CheckingSpace {
          BeginPreflightDecreases(s);
          PreflightMovesNothing(s);
          var (next, over) := BeginPreflight(s);
          RowsAlike(s, next);
          if over { PumpForgetsUnderWay(next.(preflight := Cleared), k); }
        }
      } else if !s.paused && s.activeId == NO_JOB && s.dirsToCreate == [] {
        BeginForgetsUnderWay(s, i, k);
      }
    }
  }

  lemma {:induction false} BeginForgetsUnderWay(s: State, i: nat, k: nat)
    requires !s.enumerating && s.preflight == Cleared && !Unweighed(s.jobs)
    requires i == FirstQueued(s.jobs) < |s.jobs| && !s.paused && s.activeId == NO_JOB && s.dirsToCreate == []
    requires k < |s.jobs| && s.jobs[k].state.InProgress() && s.jobs[k].id != NO_JOB
    requires forall j | 0 <= j < |s.jobs| && j != k :: s.jobs[j].id != s.jobs[k].id
    ensures var t := Pump(s); k < |t.jobs| && t.jobs[k].id == s.jobs[k].id && t.jobs[k].state == s.jobs[k].state
    ensures Pump(s).activeId != s.jobs[k].id
    decreases QueuedCount(s.jobs), UnweighedCount(s.jobs), 0, 0
  {
    if !Startable(s.jobs[i]) {
      CountsUpdate(s.jobs, i, s.jobs[i].(state := Failed));
      PumpForgetsUnderWay(Retired(s.(activeId := s.jobs[i].id), i, Failed), k);
    }
  }

  lemma RowsAlike(s: State, t: State)
    requires Rows(s.jobs) == Rows(t.jobs)
    ensures |s.jobs| == |t.jobs|
    ensures forall i | 0 <= i < |s.jobs| :: t.jobs[i].id == s.jobs[i].id && t.jobs[i].state == s.jobs[i].state
  {
    forall i | 0 <= i < |s.jobs| ensures t.jobs[i].id == s.jobs[i].id && t.jobs[i].state == s.jobs[i].state {
      assert Rows(s.jobs)[i] == Row(s.jobs[i].id, s.jobs[i].state) && Rows(t.jobs)[i] == Row(t.jobs[i].id, t.jobs[i].state);
    }
  }

  /** Answered while another job is under way, it frees that job's slot. */
  lemma StrandedLookLosesSlot(s: State, r: Request)
    requires Stale(ViewOf(s), r) && r.Stat? && Tidy(ViewOf(s)) && s.activeId != NO_JOB
    ensures Possible(s, Answer(r, YES)) && Quiet(Answer(r, YES)) && !OneUnderWay(Handle(s, Answer(r, YES)))
  {
    StaleIsThere(s, r);
    var rows := ViewOf(s).rows;
    var k := Pos(rows, s.activeId);
    assert rows[k] == Row(s.jobs[k].id, s.jobs[k].state);
    var t := Answered(s, r).(activeId := NO_JOB);
    forall j | 0 <= j < |t.jobs| && j != k ensures t.jobs[j].id != t.jobs[k].id {
      assert rows[j].id == s.jobs[j].id;
    }
    PumpForgetsUnderWay(t, k);
    assert Handle(s, Answer(r, YES)) == Pump(t);
  }

  // ------------------------------------------------------ until another job is begun

  predicate Startable(job: Job) {
    job.state == Queued && job.source.fs.Some? && job.destination.fs.Some?
  }

  predicate Poised(s: State, k: nat) {
    k < |s.jobs| && Startable(s.jobs[k])
  }

  /** The pump leaves a startable job waiting, or one is under way; it never pauses the queue. */
  lemma {:induction false} PumpKeepsPoised(s: State, k: nat)
    requires Positive(s)
    ensures Poised(s, k) ==> Pump(s).activeId != NO_JOB || Poised(Pump(s), k)
    ensures Pump(s).paused == s.paused
    decreases QueuedCount(s.jobs), UnweighedCount(s.jobs), if s.preflight == Cleared then 0 else 1
  {
    if !s.enumerating && FirstQueued(s.jobs) < |s.jobs| {
      var i := FirstQueued(s.jobs);
      if s.preflight != Cleared || Unweighed(s.jobs) {
        if s.preflight != CheckingSpace {
          BeginPreflightDecreases(s);
          PreflightKeepsPoised(s, k);
          PreflightKeepsPositive(s);
          var (next, over) := BeginPreflight(s);
          if over { PumpKeepsPoised(next.(preflight := Cleared), k); }
        }
      } else if !s.paused && s.activeId == NO_JOB && s.dirsToCreate == [] {
        BeginKeepsPoised(s, i, k);
      }
    }
  }

  lemma {:induction false} BeginKeepsPoised(s: State, i: nat, k: nat)
    requires Positive(s) && !s.enumerating && s.preflight == Cleared && !Unweighed(s.jobs)
    requires i == FirstQueued(s.jobs) < |s.jobs| && !s.paused && s.activeId == NO_JOB && s.dirsToCreate == []
    ensures Poised(s, k) ==> Pump(s).activeId != NO_JOB || Poised(Pump(s), k)
    ensures Pump(s).paused == s.paused
    decreases QueuedCount(s.jobs), UnweighedCount(s.jobs), 0, 0
  {
    if !Startable(s.jobs[i]) {
      CountsUpdate(s.jobs, i, s.jobs[i].(state := Failed));
      PumpKeepsPoised(Retired(s.(activeId := s.jobs[i].id), i, Failed), k);
    }
  }

  /** Weighing jobs leaves a startable one startable. */
  predicate Waits(s: State, t: State, k: nat) {
    (Poised(s, k) ==> Poised(t, k)) && t.activeId == s.activeId && t.paused == s.paused
  }

  lemma VerdictKeepsPoised(s: State, k: nat)
    ensures Waits(s, Verdict(s).0, k)
  {}

  lemma PreflightKeepsPoised(s: State, k: nat)
    ensures Waits(s, BeginPreflight(s).0, k)
  {
    var t := s.(preflight := CheckingSpace);
    var first := FirstUnchecked(t.jobs);
    if first < |t.jobs| && t.jobs[first].destination.fs.Some? {
      QueryKeepsPoised(t, t.jobs[first].destination.fs.value, RemotePath.Parent(t.jobs[first].destPath), MAX_SPACE_PROBE_ANCESTORS, k);
    }
  }

  lemma QueryKeepsPoised(s: State, fs: nat, path: string, left: nat, k: nat)
    ensures Waits(s, QuerySpaceFrom(s, fs, path, left).0, k)
  {
    VerdictKeepsPoised(s, k);
  }

  /** Answers about the walk, the check and the directories. */
  predicate Housekeeping(q: Request) {
    ClassOf(q) in {Listing, Space, Making}
  }

  lemma HousekeepingLeads(s: State, q: Request)
    requires q in s.out && Housekeeping(q)
    ensures Leads(ViewOf(s), ViewOf(Handle(s, Answer(q, YES))))
  {
    var t, u := Answered(s, q), Handle(s, Answer(q, YES));
    OtherAnswered(ViewOf(s), q);
    match q {
      case List(dir) => ListedLeads(t, dir, [], false);
      case QuerySpace(fs, path, left) =>
        SpaceKnownLeads(t, fs, path, RemotePath.Parent(path), left, true, false);
        SettledLeads(t, SpaceKnown(t, fs, path, RemotePath.Parent(path), left, true, false));
      case SpacePrompt(volume) => PumpLeads(t.(preflight := Cleared));
      case MakeDir(_) => PumpLeads(t);
    }
    LeadsComposes(ViewOf(s), ViewOf(t), ViewOf(u));
  }

  lemma HousekeepingIsLive(s: State, q: Request)
    requires q in s.out && Housekeeping(q) && Positive(s) && Sound(s)
    ensures Live(Handle(s, Answer(q, YES)))
  {
    var t := Answered(s, q);
    match ClassOf(q)
    case Listing => ListedIsLive(t, q.dir, [], false);
    case Space => SpaceAnswerIsLive(t, q, YES);
    case Making => PumpIsLive(t);
  }

  lemma HousekeepingKeepsPoised(s: State, q: Request, k: nat)
    requires q in s.out && Housekeeping(q) && Poised(s, k) && Positive(s)
    ensures var t := Handle(s, Answer(q, YES)); t.paused == s.paused && (t.activeId != NO_JOB || Poised(t, k))
  {
    var t := Answered(s, q);
    match q {
      case List(dir) => PumpKeepsPoised(t.(enumerating := false, enumCancelled := false), k); return;
      case QuerySpace(fs, path, left) =>
        VerdictKeepsPoised(t, k);
        VerdictKeepsPositive(t);
        PumpKeepsPoised(Verdict(t).0.(preflight := Cleared), k);
        return;
      case SpacePrompt(volume) => PumpKeepsPoised(t.(preflight := Cleared), k); return;
      case MakeDir(_) => PumpKeepsPoised(t, k); return;
    }
  }

  lemma VerdictKeepsPositive(s: State)
    requires Positive(s)
    ensures Positive(Verdict(s).0)
  {}

  lemma TidyIsPositive(s: State)
    requires Tidy(ViewOf(s))
    ensures Positive(s)
  {
    forall i | 0 <= i < |s.jobs| ensures s.jobs[i].id > 0 { assert ViewOf(s).rows[i].id == s.jobs[i].id; }
  }

  /** A stranded first look, and a job waiting to be started: answers bring it to start. */
  lemma {:induction false} StrandedLookComesTrue(s: State, r: Request, k: nat) returns (more: seq<Event>)
    requires Stale(ViewOf(s), r) && r.Stat? && Tidy(ViewOf(s)) && Sound(s) && Live(s) && !s.paused
    requires s.activeId != NO_JOB || Poised(s, k)
    ensures PossibleRun(s, more) && (forall e | e in more :: Quiet(e)) && !Proper(s, more)
    decreases Measure(s)
  {
    if s.activeId != NO_JOB {
      StrandedLookLosesSlot(s, r);
      more := [Answer(r, YES)];
      return;
    }
    var q := SomeHousekeeping(s, k);
    HousekeepingGoesOn(s, r, k, q);
    var rest := StrandedLookComesTrue(Handle(s, Answer(q, YES)), r, k);
    more := [Answer(q, YES)] + rest;
    assert more[1..] == rest;
  }

  lemma SomeHousekeeping(s: State, k: nat) returns (q: Request)
    requires Sound(s) && Live(s) && !s.paused && s.activeId == NO_JOB && Poised(s, k)
    ensures q in s.out && Housekeeping(q)
  {
    assert FirstQueued(s.jobs) < |s.jobs|;
    assert Work(s) && Stirring(s);
    q :| q in s.out && Housekeeping(q);
  }

  lemma HousekeepingGoesOn(s: State, r: Request, k: nat, q: Request)
    requires Stale(ViewOf(s), r) && r.Stat? && Tidy(ViewOf(s)) && Sound(s) && Live(s) && !s.paused
    requires s.activeId == NO_JOB && Poised(s, k) && q in s.out && Housekeeping(q)
    ensures var t := Handle(s, Answer(q, YES));
            && Stale(ViewOf(t), r) && Tidy(ViewOf(t)) && Sound(t) && Live(t) && !t.paused
            && (t.activeId != NO_JOB || Poised(t, k)) && Measure(t) < Measure(s)
  {
    TidyIsPositive(s);
    HousekeepingLeads(s, q);
    HousekeepingIsLive(s, q);
    HousekeepingKeepsPoised(s, q, k);
    EventKeepsSound(s, Answer(q, YES));
    AnswerMeasures(s, q, YES);
  }

  /** A file of this machine copied on this machine: enough to put something under way. */
  function Another(item: Info): Event {
    EnqueueEvent(Endpoint(Some(0), true), item, "", Endpoint(Some(0), true), "")
  }

  lemma AnotherIsPoised(s: State, item: Info)
    requires Positive(s) && !s.paused && !item.isDir && !item.isSymlink
    ensures var t := Handle(s, Another(item));
            Live(t) && !t.paused && (t.activeId != NO_JOB || Poised(t, |s.jobs|)) && Leads(ViewOf(s), ViewOf(t))
  {
    var here := Endpoint(Some(0), true);
    var job := NewJob(Copy, here, "", here, RemotePath.Join("", item.name), Queued);
    assert Handle(s, Another(item)) == AddJob(s, job);
    AddLeads(s, job);
    AddIsLive(s, job);
    PumpKeepsPoised(WithNewJob(s, job), |s.jobs|);
  }

  lemma Resumed(s: State)
    requires Tidy(ViewOf(s))
    ensures var t := Handle(s, ResumeEvent); !t.paused && Leads(ViewOf(s), ViewOf(t))
  {
    TidyIsPositive(s);
    ResumeLeads(s);
    if s.paused { PumpKeepsPoised(s.(paused := false), 0); }
  }

  /** Once a first look is stranded, another file and some answers break the property. */
  lemma StrandedLookBreaks(s: State, r: Request, item: Info) returns (more: seq<Event>)
    requires Stale(ViewOf(s), r) && r.Stat? && Tidy(ViewOf(s)) && Sound(s) && !item.isDir && !item.isSymlink
    ensures PossibleRun(s, more) && (forall e | e in more :: Quiet(e)) && !Proper(s, more)
  {
    Resumed(s);
    EventKeepsSound(s, ResumeEvent);
    var later := RunningLookBreaks(Handle(s, ResumeEvent), r, item);
    more := [ResumeEvent] + later;
    assert more[1..] == later;
    GoesWrongLater(s, more);
  }

  lemma RunningLookBreaks(s: State, r: Request, item: Info) returns (more: seq<Event>)
    requires Stale(ViewOf(s), r) && r.Stat? && Tidy(ViewOf(s)) && Sound(s) && !s.paused && !item.isDir && !item.isSymlink
    ensures PossibleRun(s, more) && (forall e | e in more :: Quiet(e)) && !Proper(s, more)
  {
    TidyIsPositive(s);
    AnotherIsPoised(s, item);
    EventKeepsSound(s, Another(item));
    var rest := StrandedLookComesTrue(Handle(s, Another(item)), r, |s.jobs|);
    more := [Another(item)] + rest;
    assert more[1..] == rest;
    GoesWrongLater(s, more);
  }

  /** A run whose rest is improper is improper. */
  lemma GoesWrongLater(s: State, events: seq<Event>)
    requires events != [] && Possible(s, events[0])
    requires var t := Handle(s, events[0]); PossibleRun(t, events[1..]) && !Proper(t, events[1..])
    ensures PossibleRun(s, events) && !Proper(s, events)
  {}

  lemma StrandedCallBreaks(s: State, r: Request)
    requires Stale(ViewOf(s), r) && !r.Stat?
    ensures CanBreak(s)
  {
    var e := Answer(r, if r.StatFree? then YES else NO);
    StrandedCallChangesJob(s, r);
    assert [e][0] == e && PossibleRun(Handle(s, e), [e][1..]);
    assert PossibleRun(s, [e]) && !Proper(s, [e]) && forall o | o in [e] :: Quiet(o);
  }

  /** A call stranded by a cancellation can always break the property. */
  lemma StrandedBreaks(s: State)
    requires Stranded(s) && Tidy(ViewOf(s)) && Sound(s)
    ensures CanBreak(s)
  {
    var r :| Stale(ViewOf(s), r);
    if r.Stat? {
      var more := StrandedLookBreaks(s, r, Info("", false, false));
    } else {
      StrandedCallBreaks(s, r);
    }
  }

  // -------------------------------------------------------------------- main result

  lemma UndisciplinedStrands(s: State, e: Event)
    requires Good(ViewOf(s)) && Possible(s, e) && !Disciplined(s, e)
    ensures Stranded(Handle(s, e)) && Tidy(ViewOf(Handle(s, e)))
  {
    match e
    case CancelEvent(id) => CancelExactly(s, id); return;
    case CancelAllEvent => CancelsExactly(DropPending(s), Unfinished(s.jobs, None)); return;
    case CancelBatchEvent(volume) => CancelsExactly(DropPendingFor(s, volume), Unfinished(s.jobs, Some(volume))); return;
    case CloseEvent(fs) => DropsExactly(s, Unfinishing(s.jobs, fs), fs); return;
    case Answer(q, r) =>
      var d := DropPendingFor(Answered(s, q), q.volume);
      OtherAnswered(ViewOf(s), q);
      assert ViewOf(d) == ViewOf(Answered(s, q));
      CancelsExactly(d, Unfinished(s.jobs, Some(q.volume)));
      PumpLeads(CancelBatchFor(Answered(s, q), q.volume).(preflight := Cleared));
      return;
  }

  /** From a good state an event is disciplined exactly when nothing that may follow it quietly breaks the
      property: one job at a time under way, the one the active id names, and retired jobs left alone. */
  lemma DisciplinedExactly(s: State, e: Event)
    requires Good(ViewOf(s)) && Sound(s) && Possible(s, e)
    ensures Disciplined(s, e) <==> RetiredStay(s, Handle(s, e)) && !CanBreak(Handle(s, e))
  {
    EventExactly(s, e);
    EventKeepsSound(s, e);
    if Disciplined(s, e) {
      EventSettles(s, e);
      SettledStay(s, Handle(s, e));
      forall more: seq<Event> | PossibleRun(Handle(s, e), more) && (forall o | o in more :: Quiet(o)) ensures Proper(Handle(s, e), more) {
        QuietIsDisciplined(Handle(s, e), more);
        DisciplinedRunsAreProper(Handle(s, e), more);
      }
    } else {
      UndisciplinedStrands(s, e);
      StrandedBreaks(Handle(s, e));
    }
  }
}
