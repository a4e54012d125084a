/** Runs from an empty transfer queue on which it does less than its comments promise. */
module TransferFindings {
  import opened Style
  import opened TransferQueue
  import opened TransferSafety
  import opened TransferSlot
  import opened TransferDiscipline
  import opened TransferRuns
  import opened TransferBreaks
  import opened TransferBatches
  import TransferSchedule
  import RemotePath

  const HERE := Endpoint(Some(0), true)
  const SERVER := Endpoint(Some(1), false)
  const OVERWRITING := Config(Overwrite, false, false, false, true, false)
  const DONE := Reply(true, false, false, false, false, [], Overwrite, false, true)

  function Dest(): string { RemotePath.Join("d", "a") }

  function Measured(): Request { QuerySpace(1, RemotePath.Parent(Dest()), MAX_SPACE_PROBE_ANCESTORS) }

  function Copying(link: bool): Event { EnqueueEvent(HERE, Info("a", false, link), "a", SERVER, "d") }

  lemma ParentIsNotEmpty(path: string)
    requires path != ""
    ensures RemotePath.Parent(path) != ""
  {}

  lemma DestHasParent()
    ensures RemotePath.Parent(Dest()) != ""
  {
    ParentIsNotEmpty(Dest());
  }

  // ------------------------------------------------------------- one step at a time

  /** What the pump does with weighed work and a free slot. */
  lemma PumpBeginsNext(s: State, i: nat)
    requires !s.enumerating && s.preflight == Cleared && !s.paused && s.activeId == NO_JOB && s.dirsToCreate == []
    requires i < |s.jobs| && s.jobs[i].state == Queued && (forall j | 0 <= j < i :: s.jobs[j].state != Queued)
    requires forall j | 0 <= j < |s.jobs| :: s.jobs[j].state == Queued ==> s.jobs[j].spaceChecked
    requires s.jobs[i].source.fs.Some? && s.jobs[i].destination.fs.Some?
    ensures var job := s.jobs[i];
            Pump(s) == Issue(WithJob(s.(activeId := job.id), i, job.(state := Checking)), Stat(job.id), true)
  {
    assert FirstQueued(s.jobs) == i;
    assert FirstUnchecked(s.jobs) == |s.jobs|;
  }

  lemma PumpRests(s: State)
    requires !s.enumerating && s.dirsToCreate == [] && (forall j | 0 <= j < |s.jobs| :: s.jobs[j].state != Queued)
    ensures Pump(s) == s
  {
    assert FirstQueued(s.jobs) == |s.jobs|;
  }

  lemma FindsJob(jobs: seq<Job>, id: JobId, i: nat)
    requires i < |jobs| && jobs[i].id == id && (forall j | 0 <= j < i :: jobs[j].id != id)
    ensures Index(jobs, id) == i
  {}

  /** Events taken one after the other by any step that may refuse one. */
  function Follow<S, E>(step: (S, E) -> Option<S>, s: S, events: seq<E>): Option<S> {
    if events == [] then Some(s)
    else match step(s, events[0])
      case None => None
      case Some(next) => Follow(step, next, events[1..])
  }

  lemma {:induction false} FollowOn<S, E>(step: (S, E) -> Option<S>, s: S, events: seq<E>, e: E)
    requires Follow(step, s, events).Some?
    ensures Follow(step, s, events + [e]) == step(Follow(step, s, events).value, e)
    decreases |events|
  {
    if events == [] {
      assert events + [e] == [e] && [e][1..] == [];
    } else {
      assert (events + [e])[1..] == events[1..] + [e];
      FollowOn(step, step(s, events[0]).value, events[1..], e);
    }
  }

  lemma {:induction false} FollowBoth<S, E>(step: (S, E) -> Option<S>, s: S, first: seq<E>, more: seq<E>)
    requires Follow(step, s, first).Some?
    ensures Follow(step, s, first + more) == Follow(step, Follow(step, s, first).value, more)
    decreases |first|
  {
    if first == [] {
      assert first + more == more;
    } else {
      assert (first + more)[1..] == first[1..] + more;
      FollowBoth(step, step(s, first[0]).value, first[1..], more);
    }
  }

  function Tried(s: State, e: Event): Option<State> {
    if Possible(s, e) then Some(Handle(s, e)) else None
  }

  lemma {:induction false} RunFollows(s: State, events: seq<Event>)
    ensures PossibleRun(s, events) <==> Follow(Tried, s, events).Some?
    ensures PossibleRun(s, events) ==> Run(s, events) == Follow(Tried, s, events).value
    decreases |events|
  {
    if events != [] && Possible(s, events[0]) { RunFollows(Handle(s, events[0]), events[1..]); }
  }

  /** One event more. */
  lemma RunGoesOn(s: State, first: seq<Event>, e: Event)
    requires PossibleRun(s, first) && Possible(Run(s, first), e)
    ensures PossibleRun(s, first + [e]) && Run(s, first + [e]) == Handle(Run(s, first), e)
  {
    RunFollows(s, first);
    RunFollows(s, first + [e]);
    FollowOn(Tried, s, first, e);
  }

  /** One new job as it is queued, weighed and begun. */
  function Fresh(id: JobId, link: bool, state: JobState, weighed: bool): Job {
    Job(id, if link then LinkJob else Copy, HERE, SERVER, "a", Dest(), state, weighed, false)
  }

  lemma QueueFirst(config: Config, link: bool)
    requires !config.skipLinks
    ensures var t := Handle(Initial(config), Copying(link));
            t == Initial(config).(jobs := [Fresh(1, link, Queued, false)], nextId := 2, preflight := CheckingSpace,
                                  out := multiset{Measured()}, log := t.log)
  {
    var t := Initial(config).(jobs := [Fresh(1, link, Queued, false)], nextId := 2);
    assert Initial(config).jobs + [Fresh(1, link, Queued, false)] == t.jobs;
    FirstIsMeasured(t, link);
  }

  lemma FirstIsMeasured(s: State, link: bool)
    requires s.jobs == [Fresh(1, link, Queued, false)] && s.preflight == PendingCheck && !s.enumerating
    ensures Pump(s) == Issue(s.(preflight := CheckingSpace), Measured(), true)
  {
    DestHasParent();
    assert FirstQueued(s.jobs) == 0 && FirstUnchecked(s.jobs) == 0;
    assert BeginPreflight(s) == (Issue(s.(preflight := CheckingSpace), Measured(), true), false);
  }

  /** Queued behind a running check, a job only joins the list. */
  lemma QueueAnother(s: State)
    requires !s.enumerating && s.preflight == CheckingSpace && |s.jobs| > 0 && s.jobs[0].state == Queued
    ensures Handle(s, Copying(false)) == s.(jobs := s.jobs + [Fresh(s.nextId, false, Queued, false)], nextId := s.nextId + 1)
  {
    var t := s.(jobs := s.jobs + [Fresh(s.nextId, false, Queued, false)], nextId := s.nextId + 1);
    assert t.jobs[0].state == Queued;
    assert FirstQueued(t.jobs) == 0;
    assert Pump(t) == t;
  }

  /** Weighed work at the server: the first job begins, the rest wait. */
  predicate AllQueued(jobs: seq<Job>) {
    |jobs| > 0 && forall j | 0 <= j < |jobs| :: jobs[j].state == Queued && !jobs[j].spaceChecked && jobs[j].destination == SERVER && jobs[j].source == HERE
  }

  function FirstBegun(jobs: seq<Job>): seq<Job>
    requires AllQueued(jobs)
  {
    MarkWeighed(jobs, Some(1))[0 := jobs[0].(spaceChecked := true, state := Checking)]
  }

  lemma CheckPasses(s: State)
    requires !s.enumerating && s.preflight == CheckingSpace && !s.paused && s.activeId == NO_JOB && s.dirsToCreate == []
    requires AllQueued(s.jobs) && !s.config.concerning && Measured() in s.out
    ensures var t := Handle(s, Answer(Measured(), DONE));
            t == s.(jobs := FirstBegun(s.jobs), preflight := Cleared, activeId := s.jobs[0].id, log := t.log,
                    out := s.out - multiset{Measured()} + multiset{Stat(s.jobs[0].id)})
  {
    assert FirstUnchecked(s.jobs) == 0;
    var t := Answered(s, Measured()).(jobs := MarkWeighed(s.jobs, Some(1)));
    assert Verdict(Answered(s, Measured())) == (t, true);
    PumpBeginsNext(t.(preflight := Cleared), 0);
  }

  /** Files queued one after the other and weighed together; the first one's destination is looked up. */
  function QueueEvents(n: nat): seq<Event> {
    if n == 0 then [] else QueueEvents(n - 1) + [Copying(false)]
  }

  predicate Queueing(s: State, n: nat, config: Config) {
    && s == Initial(config).(jobs := s.jobs, nextId := n + 1, preflight := CheckingSpace,
          out := multiset{Measured()}, log := s.log)
    && |s.jobs| == n && forall j | 0 <= j < n :: s.jobs[j] == Fresh(j + 1, false, Queued, false)
  }

  lemma {:induction false} QueueMany(config: Config, n: nat)
    requires n > 0 && !config.skipLinks
    ensures PossibleRun(Initial(config), QueueEvents(n)) && Queueing(Run(Initial(config), QueueEvents(n)), n, config)
    decreases n
  {
    if n == 1 {
      QueueFirst(config, false);
      RunGoesOn(Initial(config), [], Copying(false));
      assert QueueEvents(0) == [];
    } else {
      QueueMany(config, n - 1);
      QueueAnother(Run(Initial(config), QueueEvents(n - 1)));
      RunGoesOn(Initial(config), QueueEvents(n - 1), Copying(false));
    }
  }

  predicate Looking(s: State, n: nat, config: Config) {
    && s == Initial(config).(jobs := s.jobs, nextId := n + 1, preflight := Cleared, activeId := 1,
          out := multiset{Stat(1)}, log := s.log)
    && |s.jobs| == n > 0 && s.jobs[0] == Fresh(1, false, Checking, true)
    && forall j | 0 < j < n :: s.jobs[j] == Fresh(j + 1, false, Queued, true)
  }

  lemma LookUpFirst(config: Config, n: nat)
    requires n > 0 && !config.skipLinks && !config.concerning
    ensures var events := QueueEvents(n) + [Answer(Measured(), DONE)];
            PossibleRun(Initial(config), events) && Looking(Run(Initial(config), events), n, config)
  {
    QueueMany(config, n);
    var s := Run(Initial(config), QueueEvents(n));
    CheckPasses(s);
    RunGoesOn(Initial(config), QueueEvents(n), Answer(Measured(), DONE));
  }

  // ------------------------------------------------------------ two jobs under way

  /** Where cancelling the first job mid-look-up leaves the queue: the second has begun, and the first
      one's answer is still to come. */
  predicate Overtaken(s: State, n: nat) {
    && 3 <= n == |s.jobs| && s.activeId == 2 && Stat(1) in s.out
    && !s.enumerating && s.preflight == Cleared && !s.paused && s.dirsToCreate == []
    && s.jobs[0] == Fresh(1, false, Cancelled, true) && s.jobs[1] == Fresh(2, false, Checking, true)
    && forall j | 1 < j < n :: s.jobs[j] == Fresh(j + 1, false, Queued, true)
  }

  lemma CancellingOvertakes(s: State, n: nat, config: Config)
    requires Looking(s, n, config) && n >= 3
    ensures Overtaken(Handle(s, CancelEvent(1)), n)
  {
    FindsJob(s.jobs, 1, 0);
    PumpBeginsNext(Retired(s, 0, Cancelled), 1);
  }

  lemma StaleAnswerBeginsAnother(s: State, n: nat)
    requires Overtaken(s, n)
    ensures var t := Handle(s, Answer(Stat(1), DONE));
            |t.jobs| == n && t.jobs[1].state == Checking && t.jobs[2].state == Checking
  {
    FindsJob(s.jobs, 1, 0);
    PumpBeginsNext(Answered(s, Stat(1)).(activeId := NO_JOB), 2);
  }

  /** However many files are queued, three or more: cancelling the first at the wrong moment puts two
      transfers under way at once. */
  lemma TwoJobsAtOnce(config: Config, n: nat)
    requires n >= 3 && !config.skipLinks && !config.concerning
    ensures var events := QueueEvents(n) + [Answer(Measured(), DONE)] + [CancelEvent(1)] + [Answer(Stat(1), DONE)];
            && PossibleRun(Initial(config), events)
            && var t := Run(Initial(config), events); |t.jobs| == n && t.jobs[1].state == Checking && t.jobs[2].state == Checking
  {
    LookUpFirst(config, n);
    var events := QueueEvents(n) + [Answer(Measured(), DONE)];
    CancellingOvertakes(Run(Initial(config), events), n, config);
    RunGoesOn(Initial(config), events, CancelEvent(1));
    StaleAnswerBeginsAnother(Run(Initial(config), events + [CancelEvent(1)]), n);
    RunGoesOn(Initial(config), events + [CancelEvent(1)], Answer(Stat(1), DONE));
  }

  // -------------------------------------------------------- a retired job that changes

  /** A link's job, alone, while its target is being read: no transport owns the read. */
  predicate Reading(s: State) {
    && s == Initial(OVERWRITING).(jobs := [Fresh(1, true, Active, true)], nextId := 2, preflight := Cleared, activeId := 1,
                                  out := multiset{ReadLink(1, false)}, log := s.log)
  }

  lemma ReadLinkFirst()
    ensures var events := [Copying(true), Answer(Measured(), DONE), Answer(Stat(1), DONE)];
            PossibleRun(Initial(OVERWRITING), events) && Reading(Run(Initial(OVERWRITING), events))
  {
    var s0, two := Initial(OVERWRITING), [Copying(true)] + [Answer(Measured(), DONE)];
    LinkWeighed();
    LookUpStartsLink(Run(s0, two));
    RunGoesOn(s0, two, Answer(Stat(1), DONE));
    assert [Copying(true)] + [Answer(Measured(), DONE)] + [Answer(Stat(1), DONE)] == [Copying(true),
          Answer(Measured(), DONE), Answer(Stat(1), DONE)];
  }

  lemma LinkWeighed()
    ensures var events := [Copying(true)] + [Answer(Measured(), DONE)];
            && PossibleRun(Initial(OVERWRITING), events)
            && LookingForLink(Run(Initial(OVERWRITING), events))
  {
    var s0 := Initial(OVERWRITING);
    QueueFirst(OVERWRITING, true);
    RunGoesOn(s0, [], Copying(true));
    assert [] + [Copying(true)] == [Copying(true)];
    CheckPasses(Run(s0, [Copying(true)]));
    RunGoesOn(s0, [Copying(true)], Answer(Measured(), DONE));
  }

  predicate LookingForLink(s: State) {
    && s == Initial(OVERWRITING).(jobs := s.jobs, nextId := 2, preflight := Cleared, activeId := 1, out := s.out, log := s.log)
    && |s.jobs| == 1 && s.jobs[0] == Fresh(1, true, Checking, true) && s.out == multiset{Stat(1)}
  }

  lemma LookUpStartsLink(s: State)
    requires LookingForLink(s)
    ensures Reading(Handle(s, Answer(Stat(1), DONE)))
  {
    FindsJob(s.jobs, 1, 0);
    var t := WithJob(Answered(s, Stat(1)), 0, Fresh(1, true, Active, true));
    assert t.jobs == [Fresh(1, true, Active, true)];
    assert Handle(s, Answer(Stat(1), DONE)) == Issue(t, ReadLink(1, false), true);
  }

  /** Cancelled while its target is being read, a link's job retires as cancelled at once, and the
      read's failure then turns it into a failed one. */
  lemma CancelledThenFailed(s: State, r: Reply)
    requires Reading(s) && !r.ok
    ensures var t := Handle(s, CancelEvent(1));
            && t.jobs[0].state == Cancelled && Possible(t, Answer(ReadLink(1, false), r))
            && Handle(t, Answer(ReadLink(1, false), r)).jobs[0].state == Failed
  {
    FindsJob(s.jobs, 1, 0);
    var t := Retired(s, 0, Cancelled);
    PumpRests(t);
    FindsJob(t.jobs, 1, 0);
    PumpRests(Retired(Answered(t, ReadLink(1, false)), 0, Failed));
  }

  // ------------------------------------------------------ a retired job that starts

  const RENAMING := Config(Rename, false, false, false, true, false)
  const TAKEN := DONE.(found := true)

  /** A lone upload's job whose next free name is being looked up. */
  predicate Probing(s: State, candidate: string) {
    && !s.enumerating && s.dirsToCreate == [] && s.activeId == 1 && s.activeOwner == None
    && s.jobs == [Fresh(1, false, Checking, true).(destExisted := true)]
    && s.out == multiset{StatFree(1, candidate, 1)}
  }

  lemma ProbingIsReached() returns (candidate: string)
    ensures var events := QueueEvents(1) + [Answer(Measured(), DONE)] + [Answer(Stat(1), TAKEN)];
            PossibleRun(Initial(RENAMING), events) && Probing(Run(Initial(RENAMING), events), candidate)
  {
    LookUpFirst(RENAMING, 1);
    var events := QueueEvents(1) + [Answer(Measured(), DONE)];
    candidate := LookFindsName(Run(Initial(RENAMING), events));
    RunGoesOn(Initial(RENAMING), events, Answer(Stat(1), TAKEN));
  }

  lemma LookFindsName(s: State) returns (candidate: string)
    requires Looking(s, 1, RENAMING)
    ensures Possible(s, Answer(Stat(1), TAKEN)) && Probing(Handle(s, Answer(Stat(1), TAKEN)), candidate)
  {
    candidate := NameIsTaken(s);
  }

  lemma NameIsTaken(s: State) returns (candidate: string)
    requires Looking(s, 1, RENAMING)
    ensures Probing(OnConflictKnown(Answered(s, Stat(1)), 1, true), candidate)
  {
    var v := Answered(s, Stat(1));
    assert v.out == multiset{};
    candidate := TakenNameIsProbed(v, s.jobs[0]);
  }

  /** A taken name under the renaming policy: the first free name is looked up next. */
  lemma TakenNameIsProbed(s: State, job: Job) returns (candidate: string)
    requires s.jobs == [job] && job.id == 1 && job.state == Checking && s.config.policy == Rename
    ensures OnConflictKnown(s, 1, true) == Issue(s.(jobs := [job.(destExisted := true)]), StatFree(1, candidate, 1), true)
  {
    FindsJob(s.jobs, 1, 0);
    var t := WithJob(s, 0, job.(destExisted := true));
    assert t.jobs == [job.(destExisted := true)];
    FindsJob(t.jobs, 1, 0);
    var dest := job.destPath;
    candidate := RemotePath.Join(RemotePath.Parent(dest), MakeUniqueCandidate(RemotePath.Leaf(dest), 1));
  }

  /** Cancelled while a free name is looked up, the job retires; the name turning out free then starts
      its transfer all the same, with nothing in the slot. */
  lemma CancelledThenStarted(s: State, candidate: string, r: Reply)
    requires Probing(s, candidate) && !r.found
    ensures var t := Handle(s, CancelEvent(1));
            && |t.jobs| == 1 && t.jobs[0].state == Cancelled && Possible(t, Answer(StatFree(1, candidate, 1), r))
            && var u := Handle(t, Answer(StatFree(1, candidate, 1), r));
               |u.jobs| == 1 && u.jobs[0].state == Active && u.activeId == NO_JOB && Transfer(1, false) in u.out
  {
    FindsJob(s.jobs, 1, 0);
    var t := Retired(s, 0, Cancelled);
    PumpRests(t);
    FindsJob(t.jobs, 1, 0);
    var v := Answered(t, StatFree(1, candidate, 1));
    var w := WithJob(v, 0, v.jobs[0].(destPath := candidate, destExisted := false));
    FindsJob(w.jobs, 1, 0);
    assert w.jobs[0].source == HERE && w.jobs[0].destination == SERVER && w.jobs[0].kind == Copy;
  }

  // ---------------------------------------------------------------- cancelling everything

  lemma FirstTwoUnfinished(jobs: seq<Job>)
    requires |jobs| >= 2 && !jobs[0].state.Terminal() && !jobs[1].state.Terminal()
    ensures var ids := Unfinished(jobs, None); |ids| >= 2 && ids[0] == jobs[0].id && ids[1] == jobs[1].id
  {
    var rest := jobs[1..];
    assert rest[0] == jobs[1];
    assert Unfinished(rest, None) == [rest[0].id] + Unfinished(rest[1..], None);
    assert Unfinished(jobs, None) == [jobs[0].id] + Unfinished(rest, None);
  }

  /** The first of at least two jobs is at a prompt, and nothing holds the others back. */
  ghost predicate AtPrompt(s: State) {
    && Good(ViewOf(s)) && |s.jobs| >= 2 && s.activeId == s.jobs[0].id && s.jobs[0].state == AwaitingResolution
    && !s.enumerating && s.preflight == Cleared && !s.paused && Prompt(s.activeId) in s.out
    && forall j | 1 <= j < |s.jobs| ::
         s.jobs[j].state == Queued && s.jobs[j].spaceChecked && s.jobs[j].source.fs.Some? && s.jobs[j].destination.fs.Some?
  }

  /** The pump, once the first job has retired. */
  lemma RetiredThenPumped(s: State)
    requires AtPrompt(s)
    ensures var d, job := DropPending(s), s.jobs[1];
            CancelJob(d, s.jobs[0].id) ==
            Issue(WithJob(Retired(d, 0, Cancelled).(activeId := job.id), 1, job.(state := Checking)), Stat(job.id), true)
  {
    var d := DropPending(s);
    FindsJob(d.jobs, s.jobs[0].id, 0);
    PumpBeginsNext(Retired(d, 0, Cancelled), 1);
  }

  /** Cancelling the first job begins the second. */
  lemma CancelBeginsSecond(s: State)
    requires AtPrompt(s)
    ensures var second, u := s.jobs[1].id, CancelJob(DropPending(s), s.jobs[0].id);
            Index(u.jobs, second) == 1 < |u.jobs| && u.jobs[1].state == Checking && CallFor(u.out, second)
  {
    var u := CancelJob(DropPending(s), s.jobs[0].id);
    RetiredThenPumped(s);
    assert ViewOf(s).rows[0].id == s.jobs[0].id && ViewOf(s).rows[1].id == s.jobs[1].id;
    FindsJob(u.jobs, s.jobs[1].id, 1);
    assert Stat(s.jobs[1].id) in u.out;
  }

  /** Cancelling everything looks up the next file before cancelling it too, so the batch leaves a call
      outstanding for a job that has retired. */
  lemma CancelAllStrands(s: State)
    requires AtPrompt(s)
    ensures !Disciplined(s, CancelAllEvent) && Stranded(CancelAll(s))
  {
    var d, ids := DropPending(s), Unfinished(s.jobs, None);
    FirstTwoUnfinished(s.jobs);
    CancelBeginsSecond(s);
    var u := CancelJob(d, ids[0]);
    assert ids[1..][0] == ids[1];
    assert !CleanCancel(u, ids[1]);
    assert !CleanCancels(u, ids[1..]);
    assert ViewOf(d) == ViewOf(s);
    CancelsExactly(d, ids);
  }

  // -------------------------------------------------------------- a tree that goes missing

  lemma {:induction false} CancelsDuringWalk(s: State, ids: seq<JobId>)
    requires s.enumerating
    ensures var t := CancelJobs(s, ids);
            t.enumerating && t.enumCancelled == s.enumCancelled && t.toVisit == s.toVisit && t.out == s.out
                  && |t.jobs| == |s.jobs|
    decreases |ids|
  {
    if ids != [] { CancelsDuringWalk(CancelJob(s, ids[0]), ids[1..]); }
  }

  /** A walk that was cancelled while a listing is at the server. */
  predicate Abandoned(s: State) {
    s.enumerating && s.enumCancelled && s.toVisit == []
  }

  lemma CancelAllAbandonsTheWalk(s: State)
    requires s.enumerating
    ensures Abandoned(CancelAll(s)) && CancelAll(s).out == s.out
  {
    CancelsDuringWalk(DropPending(s), Unfinished(s.jobs, None));
  }

  /** Everything was cancelled while a directory was being listed, and another tree is asked for before
      that listing arrives: the tree's own listing is then ignored as well, whatever it holds, so none
      of its files is ever queued. */
  lemma TreeAfterCancelIsLost(s: State, source: Endpoint, item: Info, path: string, destination: Endpoint, destDir: string,
                              first: PendingDir, late: Reply, listing: Reply)
    requires Abandoned(s) && List(first) in s.out
    requires item.isDir && !item.isSymlink && source.fs != destination.fs
    ensures var u := Handle(s, EnqueueEvent(source, item, path, destination, destDir));
            var tree := PendingDir(source, destination, path, RemotePath.Join(destDir, item.name), 0);
            && List(first) in u.out
            && var v := Handle(u, Answer(List(first), late));
               && List(tree) in v.out
               && |Handle(v, Answer(List(tree), listing)).jobs| == |s.jobs|
  {
    var tree := PendingDir(source, destination, path, RemotePath.Join(destDir, item.name), 0);
    var u := Handle(s, EnqueueEvent(source, item, path, destination, destDir));
    assert u.toVisit == [tree] && Abandoned(u.(toVisit := []));
    var v := Handle(u, Answer(List(first), late));
    assert v == Issue(Answered(u, List(first)).(toVisit := u.toVisit[1..]), List(tree), true);
    assert v.toVisit == [];
    TransferSchedule.PumpSched(Answered(v, List(tree)).(enumerating := false, enumCancelled := false));
  }

  // ---------------------------------------------- cancelling everything with nothing under way

  /** With the slot empty and two jobs it could start, which is how it looks while a directory is being made,
      cancelling everything looks up a file and then cancels its job. */
  lemma CancelAllStrandsBetween(s: State, i: nat, j: nat)
    requires Good(ViewOf(s)) && s.activeId == NO_JOB && !Resting(s) && !Unweighed(s.jobs)
    requires i < j < |s.jobs| && Startable(s.jobs[i]) && Startable(s.jobs[j])
    ensures !Allowed(s, CancelAllEvent)
    ensures Sound(s) ==> CanBreak(CancelAll(s)) || !RetiredStay(s, CancelAll(s))
  {
    NoneUnweighedNoQuestion(FirstGone(s.jobs, Everything), Asks(s));
    CancelAllAllowedIff(s);
    if Sound(s) { AllowedExactly(s, CancelAllEvent); }
  }
}
