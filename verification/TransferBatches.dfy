/** Which batches of jobs may be retired: the condition on the queue as it is before the batch, for
    cancelling everything, everything bound for a volume, and everything a closing file system is used by
    (src/fs/TransferQueue.cpp:1018-1123). */
module TransferBatches {
  import opened Style
  import opened TransferQueue
  import opened TransferSafety
  import opened TransferSlot
  import opened TransferDiscipline
  import opened TransferRuns
  import opened TransferProgress
  import opened TransferDrain
  import opened TransferBreaks
  import RemotePath

  datatype Batch = Everything | Bound(volume: Option<nat>) | Using(fs: nat)

  predicate Member(job: Job, who: Batch) {
    && !job.state.Terminal()
    && match who
       case Everything => true
       case Bound(volume) => job.destination.fs == volume
       case Using(fs) => job.source.fs == Some(fs) || job.destination.fs == Some(fs)
  }

  function Members(jobs: seq<Job>, who: Batch): seq<JobId> {
    if jobs == [] then [] else (if Member(jobs[0], who) then [jobs[0].id] else []) + Members(jobs[1..], who)
  }

  function RetireOne(s: State, id: JobId, who: Batch): State {
    if who.Using? then DropJob(s, id, who.fs) else CancelJob(s, id)
  }

  ghost predicate CleanOne(s: State, id: JobId, who: Batch) {
    if who.Using? then !CallFor(s.out, id) else CleanCancel(s, id)
  }

  ghost predicate CleanAll(s: State, ids: seq<JobId>, who: Batch)
    decreases |ids|
  {
    ids == [] || (CleanOne(s, ids[0], who) && CleanAll(RetireOne(s, ids[0], who), ids[1..], who))
  }

  lemma {:induction false} MembersAsListed(jobs: seq<Job>)
    ensures Members(jobs, Everything) == Unfinished(jobs, None)
    ensures forall volume :: Members(jobs, Bound(volume)) == Unfinished(jobs, Some(volume))
    ensures forall fs :: Members(jobs, Using(fs)) == Unfinishing(jobs, fs)
    decreases |jobs|
  {
    if jobs != [] { MembersAsListed(jobs[1..]); }
  }

  lemma {:induction false} CleanAsListed(s: State, ids: seq<JobId>, who: Batch)
    ensures CleanAll(s, ids, who) <==> if who.Using? then CleanDrops(s, ids, who.fs) else CleanCancels(s, ids)
    decreases |ids|
  {
    if ids != [] { CleanAsListed(RetireOne(s, ids[0], who), ids[1..], who); }
  }

  // ------------------------------------------------------------- what holds the pump back

  /** The first unweighed job bound for its volume. */
  predicate FirstOfVolume(jobs: seq<Job>, i: nat) {
    && i < |jobs| && UnweighedJob(jobs[i]) && jobs[i].destination.fs.Some?
    && forall j | 0 <= j < i && UnweighedJob(jobs[j]) :: jobs[j].destination.fs != jobs[i].destination.fs
  }

  /** Weighing these jobs comes to a question: to a server about a volume, or to the user about a verdict. */
  predicate Question(jobs: seq<Job>, asks: bool) {
    exists i | 0 <= i < |jobs| :: FirstOfVolume(jobs, i) && (asks || RemotePath.Parent(jobs[i].destPath) != "")
  }

  predicate Asks(s: State) {
    s.config.concerning && s.config.hasSpacePrompt
  }

  /** The pump starts nothing until something else happens. */
  predicate Resting(s: State) {
    s.enumerating || s.paused || s.preflight == CheckingSpace
  }

  /** The same jobs, apart from what has been weighed. */
  predicate SameJobs(a: seq<Job>, b: seq<Job>) {
    |a| == |b| && forall i | 0 <= i < |a| :: b[i] == a[i].(spaceChecked := b[i].spaceChecked)
  }

  predicate SameBut(s: State, t: State) {
    SameJobs(s.jobs, t.jobs) && t == s.(jobs := t.jobs, preflight := t.preflight)
  }

  lemma MarkingKeepsQuestion(jobs: seq<Job>, first: nat, asks: bool)
    requires first == FirstUnchecked(jobs) < |jobs| && jobs[first].destination.fs.Some?
    requires !asks && RemotePath.Parent(jobs[first].destPath) == ""
    ensures Question(MarkWeighed(jobs, jobs[first].destination.fs), asks) <==> Question(jobs, asks)
  {
    var marked := MarkWeighed(jobs, jobs[first].destination.fs);
    forall i: nat ensures FirstOfVolume(marked, i) <==> FirstOfVolume(jobs, i) && i < |jobs| && jobs[i].destination.fs != jobs[first].destination.fs {
      if FirstOfVolume(jobs, i) && jobs[i].destination.fs != jobs[first].destination.fs {
        assert FirstOfVolume(marked, i);
      }
      if FirstOfVolume(marked, i) {
        forall j | 0 <= j < i && UnweighedJob(jobs[j]) ensures jobs[j].destination.fs != jobs[i].destination.fs {
          if jobs[j].destination.fs != jobs[first].destination.fs { assert UnweighedJob(marked[j]); }
        }
      }
    }
    forall i: nat | FirstOfVolume(jobs, i) && jobs[i].destination.fs == jobs[first].destination.fs ensures i == first {}
    assert forall i | 0 <= i < |jobs| :: marked[i].destPath == jobs[i].destPath;
    if Question(jobs, asks) {
      var i :| 0 <= i < |jobs| && FirstOfVolume(jobs, i) && (asks || RemotePath.Parent(jobs[i].destPath) != "");
      assert FirstOfVolume(marked, i);
    }
    if Question(marked, asks) {
      var i :| 0 <= i < |jobs| && FirstOfVolume(marked, i) && (asks || RemotePath.Parent(marked[i].destPath) != "");
      assert FirstOfVolume(jobs, i);
    }
  }

  lemma MarkingOneKeepsQuestion(jobs: seq<Job>, first: nat, asks: bool)
    requires first == FirstUnchecked(jobs) < |jobs| && jobs[first].destination.fs.None?
    ensures Question(jobs[first := jobs[first].(spaceChecked := true)], asks) <==> Question(jobs, asks)
  {
    var marked := jobs[first := jobs[first].(spaceChecked := true)];
    forall i: nat ensures FirstOfVolume(marked, i) <==> FirstOfVolume(jobs, i) {
      if FirstOfVolume(marked, i) {
        assert i != first;
        forall j | 0 <= j < i && UnweighedJob(jobs[j]) ensures jobs[j].destination.fs != jobs[i].destination.fs {
          if j != first { assert UnweighedJob(marked[j]); }
        }
      }
    }
    if Question(jobs, asks) {
      var i :| 0 <= i < |jobs| && FirstOfVolume(jobs, i) && (asks || RemotePath.Parent(jobs[i].destPath) != "");
      assert FirstOfVolume(marked, i) && i != first;
    }
    if Question(marked, asks) {
      var i :| 0 <= i < |jobs| && FirstOfVolume(marked, i) && (asks || RemotePath.Parent(marked[i].destPath) != "");
      assert FirstOfVolume(jobs, i) && i != first;
    }
  }

  lemma NoneUnweighedNoQuestion(jobs: seq<Job>, asks: bool)
    requires !Unweighed(jobs)
    ensures !Question(jobs, asks)
  {}

  lemma VerdictAsksOrNot(s: State)
    requires Unweighed(s.jobs) && FirstOfVolume(s.jobs, FirstUnchecked(s.jobs))
    requires RemotePath.Parent(s.jobs[FirstUnchecked(s.jobs)].destPath) == ""
    ensures var (next, over) := Verdict(s);
            && (over ==> SameBut(s, next) && (Question(next.jobs, Asks(s)) <==> Question(s.jobs, Asks(s))))
            && (!over ==> Question(s.jobs, Asks(s)) && next.preflight == s.preflight)
  {
    if !Asks(s) { MarkingKeepsQuestion(s.jobs, FirstUnchecked(s.jobs), Asks(s)); }
  }

  /** A check that is over has only weighed jobs, with the same question still to come or not; one that is not
      has come to it. */
  predicate AsksOrNot(s: State, next: State, over: bool) {
    && (over ==> SameBut(s, next) && (Question(next.jobs, Asks(s)) <==> Question(s.jobs, Asks(s))))
    && (!over ==> Question(s.jobs, Asks(s)) && next.preflight == CheckingSpace)
  }

  lemma MarkedAsksOrNot(s: State)
    requires Unweighed(s.jobs) && s.jobs[FirstUnchecked(s.jobs)].destination.fs.None?
    ensures var first := FirstUnchecked(s.jobs);
            AsksOrNot(s, WithJob(s.(preflight := CheckingSpace), first, s.jobs[first].(spaceChecked := true)), true)
  {
    MarkingOneKeepsQuestion(s.jobs, FirstUnchecked(s.jobs), Asks(s));
  }

  lemma MeasuringAsksOrNot(s: State, first: nat)
    requires s.preflight == CheckingSpace && first == FirstUnchecked(s.jobs) < |s.jobs| && s.jobs[first].destination.fs.Some?
    ensures var (next, over) := QuerySpaceFrom(s, s.jobs[first].destination.fs.value, RemotePath.Parent(s.jobs[first].destPath), MAX_SPACE_PROBE_ANCESTORS);
            AsksOrNot(s, next, over)
  {
    assert FirstOfVolume(s.jobs, first);
    if RemotePath.Parent(s.jobs[first].destPath) == "" { VerdictAsksOrNot(s); }
  }

  lemma CheckedAsksOrNot(s: State, next: State, over: bool)
    requires AsksOrNot(s.(preflight := CheckingSpace), next, over)
    ensures AsksOrNot(s, next, over)
  {}

  /** The check, once started, either comes to a question or is over with what it weighed. */
  lemma PreflightAsksOrNot(s: State)
    requires Unweighed(s.jobs)
    ensures AsksOrNot(s, BeginPreflight(s).0, BeginPreflight(s).1)
  {
    var first := FirstUnchecked(s.jobs);
    if s.jobs[first].destination.fs.None? { MarkedAsksOrNot(s); return; }
    MeasuringAsksOrNot(s.(preflight := CheckingSpace), first);
    CheckedAsksOrNot(s, BeginPreflight(s).0, BeginPreflight(s).1);
  }

  /** What the pump makes of the jobs it has to weigh first. */
  lemma {:induction false} PumpWeighs(s: State) returns (t: State)
    requires !Resting(s) && FirstQueued(s.jobs) < |s.jobs|
    ensures Question(s.jobs, Asks(s)) ==> Pump(s).preflight == CheckingSpace && (NoCall(s.out) ==> NoCall(Pump(s).out))
    ensures !Question(s.jobs, Asks(s)) ==>
              SameBut(s, t) && t.preflight == Cleared && !Unweighed(t.jobs) && Pump(s) == Pump(t)
    decreases UnweighedCount(s.jobs), if s.preflight == Cleared then 0 else 1
  {
    t := s;
    if !Unweighed(s.jobs) {
      NoneUnweighedNoQuestion(s.jobs, Asks(s));
      t := s.(preflight := Cleared);
      return;
    }
    BeginPreflightDecreases(s);
    PreflightAsksOrNot(s);
    var (next, over) := BeginPreflight(s);
    if !over {
      if NoCall(s.out) { PreflightAsksNoCall(s); }
      return;
    }
    var n := next.(preflight := Cleared);
    SameQueued(s.jobs, n.jobs);
    UnweighedIsCounted(s.jobs);
    t := PumpWeighs(n);
    assert Pump(s) == Pump(n);
  }

  lemma SameQueued(a: seq<Job>, b: seq<Job>)
    requires SameJobs(a, b)
    ensures FirstQueued(a) == FirstQueued(b)
  {}

  // ------------------------------------------------------------------ what it begins

  /** The first startable job not spent, or the number of jobs. */
  function FirstLeft(jobs: seq<Job>, spent: seq<JobId>): (k: nat)
    ensures k <= |jobs|
    ensures k < |jobs| ==> Startable(jobs[k]) && jobs[k].id !in spent
    ensures forall j | 0 <= j < k :: Startable(jobs[j]) ==> jobs[j].id in spent
  {
    if jobs == [] || (Startable(jobs[0]) && jobs[0].id !in spent) then 0 else 1 + FirstLeft(jobs[1..], spent)
  }

  lemma LeftAlike(a: seq<Job>, spentA: seq<JobId>, b: seq<Job>, spentB: seq<JobId>)
    requires |a| == |b|
    requires forall i | 0 <= i < |a| :: (Startable(a[i]) && a[i].id !in spentA) <==> (Startable(b[i]) && b[i].id !in spentB)
    ensures FirstLeft(a, spentA) == FirstLeft(b, spentB)
  {}

  predicate Idle(s: State) {
    && !s.enumerating && !s.paused && s.preflight == Cleared && !Unweighed(s.jobs) && s.dirsToCreate == []
    && s.activeId == NO_JOB && Positive(s)
  }

  /** The pump's next move with nothing to weigh or make: it begins a job or fails one it cannot. */
  function Refused(s: State, i: nat): State
    requires i < |s.jobs|
  {
    Retired(s.(activeId := s.jobs[i].id), i, Failed)
  }

  lemma RefusedStaysIdle(s: State, i: nat)
    requires Idle(s) && i == FirstQueued(s.jobs) < |s.jobs| && !Startable(s.jobs[i])
    ensures var t := Refused(s, i);
            && Pump(s) == Pump(t) && Idle(t) && t.out == s.out && |t.jobs| == |s.jobs|
            && QueuedCount(t.jobs) < QueuedCount(s.jobs) && FirstLeft(t.jobs, []) == FirstLeft(s.jobs, [])
            && forall j | 0 <= j < |s.jobs| :: t.jobs[j].id == s.jobs[j].id
  {
    var t := Refused(s, i);
    CountsUpdate(s.jobs, i, s.jobs[i].(state := Failed));
    assert t.jobs == s.jobs[i := s.jobs[i].(state := Failed)];
    LeftAlike(s.jobs, [], t.jobs, []);
  }

  /** With nothing to weigh or make, the pump begins the first startable job, or finds none. */
  lemma {:induction false} PumpBegins(s: State)
    requires Idle(s)
    ensures var k, t := FirstLeft(s.jobs, []), Pump(s);
            if k == |s.jobs| then FirstQueued(t.jobs) == |t.jobs| && t.activeId == NO_JOB && t.out == s.out
            else t.activeId == s.jobs[k].id && Stat(t.activeId) in t.out
    decreases QueuedCount(s.jobs)
  {
    var i := FirstQueued(s.jobs);
    if i == |s.jobs| { NoneStartable(s); return; }
    if Startable(s.jobs[i]) { FirstStartable(s, i); return; }
    RefusedStaysIdle(s, i);
    PumpBegins(Refused(s, i));
  }

  lemma NoneStartable(s: State)
    requires Idle(s) && FirstQueued(s.jobs) == |s.jobs|
    ensures FirstLeft(s.jobs, []) == |s.jobs| && Pump(s) == s
  {
    NoneQueuedNoneUnweighed(s.jobs);
  }

  lemma FirstStartable(s: State, i: nat)
    requires Idle(s) && i == FirstQueued(s.jobs) < |s.jobs| && Startable(s.jobs[i])
    ensures FirstLeft(s.jobs, []) == i && Pump(s).activeId == s.jobs[i].id && Stat(s.jobs[i].id) in Pump(s).out
  {}

  // ------------------------------------------- batches nothing can go wrong with, or must

  /** One retirement of the batch keeps the slot good when it is clean. */
  lemma OneIsGood(s: State, id: JobId, who: Batch)
    requires Good(ViewOf(s)) && CleanOne(s, id, who)
    ensures Good(ViewOf(RetireOne(s, id, who)))
  {
    if who.Using? { DropExactly(s, id, who.fs); } else { CancelExactly(s, id); }
  }

  /** Whether a retirement leaves the queue alone, or is one that pumps. */
  predicate LeftAlone(s: State, id: JobId, who: Batch) {
    var i := Index(s.jobs, id);
    !who.Using? && (i == |s.jobs| || s.jobs[i].state.Terminal() || TransportOwns(s, i))
  }

  /** The job, cut off from the file system that closes, retired and not yet pumped over. */
  function Gone(s: State, id: JobId, who: Batch): State {
    var t := if who.Using? then Cut(s, id, who.fs) else s;
    var i := Index(t.jobs, id);
    if i == |t.jobs| then SlotFreed(t, id) else Retired(t, i, Cancelled)
  }

  lemma RetiringPumps(s: State, id: JobId, who: Batch)
    ensures RetireOne(s, id, who) ==
              if LeftAlone(s, id, who) then CancelJob(s, id) else Pump(Gone(s, id, who))
  {
    if who.Using? { CutIsInvisible(s, id, who.fs); }
  }

  /** What a retirement does before it pumps: nothing is asked and nothing is begun. */
  predicate Quietly(s: State, t: State) {
    && t.out == s.out && t.enumerating == s.enumerating && t.paused == s.paused && t.preflight == s.preflight
    && t.dirsToCreate == s.dirsToCreate && t.config == s.config && |t.jobs| == |s.jobs|
    && forall j | 0 <= j < |s.jobs| :: t.jobs[j].id == s.jobs[j].id && (t.jobs[j].state == Queued ==> s.jobs[j].state == Queued)
  }

  lemma CutQuietly(s: State, id: JobId, fs: nat)
    ensures Quietly(s, Cut(s, id, fs)) && Cut(s, id, fs).activeId == s.activeId
  {
    var i := Index(s.jobs, id);
    if i < |s.jobs| {
      var job := Parted(s.jobs[i], fs);
      assert job.id == s.jobs[i].id && job.state == s.jobs[i].state;
    }
  }

  lemma RetiredQuietly(s: State, i: nat)
    requires i < |s.jobs|
    ensures var t := Retired(s, i, Cancelled);
            Quietly(s, t) && t.activeId == if s.activeId == s.jobs[i].id then NO_JOB else s.activeId
  {}

  lemma QuietlyComposes(s: State, t: State, u: State)
    requires Quietly(s, t) && Quietly(t, u)
    ensures Quietly(s, u)
  {}

  lemma GoneQuietly(s: State, id: JobId, who: Batch)
    ensures Quietly(s, Gone(s, id, who))
    ensures Gone(s, id, who).activeId == if s.activeId == id then NO_JOB else s.activeId
  {
    var t := if who.Using? then Cut(s, id, who.fs) else s;
    if who.Using? { CutQuietly(s, id, who.fs); }
    var i := Index(t.jobs, id);
    if i < |t.jobs| {
      RetiredQuietly(t, i);
      QuietlyComposes(s, t, Retired(t, i, Cancelled));
    }
  }

  lemma {:induction false} RestingPump(s: State)
    requires Resting(s) && NoCall(s.out)
    ensures Resting(Pump(s)) && NoCall(Pump(s).out)
    decreases QueuedCount(s.jobs), UnweighedCount(s.jobs), if s.preflight == Cleared then 0 else 1
  {
    if !s.enumerating && FirstQueued(s.jobs) < |s.jobs| && (s.preflight != Cleared || Unweighed(s.jobs)) && s.preflight != CheckingSpace {
      BeginPreflightDecreases(s);
      PreflightAsksNoCall(s);
      if BeginPreflight(s).1 { RestingPump(BeginPreflight(s).0.(preflight := Cleared)); }
    }
  }

  lemma PreflightAsksNoCall(s: State)
    requires NoCall(s.out)
    ensures var t := BeginPreflight(s).0; NoCall(t.out) && t.paused == s.paused && t.enumerating == s.enumerating && t.preflight == CheckingSpace
  {
    PreflightKeepsFlags(s);
    var q := PreflightAsks(s);
    var v, w := ViewOf(s), ViewOf(BeginPreflight(s).0);
    assert w.out == v.out || w.out == v.out + multiset{q};
  }

  lemma PreflightKeepsFlags(s: State)
    ensures var t := BeginPreflight(s).0; t.paused == s.paused && t.enumerating == s.enumerating && t.preflight == CheckingSpace
  {}

  /** While the pump starts nothing, nothing is called and anything may be retired. */
  lemma {:induction false} RestingIsClean(s: State, ids: seq<JobId>, who: Batch)
    requires Good(ViewOf(s)) && Resting(s) && NoCall(s.out)
    ensures CleanAll(s, ids, who)
    decreases |ids|
  {
    if ids != [] {
      OneIsGood(s, ids[0], who);
      RetiringPumps(s, ids[0], who);
      if !LeftAlone(s, ids[0], who) {
        GoneQuietly(s, ids[0], who);
        RestingPump(Gone(s, ids[0], who));
      }
      RestingIsClean(RetireOne(s, ids[0], who), ids[1..], who);
    }
  }

  lemma PumpNothingQueued(s: State)
    requires FirstQueued(s.jobs) == |s.jobs| && NoCall(s.out)
    ensures var t := Pump(s); t.jobs == s.jobs && NoCall(t.out)
  {
    NoneQueuedNoneUnweighed(s.jobs);
  }

  /** With nothing queued the pump begins nothing either. */
  lemma {:induction false} NothingQueuedIsClean(s: State, ids: seq<JobId>, who: Batch)
    requires Good(ViewOf(s)) && FirstQueued(s.jobs) == |s.jobs| && NoCall(s.out)
    ensures CleanAll(s, ids, who)
    decreases |ids|
  {
    if ids != [] {
      OneIsGood(s, ids[0], who);
      RetiringPumps(s, ids[0], who);
      if !LeftAlone(s, ids[0], who) {
        GoneQuietly(s, ids[0], who);
        PumpNothingQueued(Gone(s, ids[0], who));
      }
      NothingQueuedIsClean(RetireOne(s, ids[0], who), ids[1..], who);
    }
  }

  /** While a job outside the batch holds the slot, nothing in the batch is called. */
  lemma {:induction false} OutsiderIsClean(s: State, ids: seq<JobId>, who: Batch)
    requires Good(ViewOf(s)) && s.activeId != NO_JOB && s.activeId !in ids
    ensures CleanAll(s, ids, who)
    decreases |ids|
  {
    if ids != [] {
      assert ids[0] in ids;
      assert !CallFor(s.out, ids[0]);
      OneIsGood(s, ids[0], who);
      RetiringPumps(s, ids[0], who);
      if !LeftAlone(s, ids[0], who) {
        GoneQuietly(s, ids[0], who);
        PumpWhileHeld(Gone(s, ids[0], who));
      }
      OutsiderIsClean(RetireOne(s, ids[0], who), ids[1..], who);
    }
  }

  /** The slot's job is in the batch, and what has been asked about it is no transfer that could be stopped. */
  ghost predicate Called(s: State, who: Batch) {
    && s.activeId != NO_JOB && CallFor(s.out, s.activeId)
    && (who.Using? || !Owned(s))
  }

  lemma CalledStaysCalled(s: State, id: JobId, who: Batch)
    requires Good(ViewOf(s)) && Called(s, who) && id != s.activeId && CleanOne(s, id, who)
    ensures var t := RetireOne(s, id, who); t.activeId == s.activeId && Called(t, who)
  {
    RetiringPumps(s, id, who);
    if !LeftAlone(s, id, who) {
      var u := Gone(s, id, who);
      GoneQuietly(s, id, who);
      PumpWhileHeld(u);
      var r :| r in s.out && ClassOf(r) == Calling && r.id == s.activeId;
      PumpKeepsOut(u, r);
      if !who.Using? { GoneKeepsOwned(s, id, who, Pump(u)); }
    }
  }

  lemma GoneKeepsOwned(s: State, id: JobId, who: Batch, t: State)
    requires Good(ViewOf(s)) && !who.Using? && id != s.activeId && Unmoved(Gone(s, id, who), t) && s.activeId != NO_JOB
    ensures Owned(t) <==> Owned(s)
  {
    var u := Gone(s, id, who);
    var rows, after := Rows(s.jobs), Rows(t.jobs);
    GoneQuietly(s, id, who);
    assert forall j | 0 <= j < |rows| :: after[j].id == rows[j].id;
    var k := Pos(rows, s.activeId);
    assert Pos(after, s.activeId) == k;
    assert after[k].state == rows[k].state;
  }

  /** The call would be left behind. */
  lemma {:induction false} CalledIsNotClean(s: State, ids: seq<JobId>, who: Batch)
    requires Good(ViewOf(s)) && Called(s, who) && s.activeId in ids
    ensures !CleanAll(s, ids, who)
    decreases |ids|
  {
    if CleanOne(s, ids[0], who) {
      if ids[0] == s.activeId { ActiveIsNotClean(s, who); return; }
      OneIsGood(s, ids[0], who);
      CalledStaysCalled(s, ids[0], who);
      CalledIsNotClean(RetireOne(s, ids[0], who), ids[1..], who);
    }
  }

  lemma ActiveIsNotClean(s: State, who: Batch)
    requires Good(ViewOf(s)) && Called(s, who)
    ensures !CleanOne(s, s.activeId, who)
  {
    PosIsIndex(s.jobs, s.activeId);
    var k := Index(s.jobs, s.activeId);
    assert ViewOf(s).rows[k] == Row(s.jobs[k].id, s.jobs[k].state);
  }

  // ------------------------------------------------------------ the condition, in full

  function FirstMember(jobs: seq<Job>, who: Batch): (i: nat)
    ensures i <= |jobs|
    ensures i < |jobs| ==> Member(jobs[i], who)
    ensures forall j | 0 <= j < i :: !Member(jobs[j], who)
  {
    if jobs == [] || Member(jobs[0], who) then 0 else 1 + FirstMember(jobs[1..], who)
  }

  /** The jobs once the first of the batch has retired. */
  function FirstGone(jobs: seq<Job>, who: Batch): seq<Job> {
    var i := FirstMember(jobs, who);
    if i == |jobs| then jobs else jobs[i := jobs[i].(state := Cancelled)]
  }

  /** The pump starts nothing, or its weighing comes to a question, once the first of the batch has retired. */
  predicate HeldBack(s: State, who: Batch) {
    Resting(s) || Question(FirstGone(s.jobs, who), Asks(s))
  }

  function Take(ids: seq<JobId>, n: nat): seq<JobId> {
    if n <= |ids| then ids[..n] else ids
  }

  /** Each retirement in turn makes one pending directory, and the one after those begins a job: whether
      that job, the first startable one left by then, is itself in the batch. */
  predicate NextUp(s: State, who: Batch) {
    var k := FirstLeft(s.jobs, Take(Members(s.jobs, who), |s.dirsToCreate| + 1));
    k < |s.jobs| && Member(s.jobs[k], who)
  }

  lemma {:induction false} FirstOfMembers(jobs: seq<Job>, who: Batch)
    ensures var i := FirstMember(jobs, who);
            if i == |jobs| then Members(jobs, who) == [] else Members(jobs, who) != [] && Members(jobs, who)[0] == jobs[i].id
    decreases |jobs|
  {
    if jobs != [] { FirstOfMembers(jobs[1..], who); }
  }

  lemma {:induction false} MembersAre(jobs: seq<Job>, who: Batch)
    ensures forall i | 0 <= i < |jobs| && Member(jobs[i], who) :: jobs[i].id in Members(jobs, who)
    ensures forall id | id in Members(jobs, who) :: exists i :: 0 <= i < |jobs| && jobs[i].id == id && Member(jobs[i], who)
    ensures var i := FirstMember(jobs, who);
            if i == |jobs| then Members(jobs, who) == [] else Members(jobs, who) != [] && Members(jobs, who)[0] == jobs[i].id
    decreases |jobs|
  {
    if jobs == [] { return; }
    FirstOfMembers(jobs, who);
    MembersAre(jobs[1..], who);
    forall i | 0 <= i < |jobs| && Member(jobs[i], who) ensures jobs[i].id in Members(jobs, who) {
      if i > 0 { assert jobs[1..][i - 1] == jobs[i]; }
    }
    forall id | id in Members(jobs, who) ensures exists i :: 0 <= i < |jobs| && jobs[i].id == id && Member(jobs[i], who) {
      if id in Members(jobs[1..], who) {
        var i :| 0 <= i < |jobs[1..]| && jobs[1..][i].id == id && Member(jobs[1..][i], who);
        assert jobs[i + 1] == jobs[1..][i];
      }
    }
  }

  lemma {:induction false} MembersAlike(a: seq<Job>, b: seq<Job>, who: Batch)
    requires |a| == |b| && forall j | 0 <= j < |a| :: b[j].id == a[j].id && (Member(b[j], who) <==> Member(a[j], who))
    ensures Members(a, who) == Members(b, who)
    decreases |a|
  {
    if a != [] { MembersAlike(a[1..], b[1..], who); }
  }

  lemma {:induction false} MembersWithout(a: seq<Job>, i: nat, b: seq<Job>, who: Batch)
    requires |a| == |b| && i == FirstMember(a, who) < |a| && !Member(b[i], who)
    requires forall j | 0 <= j < |a| && j != i :: b[j].id == a[j].id && (Member(b[j], who) <==> Member(a[j], who))
    ensures Members(a, who) == [a[i].id] + Members(b, who)
    decreases |a|
  {
    if i == 0 { MembersAlike(a[1..], b[1..], who); }
    else { MembersWithout(a[1..], i - 1, b[1..], who); }
  }

  lemma QuestionAlike(a: seq<Job>, b: seq<Job>, asks: bool)
    requires |a| == |b|
    requires forall j | 0 <= j < |a| :: (UnweighedJob(a[j]) <==> UnweighedJob(b[j])) &&
               (UnweighedJob(a[j]) ==> a[j].destination == b[j].destination && a[j].destPath == b[j].destPath)
    ensures Question(a, asks) <==> Question(b, asks)
  {
    forall i: nat ensures FirstOfVolume(a, i) <==> FirstOfVolume(b, i) {}
  }

  /** `t` has the jobs of `s` with the one at `i` retired, weighed or not. */
  predicate Without(s: seq<Job>, i: nat, t: seq<Job>)
    requires i < |s|
  {
    && |t| == |s| && t[i].id == s[i].id && t[i].state == Cancelled
    && forall j | 0 <= j < |s| && j != i :: t[j] == s[j].(spaceChecked := t[j].spaceChecked)
  }

  lemma GoneIsWithout(s: State, id: JobId, who: Batch)
    requires Index(s.jobs, id) < |s.jobs|
    ensures var i, t := Index(s.jobs, id), Gone(s, id, who);
            Without(s.jobs, i, t.jobs) && forall j | 0 <= j < |s.jobs| && j != i :: t.jobs[j] == s.jobs[j]
  {
    if who.Using? {
      CutIsInvisible(s, id, who.fs);
      var c := Cut(s, id, who.fs);
      assert forall j | 0 <= j < |s.jobs| && j != Index(s.jobs, id) :: c.jobs[j] == s.jobs[j];
      RetiredIsWithout(c, Index(s.jobs, id));
      return;
    }
    RetiredIsWithout(s, Index(s.jobs, id));
  }

  lemma RetiredIsWithout(s: State, i: nat)
    requires i < |s.jobs|
    ensures var t := Retired(s, i, Cancelled);
            && |t.jobs| == |s.jobs| && t.jobs[i].id == s.jobs[i].id && t.jobs[i].state == Cancelled
            && forall j | 0 <= j < |s.jobs| && j != i :: t.jobs[j] == s.jobs[j]
  {}

  predicate DistinctIds(jobs: seq<Job>) {
    forall i, j | 0 <= i < j < |jobs| :: jobs[i].id != jobs[j].id
  }

  lemma GoodIsDistinct(s: State)
    requires Good(ViewOf(s))
    ensures DistinctIds(s.jobs) && Positive(s)
  {
    GoodIsPositive(s);
    forall i, j | 0 <= i < j < |s.jobs| ensures s.jobs[i].id != s.jobs[j].id {
      assert ViewOf(s).rows[i].id == s.jobs[i].id && ViewOf(s).rows[j].id == s.jobs[j].id;
    }
  }

  /** What is left after the first retirement, as seen from before it. */
  lemma NextUpWithout(jobs: seq<Job>, i: nat, after: seq<Job>, n: nat, who: Batch)
    requires DistinctIds(jobs) && i == FirstMember(jobs, who) < |jobs| && Without(jobs, i, after)
    ensures Members(jobs, who) == [jobs[i].id] + Members(after, who)
    ensures FirstLeft(jobs, Take(Members(jobs, who), n + 1)) == FirstLeft(after, Take(Members(after, who), n))
    ensures var k := FirstLeft(after, Take(Members(after, who), n));
            k < |jobs| ==> k != i && (Member(after[k], who) <==> Member(jobs[k], who)) && after[k].id == jobs[k].id
  {
    MembersWithout(jobs, i, after, who);
    var ms, rest := Members(jobs, who), Members(after, who);
    TakeOneMore(jobs[i].id, rest, n);
    LeftWithout(jobs, i, after, rest, n);
  }

  lemma TakeOneMore(id: JobId, rest: seq<JobId>, n: nat)
    ensures Take([id] + rest, n + 1) == [id] + Take(rest, n)
  {}

  lemma LeftWithout(jobs: seq<Job>, i: nat, after: seq<Job>, rest: seq<JobId>, n: nat)
    requires DistinctIds(jobs) && i < |jobs| && Without(jobs, i, after) && Take([jobs[i].id] + rest, n + 1) == [jobs[i].id] + Take(rest, n)
    ensures FirstLeft(jobs, Take([jobs[i].id] + rest, n + 1)) == FirstLeft(after, Take(rest, n))
  {
    var ms := [jobs[i].id] + rest;
    forall j | 0 <= j < |jobs|
      ensures (Startable(jobs[j]) && jobs[j].id !in Take(ms, n + 1)) <==> (Startable(after[j]) && after[j].id !in Take(rest, n))
    {
      if j != i { assert jobs[j].id != jobs[i].id; }
    }
    LeftAlike(jobs, Take(ms, n + 1), after, Take(rest, n));
  }

  // --------------------------------------------- retiring the batch, one after the other

  /** Nothing is called, the pump is free to start something, and the slot is empty or waits for the user
      to say what becomes of the first job of the batch. */
  ghost predicate Freely(s: State, ids: seq<JobId>, who: Batch) {
    && Good(ViewOf(s)) && NoCall(s.out) && !Resting(s) && ids == Members(s.jobs, who)
    && (s.activeId == NO_JOB || (ids != [] && s.activeId == ids[0]))
  }

  lemma FirstIsFirst(s: State, ids: seq<JobId>, who: Batch)
    requires Freely(s, ids, who) && ids != []
    ensures var i := FirstMember(s.jobs, who); i < |s.jobs| && ids[0] == s.jobs[i].id && i == Index(s.jobs, ids[0])
    ensures !LeftAlone(s, ids[0], who) && CleanOne(s, ids[0], who)
  {
    var i := FirstMember(s.jobs, who);
    MembersAre(s.jobs, who);
    GoodIsDistinct(s);
    assert Index(s.jobs, ids[0]) == i;
    FirstIsNoTransfer(s, i);
  }

  lemma FirstIsNoTransfer(s: State, i: nat)
    requires Good(ViewOf(s)) && NoCall(s.out) && i < |s.jobs|
    ensures !TransportOwns(s, i)
  {
    assert ViewOf(s).rows[i] == Row(s.jobs[i].id, s.jobs[i].state);
  }

  /** The first of the batch retires for real, and the pump runs with the slot empty. */
  lemma FirstRetires(s: State, ids: seq<JobId>, who: Batch)
    requires Freely(s, ids, who) && ids != []
    ensures var u := Gone(s, ids[0], who);
            && RetireOne(s, ids[0], who) == Pump(u) && CleanOne(s, ids[0], who) && Good(ViewOf(Pump(u)))
            && u.activeId == NO_JOB && Quietly(s, u) && Positive(u)
    ensures var i := FirstMember(s.jobs, who);
            i < |s.jobs| && Without(s.jobs, i, Gone(s, ids[0], who).jobs)
  {
    FirstIsFirst(s, ids, who);
    GoodIsDistinct(s);
    RetiringPumps(s, ids[0], who);
    OneIsGood(s, ids[0], who);
    GoneIsWithout(s, ids[0], who);
    GoneQuietly(s, ids[0], who);
  }

  lemma FirstsQuestion(s: State, ids: seq<JobId>, who: Batch)
    requires Freely(s, ids, who) && ids != []
    ensures Question(Gone(s, ids[0], who).jobs, Asks(s)) <==> Question(FirstGone(s.jobs, who), Asks(s))
  {
    FirstIsFirst(s, ids, who);
    GoneIsWithout(s, ids[0], who);
    QuestionAlike(Gone(s, ids[0], who).jobs, FirstGone(s.jobs, who), Asks(s));
  }

  /** Nothing queued is left, and nothing of the batch is next. */
  lemma NoneLeft(s: State, ids: seq<JobId>, who: Batch)
    requires Freely(s, ids, who) && ids != [] && FirstQueued(Gone(s, ids[0], who).jobs) == |s.jobs|
    ensures CleanAll(s, ids, who) && !NextUp(s, who)
  {
    var i, u := FirstMember(s.jobs, who), Gone(s, ids[0], who);
    FirstRetires(s, ids, who);
    PumpNothingQueued(u);
    NothingQueuedIsClean(Pump(u), ids[1..], who);
    GoodIsDistinct(s);
    NextUpWithout(s.jobs, i, u.jobs, |s.dirsToCreate|, who);
  }

  /** The weighing comes to a question. */
  lemma QuestionHolds(s: State, ids: seq<JobId>, who: Batch)
    requires Freely(s, ids, who) && ids != [] && FirstQueued(Gone(s, ids[0], who).jobs) < |s.jobs|
    requires Question(FirstGone(s.jobs, who), Asks(s))
    ensures CleanAll(s, ids, who)
  {
    var u := Gone(s, ids[0], who);
    FirstRetires(s, ids, who);
    FirstsQuestion(s, ids, who);
    var t := PumpWeighs(u);
    RestingIsClean(Pump(u), ids[1..], who);
  }

  /** A job is begun: what is left of the batch is clean exactly when that job is not in it. */
  lemma BegunExactly(w: State, who: Batch)
    requires Idle(w) && NoCall(w.out) && Good(ViewOf(Pump(w))) && DistinctIds(w.jobs)
    ensures var k := FirstLeft(w.jobs, []);
            CleanAll(Pump(w), Members(w.jobs, who), who) <==> !(k < |w.jobs| && Member(w.jobs[k], who))
  {
    var t, k := Pump(w), FirstLeft(w.jobs, []);
    PumpBegins(w);
    if k == |w.jobs| {
      NothingQueuedIsClean(t, Members(w.jobs, who), who);
      return;
    }
    if Member(w.jobs[k], who) {
      MembersAre(w.jobs, who);
      LookIsCalled(t, who);
      CalledIsNotClean(t, Members(w.jobs, who), who);
    } else {
      OnlyMembers(w.jobs, k, who);
      OutsiderIsClean(t, Members(w.jobs, who), who);
    }
  }

  /** With no directory pending, the job begun next is the one `NextUp` asks about. */
  lemma NextUpAtOnce(s: State, ids: seq<JobId>, who: Batch, jobs: seq<Job>)
    requires Freely(s, ids, who) && ids != [] && s.dirsToCreate == [] && FirstMember(s.jobs, who) < |s.jobs|
    requires Without(s.jobs, FirstMember(s.jobs, who), jobs)
    ensures var k := FirstLeft(jobs, []); NextUp(s, who) <==> k < |jobs| && Member(jobs[k], who)
    ensures Members(jobs, who) == ids[1..] && DistinctIds(jobs)
  {
    GoodIsDistinct(s);
    NextUpWithout(s.jobs, FirstMember(s.jobs, who), jobs, 0, who);
    assert Take(Members(jobs, who), 0) == [];
    assert forall j | 0 <= j < |s.jobs| :: jobs[j].id == s.jobs[j].id;
  }

  lemma BeginsOne(s: State, ids: seq<JobId>, who: Batch, w: State)
    requires Freely(s, ids, who) && ids != [] && s.dirsToCreate == [] && FirstMember(s.jobs, who) < |s.jobs|
    requires Idle(w) && w.out == s.out && Pump(w) == RetireOne(s, ids[0], who) && Without(s.jobs, FirstMember(s.jobs, who), w.jobs)
    requires Good(ViewOf(Pump(w))) && CleanOne(s, ids[0], who)
    ensures CleanAll(s, ids, who) <==> !NextUp(s, who)
  {
    NextUpAtOnce(s, ids, who, w.jobs);
    BegunExactly(w, who);
  }

  lemma OnlyMembers(jobs: seq<Job>, k: nat, who: Batch)
    requires DistinctIds(jobs) && k < |jobs| && !Member(jobs[k], who)
    ensures jobs[k].id !in Members(jobs, who)
  {
    MembersAre(jobs, who);
  }

  lemma LookIsCalled(t: State, who: Batch)
    requires Good(ViewOf(t)) && t.activeId != NO_JOB && Stat(t.activeId) in t.out
    ensures Called(t, who)
  {
    assert ClassOf(Stat(t.activeId)) == Calling;
    assert CallFor(t.out, t.activeId);
  }

  /** The batch is clean exactly when the weighing comes to a question, or the job begun is not in it. */
  lemma {:induction false} FreelyExactly(s: State, ids: seq<JobId>, who: Batch)
    requires Freely(s, ids, who)
    ensures CleanAll(s, ids, who) <==> HeldBack(s, who) || !NextUp(s, who)
    decreases |ids|
  {
    MembersAre(s.jobs, who);
    if ids == [] { return; }
    FirstRetires(s, ids, who);
    var u := Gone(s, ids[0], who);
    if FirstQueued(u.jobs) == |u.jobs| { NoneLeft(s, ids, who); return; }
    if HeldBack(s, who) { QuestionHolds(s, ids, who); return; }
    FirstsQuestion(s, ids, who);
    var w := PumpWeighs(u);
    WeighedWithout(s, who, u, w);
    if s.dirsToCreate == [] {
      BeginsOne(s, ids, who, w);
    } else {
      MakesOne(s, ids, who, w);
      FreelyExactly(Pump(w), ids[1..], who);
    }
  }

  lemma WeighedWithout(s: State, who: Batch, u: State, w: State)
    requires FirstMember(s.jobs, who) < |s.jobs| && Without(s.jobs, FirstMember(s.jobs, who), u.jobs) && SameBut(u, w) && Positive(u)
    ensures Without(s.jobs, FirstMember(s.jobs, who), w.jobs) && Positive(w) && FirstQueued(w.jobs) == FirstQueued(u.jobs)
  {
    SameQueued(u.jobs, w.jobs);
  }

  /** A pending directory is made instead, and the rest of the batch is as freely retired. */
  lemma MakesOne(s: State, ids: seq<JobId>, who: Batch, w: State)
    requires Freely(s, ids, who) && ids != [] && s.dirsToCreate != [] && FirstMember(s.jobs, who) < |s.jobs|
    requires Without(s.jobs, FirstMember(s.jobs, who), w.jobs) && FirstQueued(w.jobs) < |w.jobs| && w.out == s.out
    requires !Resting(w) && w.preflight == Cleared && !Unweighed(w.jobs) && w.activeId == NO_JOB
    requires w.dirsToCreate == s.dirsToCreate && Good(ViewOf(Pump(w)))
    ensures Freely(Pump(w), ids[1..], who) && (HeldBack(Pump(w), who) || !NextUp(Pump(w), who) <==> !NextUp(s, who))
  {
    MadeIsLater(s, who, w);
    PumpMakes(w);
    NoneUnweighedNoQuestion(FirstGone(w.jobs, who), Asks(w));
  }

  lemma PumpMakes(w: State)
    requires !Resting(w) && w.preflight == Cleared && !Unweighed(w.jobs) && w.activeId == NO_JOB
    requires w.dirsToCreate != [] && NoCall(w.out)
    ensures Pump(w) == CreateNextDirectory(w) && NoCall(Pump(w).out)
  {
    assert ClassOf(MakeDir(w.dirsToCreate[0])) == Making;
  }

  lemma MadeIsLater(s: State, who: Batch, w: State)
    requires Good(ViewOf(s)) && s.dirsToCreate != [] && FirstMember(s.jobs, who) < |s.jobs|
    requires Without(s.jobs, FirstMember(s.jobs, who), w.jobs) && w.dirsToCreate == s.dirsToCreate
    ensures var t := w.(dirsToCreate := w.dirsToCreate[1..]); NextUp(t, who) <==> NextUp(s, who)
    ensures Members(s.jobs, who) != [] && Members(w.jobs, who) == Members(s.jobs, who)[1..]
  {
    GoodIsDistinct(s);
    NextUpWithout(s.jobs, FirstMember(s.jobs, who), w.jobs, |s.dirsToCreate|, who);
  }

  // ------------------------------------------------------------------ the exact condition

  /** A batch may be retired when the slot is held by a job outside it; or by a transfer the transport will be
      asked to stop; or when no call is outstanding and either the pump is held back or whatever job it
      begins next is not in the batch. All of it can be read off the queue before anything is retired. */
  ghost predicate Calm(s: State, who: Batch) {
    || (s.activeId != NO_JOB && s.activeId !in Members(s.jobs, who))
    || (!who.Using? && Owned(s))
    || (NoCall(s.out) && (HeldBack(s, who) || !NextUp(s, who)))
  }

  /** The slot's job, if it is in the batch, is the first of it. */
  lemma ActiveIsFirst(s: State, who: Batch)
    requires Good(ViewOf(s)) && s.activeId != NO_JOB && s.activeId in Members(s.jobs, who)
    ensures Members(s.jobs, who)[0] == s.activeId
  {
    var i := Pos(ViewOf(s).rows, s.activeId);
    assert forall j | 0 <= j < |s.jobs| :: ViewOf(s).rows[j] == Row(s.jobs[j].id, s.jobs[j].state);
    MembersAre(s.jobs, who);
    GoodIsDistinct(s);
    assert Member(s.jobs[i], who);
    assert forall j | 0 <= j < i :: s.jobs[j].state.Terminal();
    assert FirstMember(s.jobs, who) == i;
  }

  lemma BatchExactly(s: State, who: Batch)
    requires Good(ViewOf(s))
    ensures CleanAll(s, Members(s.jobs, who), who) <==> Calm(s, who)
  {
    var ms := Members(s.jobs, who);
    if s.activeId != NO_JOB && s.activeId !in ms { OutsiderIsClean(s, ms, who); return; }
    if !who.Using? && Owned(s) {
      OwnedBatchIsClean(s, ms);
      CleanAsListed(s, ms, who);
      return;
    }
    if !NoCall(s.out) {
      assert CallFor(s.out, s.activeId);
      CalledIsNotClean(s, ms, who);
      return;
    }
    if Resting(s) { RestingIsClean(s, ms, who); return; }
    if s.activeId != NO_JOB { ActiveIsFirst(s, who); }
    FreelyExactly(s, ms, who);
  }

  /** What a caller may do, in terms of the queue as it is. */
  ghost predicate Allowed(s: State, e: Event)
    requires Possible(s, e)
  {
    match e
    case CancelEvent(id) => CleanCancel(s, id)
    case CancelAllEvent => Calm(DropPending(s), Everything)
    case CancelBatchEvent(volume) => Calm(DropPendingFor(s, volume), Bound(volume))
    case CloseEvent(fs) => Calm(s, Using(fs))
    case Answer(q, r) => q.SpacePrompt? && !r.proceed ==> Calm(DropPendingFor(Answered(s, q), q.volume), Bound(q.volume))
    case _ => true
  }

  lemma DisciplinedIsAllowed(s: State, e: Event)
    requires Good(ViewOf(s)) && Possible(s, e)
    ensures Disciplined(s, e) <==> Allowed(s, e)
  {
    match e
    case CancelAllEvent => ListedExactly(s, DropPending(s), Everything); return;
    case CancelBatchEvent(volume) => ListedExactly(s, DropPendingFor(s, volume), Bound(volume)); return;
    case CloseEvent(fs) => ListedExactly(s, s, Using(fs)); return;
    case Answer(q, r) =>
      if q.SpacePrompt? {
        OtherAnswered(ViewOf(s), q);
        ListedExactly(Answered(s, q), DropPendingFor(Answered(s, q), q.volume), Bound(q.volume));
      }
      return;
    case _ => return;
  }

  lemma ListedExactly(s: State, d: State, who: Batch)
    requires Good(ViewOf(s)) && ViewOf(d) == ViewOf(s) && d.jobs == s.jobs
    ensures Calm(d, who) <==> if who.Using? then CleanDrops(d, Members(s.jobs, who), who.fs) else CleanCancels(d, Members(s.jobs, who))
    ensures Members(s.jobs, who) == match who
              case Everything => Unfinished(s.jobs, None)
              case Bound(volume) => Unfinished(s.jobs, Some(volume))
              case Using(fs) => Unfinishing(s.jobs, fs)
  {
    MembersAsListed(s.jobs);
    BatchExactly(d, who);
    CleanAsListed(d, Members(s.jobs, who), who);
  }

  /** The main result: from a good state an event is allowed exactly when nothing that may follow it quietly
      breaks the property, one job at a time under way, the one the active id names, and retired jobs
      left alone. */
  lemma AllowedExactly(s: State, e: Event)
    requires Good(ViewOf(s)) && Sound(s) && Possible(s, e)
    ensures Allowed(s, e) <==> RetiredStay(s, Handle(s, e)) && !CanBreak(Handle(s, e))
    ensures Allowed(s, e) <==> Good(ViewOf(Handle(s, e)))
  {
    DisciplinedIsAllowed(s, e);
    DisciplinedExactly(s, e);
    EventExactly(s, e);
  }

  /** What every entry point of the queue promises of an event: the walk and the check stay watched and nothing is
      written before it is weighed; one job at a time exactly when the event was allowed, and otherwise
      something that may follow breaks it; no stall; and an answer that brings nothing new brings the
      end nearer. */
  ghost predicate Promised(s: State, e: Event, t: State)
    requires Possible(s, e)
  {
    && (Sound(s) ==> Sound(t))
    && (Good(ViewOf(s)) ==> (Good(ViewOf(t)) <==> Allowed(s, e)))
    && (Good(ViewOf(s)) && Sound(s) ==> (Allowed(s, e) <==> RetiredStay(s, t) && !CanBreak(t)))
    && (Good(ViewOf(s)) && Sound(s) && Live(s) ==> Live(t))
    && (Barren(e) ==> Measure(t) < Measure(s))
  }

  lemma EventKeepsPromise(s: State, e: Event)
    requires Possible(s, e)
    ensures Promised(s, e, Handle(s, e))
  {
    if Sound(s) { EventKeepsSound(s, e); }
    if Good(ViewOf(s)) {
      DisciplinedIsAllowed(s, e);
      EventExactly(s, e);
      if Sound(s) {
        AllowedExactly(s, e);
        if Live(s) { EventKeepsLive(s, e); }
      }
    }
    if Barren(e) { AnswerMeasures(s, e.request, e.reply); }
  }

  // ------------------------------------------------------------ what it comes to, case by case

  /** Cancelling everything is allowed exactly when the transport owns the active transfer, or no call is
      outstanding and the pump is held back or nothing but the first unfinished job could be started. */
  lemma CancelAllAllowedIff(s: State)
    requires Good(ViewOf(s))
    ensures Allowed(s, CancelAllEvent) <==>
              || Owned(s)
              || (NoCall(s.out) && (HeldBack(s, Everything) ||
                                    forall k | 0 <= k < |s.jobs| && Startable(s.jobs[k]) :: k == FirstMember(s.jobs, Everything)))
  {
    ActiveIsMember(s);
    GoodIsDistinct(s);
    NextUpOfAll(DropPending(s));
    assert Owned(DropPending(s)) <==> Owned(s);
    assert HeldBack(DropPending(s), Everything) <==> HeldBack(s, Everything);
  }

  /** Of all jobs the first unfinished one is spent at once, and every startable job is unfinished. */
  lemma NextUpOfAll(d: State)
    requires DistinctIds(d.jobs) && d.dirsToCreate == []
    ensures !NextUp(d, Everything) <==> forall k | 0 <= k < |d.jobs| && Startable(d.jobs[k]) :: k == FirstMember(d.jobs, Everything)
  {
    var spent := Take(Members(d.jobs, Everything), 1);
    SpentIsFirst(d.jobs);
    var k := FirstLeft(d.jobs, spent);
    assert NextUp(d, Everything) <==> k < |d.jobs|;
  }

  lemma SpentIsFirst(jobs: seq<Job>)
    requires DistinctIds(jobs)
    ensures var spent := Take(Members(jobs, Everything), 1);
            forall k | 0 <= k < |jobs| && Startable(jobs[k]) :: jobs[k].id in spent <==> k == FirstMember(jobs, Everything)
  {
    MembersAre(jobs, Everything);
    var ms, i := Members(jobs, Everything), FirstMember(jobs, Everything);
    if ms != [] { assert Take(ms, 1) == [jobs[i].id]; }
    forall k | 0 <= k < |jobs| && Startable(jobs[k]) ensures jobs[k].id in Take(ms, 1) <==> k == i {
      assert Member(jobs[k], Everything);
    }
  }

  lemma ActiveIsMember(s: State)
    requires Good(ViewOf(s))
    ensures s.activeId != NO_JOB ==> s.activeId in Members(s.jobs, Everything)
  {
    if s.activeId != NO_JOB {
      var i := Pos(ViewOf(s).rows, s.activeId);
      assert ViewOf(s).rows[i] == Row(s.jobs[i].id, s.jobs[i].state);
      MembersAre(s.jobs, Everything);
    }
  }

  /** Declining at the space prompt is allowed exactly when no call is outstanding for a job of that volume,
      a transfer the transport owns aside: the check still holds the pump back. */
  lemma DeclineAllowedIff(s: State, volume: Option<nat>, r: Reply)
    requires Good(ViewOf(s)) && Sound(s) && SpacePrompt(volume) in s.out && !r.proceed
    ensures Allowed(s, Answer(SpacePrompt(volume), r)) <==>
              NoCall(s.out) || Owned(s) || s.activeId !in Members(s.jobs, Bound(volume))
  {
    var t := Answered(s, SpacePrompt(volume));
    assert ClassOf(SpacePrompt(volume)) == Space;
    assert s.preflight == CheckingSpace;
    assert SpacePrompt(volume) in s.out;
    forall q | ClassOf(q) == Calling ensures q in t.out <==> q in s.out {}
  }
}
