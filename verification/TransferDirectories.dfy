/** When the transfer queue makes a directory while a file system closes. The jobs that use the file system are
    retired one by one and the queue is pumped after each, and nobody has taken out the directories that lie on
    it (src/fs/TransferQueue.cpp:1109-1123, 405-455). */
module TransferDirectories {
  import opened TransferQueue
  import opened TransferSlot
  import opened TransferDiscipline
  import opened TransferRuns
  import opened TransferDrain
  import opened TransferBatches
  import opened TransferDrive
  import opened TransferClosing

  /** A queued job that does not use the file system. */
  predicate OthersQueued(jobs: seq<Job>, who: Batch) {
    exists i :: 0 <= i < |jobs| && jobs[i].state == Queued && !Member(jobs[i], who)
  }

  /** A directory is waiting, the pump is neither paused nor waiting for a walk, some job is retired and the slot
      is empty by then; and the check does not stand in the way, or nothing queued is left to be weighed. */
  predicate ClosingMakes(s: State, fs: nat) {
    var who := Using(fs);
    && s.dirsToCreate != [] && !s.enumerating && !s.paused && Members(s.jobs, who) != []
    && (s.activeId == NO_JOB || s.activeId in Members(s.jobs, who))
    && (!HeldBack(s, who) || !OthersQueued(s.jobs, who))
  }

  // ------------------------------------------------------------------ one pump at a time

  /** What the pump does to the directories, the slot and the jobs' rows. */
  ghost predicate PumpsTo(s: State, t: State) {
    && t.enumerating == s.enumerating && t.paused == s.paused
    && (t.dirsToCreate == s.dirsToCreate || (s.dirsToCreate != [] && t.dirsToCreate == s.dirsToCreate[1..]))
    && (s.enumerating || s.paused || s.activeId != NO_JOB ==> t.dirsToCreate == s.dirsToCreate)
    && (s.dirsToCreate != [] || s.activeId != NO_JOB ==> t.activeId == s.activeId)
    && (t.preflight == CheckingSpace ==> Rows(t.jobs) == Rows(s.jobs) && (FirstQueued(s.jobs) < |s.jobs| ==> t.dirsToCreate == s.dirsToCreate))
    && |t.jobs| == |s.jobs| && forall j | 0 <= j < |s.jobs| ::
         t.jobs[j].id == s.jobs[j].id && (t.jobs[j].state == Queued ==> s.jobs[j].state == Queued)
  }

  lemma {:induction false} PumpGoes(s: State)
    ensures PumpsTo(s, Pump(s))
    decreases QueuedCount(s.jobs), UnweighedCount(s.jobs), if s.preflight == Cleared then 0 else 1
  {
    if !s.enumerating {
      var i := FirstQueued(s.jobs);
      if i == |s.jobs| {
        NoneQueuedNoneUnweighed(s.jobs);
      } else if s.preflight != Cleared || Unweighed(s.jobs) {
        if s.preflight != CheckingSpace {
          BeginPreflightDecreases(s);
          PreflightGoes(s);
          var next := BeginPreflight(s).0.(preflight := Cleared);
          if BeginPreflight(s).1 {
            PumpGoes(next);
            ChecksThenGoes(s, next, Pump(next));
          }
        }
      } else if !s.paused && s.activeId == NO_JOB && s.dirsToCreate == [] {
        PumpBeginGoes(s, i);
      }
    }
  }

  predicate OnlyWeighs(s: State, t: State) {
    && t.enumerating == s.enumerating && t.paused == s.paused && t.dirsToCreate == s.dirsToCreate && t.activeId == s.activeId
    && Rows(t.jobs) == Rows(s.jobs) && |t.jobs| == |s.jobs|
    && forall j | 0 <= j < |s.jobs| :: t.jobs[j].id == s.jobs[j].id && t.jobs[j].state == s.jobs[j].state
  }

  lemma PreflightGoes(s: State)
    ensures OnlyWeighs(s, BeginPreflight(s).0)
  {
    PreflightMovesNothing(s);
    RowsAre(s, BeginPreflight(s).0);
    PreflightLeavesRest(s);
  }

  lemma RowsAre(s: State, t: State)
    requires Rows(t.jobs) == Rows(s.jobs)
    ensures |t.jobs| == |s.jobs| && forall j | 0 <= j < |s.jobs| :: t.jobs[j].id == s.jobs[j].id && t.jobs[j].state == s.jobs[j].state
  {
    assert |Rows(t.jobs)| == |t.jobs| && |Rows(s.jobs)| == |s.jobs|;
    forall j | 0 <= j < |s.jobs| ensures t.jobs[j].id == s.jobs[j].id && t.jobs[j].state == s.jobs[j].state {
      assert Rows(t.jobs)[j] == Row(t.jobs[j].id, t.jobs[j].state) && Rows(s.jobs)[j] == Row(s.jobs[j].id, s.jobs[j].state);
    }
  }

  lemma ChecksThenGoes(s: State, next: State, t: State)
    requires OnlyWeighs(s, next) && PumpsTo(next, t)
    ensures PumpsTo(s, t)
  {
    var i := FirstQueued(s.jobs);
    if i < |s.jobs| { assert next.jobs[i].state == Queued; }
  }

  /** A queued job is no longer queued, and no directory waits. */
  predicate Advances(s: State, t: State) {
    && t.enumerating == s.enumerating && t.paused == s.paused && t.dirsToCreate == [] && t.preflight == Cleared
    && |t.jobs| == |s.jobs| && forall j | 0 <= j < |s.jobs| ::
         t.jobs[j].id == s.jobs[j].id && (t.jobs[j].state == Queued ==> s.jobs[j].state == Queued)
  }

  lemma RefusedAdvances(s: State, i: nat)
    requires i < |s.jobs| && s.dirsToCreate == [] && s.preflight == Cleared && s.activeId == NO_JOB && s.jobs[i].state == Queued
    requires !Unweighed(s.jobs)
    ensures var t := Refused(s, i);
            Advances(s, t) && t.activeId == NO_JOB && !Unweighed(t.jobs) && QueuedCount(t.jobs) < QueuedCount(s.jobs)
  {
    var t := Refused(s, i);
    CountsUpdate(s.jobs, i, s.jobs[i].(state := Failed));
    UnweighedIsCounted(s.jobs);
    UnweighedIsCounted(t.jobs);
  }

  lemma {:induction false} BeginAdvances(s: State, i: nat)
    requires !s.enumerating && s.preflight == Cleared && !Unweighed(s.jobs)
    requires i == FirstQueued(s.jobs) < |s.jobs| && !s.paused && s.activeId == NO_JOB && s.dirsToCreate == []
    ensures Advances(s, Pump(s))
    decreases QueuedCount(s.jobs)
  {
    var job := s.jobs[i];
    if job.source.fs.None? || job.destination.fs.None? {
      var t := Refused(s, i);
      RefusedAdvances(s, i);
      if FirstQueued(t.jobs) < |t.jobs| { BeginAdvances(t, FirstQueued(t.jobs)); }
    }
  }

  lemma PumpBeginGoes(s: State, i: nat)
    requires !s.enumerating && s.preflight == Cleared && !Unweighed(s.jobs)
    requires i == FirstQueued(s.jobs) < |s.jobs| && !s.paused && s.activeId == NO_JOB && s.dirsToCreate == []
    ensures PumpsTo(s, Pump(s))
  {
    BeginAdvances(s, i);
  }


  lemma PumpMakesDirectory(s: State)
    requires !Resting(s) && s.activeId == NO_JOB && s.dirsToCreate != [] && !Question(s.jobs, Asks(s))
    ensures MakeDir(s.dirsToCreate[0]) in Pump(s).out && Pump(s).dirsToCreate == s.dirsToCreate[1..]
  {
    if FirstQueued(s.jobs) == |s.jobs| {
      NoneQueuedNoneUnweighed(s.jobs);
    } else {
      var t := PumpWeighs(s);
      SameQueued(s.jobs, t.jobs);
      assert Pump(t) == CreateNextDirectory(t);
    }
  }

  lemma PumpMakesForNone(s: State)
    requires !s.enumerating && !s.paused && s.activeId == NO_JOB && s.dirsToCreate != [] && FirstQueued(s.jobs) == |s.jobs|
    ensures MakeDir(s.dirsToCreate[0]) in Pump(s).out && Pump(s).dirsToCreate == s.dirsToCreate[1..]
  {
    NoneQueuedNoneUnweighed(s.jobs);
  }

  lemma DropGoes(s: State, id: JobId, fs: nat)
    ensures var u := Gone(s, id, Using(fs));
            DropJob(s, id, fs) == Pump(u) && Quietly(s, u) && PumpsTo(u, Pump(u))
  {
    RetiringPumps(s, id, Using(fs));
    GoneQuietly(s, id, Using(fs));
    PumpGoes(Gone(s, id, Using(fs)));
  }

  /** Directories only ever leave from the front. */
  lemma {:induction false} ClosingOnlyMakes(s: State, ids: seq<JobId>, fs: nat)
    ensures |DropJobs(s, ids, fs).dirsToCreate| <= |s.dirsToCreate|
    decreases |ids|
  {
    if ids != [] {
      DropGoes(s, ids[0], fs);
      ClosingOnlyMakes(DropJob(s, ids[0], fs), ids[1..], fs);
    }
  }

  // ------------------------------------------------------------------------ none is made

  predicate Idles(s: State, ids: seq<JobId>) {
    s.enumerating || s.paused || (s.activeId != NO_JOB && s.activeId !in ids)
  }

  lemma {:induction false} IdleMakesNone(s: State, ids: seq<JobId>, fs: nat)
    requires Idles(s, ids)
    ensures DropJobs(s, ids, fs).dirsToCreate == s.dirsToCreate
    decreases |ids|
  {
    if ids != [] {
      DropGoes(s, ids[0], fs);
      GoneQuietly(s, ids[0], Using(fs));
      assert ids[0] in ids;
      IdleMakesNone(DropJob(s, ids[0], fs), ids[1..], fs);
    }
  }

  /** The job stays queued whichever others are retired. */
  predicate StaysQueued(s: State, ids: seq<JobId>, k: nat) {
    k < |s.jobs| && s.jobs[k].state == Queued && s.jobs[k].id !in ids
  }

  lemma GoneStaysQueued(s: State, ids: seq<JobId>, fs: nat, k: nat)
    requires StaysQueued(s, ids, k) && ids != []
    ensures StaysQueued(Gone(s, ids[0], Using(fs)), ids[1..], k)
  {
    assert ids[0] in ids;
    GoneQuietly(s, ids[0], Using(fs));
    if Index(s.jobs, ids[0]) < |s.jobs| { GoneIsWithout(s, ids[0], Using(fs)); }
  }

  lemma {:induction false} CheckedMakesNone(s: State, ids: seq<JobId>, fs: nat, k: nat)
    requires s.preflight == CheckingSpace && StaysQueued(s, ids, k)
    ensures DropJobs(s, ids, fs).dirsToCreate == s.dirsToCreate
    decreases |ids|
  {
    if ids != [] {
      var u := Gone(s, ids[0], Using(fs));
      DropGoes(s, ids[0], fs);
      GoneStaysQueued(s, ids, fs, k);
      assert FirstQueued(u.jobs) < |u.jobs|;
      CheckedMakesNone(Pump(u), ids[1..], fs, k);
    }
  }

  /** The weighing comes to a question after the first retirement, and stays there. */
  lemma QuestionMakesNone(s: State, ids: seq<JobId>, fs: nat, k: nat)
    requires ids != [] && StaysQueued(s, ids, k) && !Resting(s)
    requires Question(Gone(s, ids[0], Using(fs)).jobs, Asks(s))
    ensures DropJobs(s, ids, fs).dirsToCreate == s.dirsToCreate
  {
    var u := Gone(s, ids[0], Using(fs));
    DropGoes(s, ids[0], fs);
    GoneStaysQueued(s, ids, fs, k);
    assert FirstQueued(u.jobs) < |u.jobs|;
    var t := PumpWeighs(u);
    RowsAre(u, Pump(u));
    CheckedMakesNone(Pump(u), ids[1..], fs, k);
  }

  // ------------------------------------------------------------------------- one is made

  /** Whatever is queued is about to be retired. */
  predicate AllRetiring(s: State, ids: seq<JobId>) {
    DistinctIds(s.jobs) && forall j | 0 <= j < |s.jobs| && s.jobs[j].state == Queued :: s.jobs[j].id in ids
  }

  lemma GoneAllRetiring(s: State, ids: seq<JobId>, fs: nat)
    requires AllRetiring(s, ids) && ids != []
    ensures AllRetiring(Gone(s, ids[0], Using(fs)), ids[1..])
  {
    var u := Gone(s, ids[0], Using(fs));
    GoneQuietly(s, ids[0], Using(fs));
    if Index(s.jobs, ids[0]) < |s.jobs| { GoneIsWithout(s, ids[0], Using(fs)); }
    forall j | 0 <= j < |u.jobs| && u.jobs[j].state == Queued ensures u.jobs[j].id in ids[1..] {
      assert s.jobs[j].id in ids && s.jobs[j].id != ids[0];
    }
  }

  lemma PumpAllRetiring(s: State, ids: seq<JobId>)
    requires AllRetiring(s, ids) && PumpsTo(s, Pump(s))
    ensures AllRetiring(Pump(s), ids)
  {}

  /** By the last retirement nothing is queued any more, and then at the latest a directory is made. */
  lemma {:induction false} LastMakesOne(s: State, ids: seq<JobId>, fs: nat)
    requires AllRetiring(s, ids) && ids != [] && (s.activeId == NO_JOB || s.activeId == ids[0])
    requires !s.enumerating && !s.paused && s.dirsToCreate != []
    ensures DropJobs(s, ids, fs).dirsToCreate != s.dirsToCreate && MakeDir(s.dirsToCreate[0]) in DropJobs(s, ids, fs).out
    decreases |ids|
  {
    var u := Gone(s, ids[0], Using(fs));
    DropGoes(s, ids[0], fs);
    GoneQuietly(s, ids[0], Using(fs));
    GoneAllRetiring(s, ids, fs);
    PumpAllRetiring(u, ids[1..]);
    if Pump(u).dirsToCreate == u.dirsToCreate && ids[1..] != [] {
      LastMakesOne(Pump(u), ids[1..], fs);
    } else {
      PumpMakesFirst(u, ids[1..]);
      MadeStays(s, ids, fs);
    }
  }

  lemma PumpMakesFirst(u: State, ids: seq<JobId>)
    requires AllRetiring(u, ids) && !u.enumerating && !u.paused && u.activeId == NO_JOB && u.dirsToCreate != []
    requires Pump(u).dirsToCreate != u.dirsToCreate || ids == []
    ensures Pump(u).dirsToCreate == u.dirsToCreate[1..] && MakeDir(u.dirsToCreate[0]) in Pump(u).out
  {
    if FirstQueued(u.jobs) == |u.jobs| { PumpMakesForNone(u); return; }
    assert u.jobs[FirstQueued(u.jobs)].id in ids;
    PumpMakesWhatGoes(u);
  }

  /** A directory that leaves is being made. */
  lemma {:induction false} PumpMakesWhatGoes(s: State)
    requires Pump(s).dirsToCreate != s.dirsToCreate
    ensures s.dirsToCreate != [] && Pump(s).dirsToCreate == s.dirsToCreate[1..] && MakeDir(s.dirsToCreate[0]) in Pump(s).out
    decreases QueuedCount(s.jobs), UnweighedCount(s.jobs), if s.preflight == Cleared then 0 else 1
  {
    PumpGoes(s);
    if FirstQueued(s.jobs) < |s.jobs| && (s.preflight != Cleared || Unweighed(s.jobs)) {
      BeginPreflightDecreases(s);
      PreflightLeavesRest(s);
      PumpMakesWhatGoes(BeginPreflight(s).0.(preflight := Cleared));
    } else {
      NoneQueuedNoneUnweighed(s.jobs);
    }
  }

  lemma MadeStays(s: State, ids: seq<JobId>, fs: nat)
    requires ids != [] && s.dirsToCreate != [] && |DropJob(s, ids[0], fs).dirsToCreate| < |s.dirsToCreate|
    requires MakeDir(s.dirsToCreate[0]) in DropJob(s, ids[0], fs).out
    ensures DropJobs(s, ids, fs).dirsToCreate != s.dirsToCreate && MakeDir(s.dirsToCreate[0]) in DropJobs(s, ids, fs).out
  {
    ClosingOnlyMakes(DropJob(s, ids[0], fs), ids[1..], fs);
    DropsKeepAsked(DropJob(s, ids[0], fs), ids[1..], fs, MakeDir(s.dirsToCreate[0]));
  }

  // -------------------------------------------------------------------- main result

  lemma FirstGoneAlike(s: State, fs: nat)
    requires Good(ViewOf(s)) && Members(s.jobs, Using(fs)) != []
    ensures Question(Gone(s, Members(s.jobs, Using(fs))[0], Using(fs)).jobs, Asks(s)) <==> Question(FirstGone(s.jobs, Using(fs)), Asks(s))
  {
    var who := Using(fs);
    var i := FirstMember(s.jobs, who);
    GoodIsDistinct(s);
    MembersAre(s.jobs, who);
    assert Index(s.jobs, s.jobs[i].id) == i;
    GoneIsWithout(s, s.jobs[i].id, who);
    QuestionAlike(Gone(s, s.jobs[i].id, who).jobs, FirstGone(s.jobs, who), Asks(s));
  }

  lemma FreeMakesOne(s: State, fs: nat)
    requires Good(ViewOf(s)) && ClosingMakes(s, fs) && !HeldBack(s, Using(fs))
    ensures CancelJobsUsing(s, fs).dirsToCreate != s.dirsToCreate && MakeDir(s.dirsToCreate[0]) in CancelJobsUsing(s, fs).out
  {
    var who, ids := Using(fs), Unfinishing(s.jobs, fs);
    MembersAsListed(s.jobs);
    if s.activeId != NO_JOB { ActiveIsFirst(s, who); }
    FirstGoneAlike(s, fs);
    DropGoes(s, ids[0], fs);
    GoneQuietly(s, ids[0], who);
    PumpMakesDirectory(Gone(s, ids[0], who));
    MadeStays(s, ids, fs);
  }

  lemma NoOthersMakesOne(s: State, fs: nat)
    requires Good(ViewOf(s)) && ClosingMakes(s, fs) && !OthersQueued(s.jobs, Using(fs))
    ensures CancelJobsUsing(s, fs).dirsToCreate != s.dirsToCreate && MakeDir(s.dirsToCreate[0]) in CancelJobsUsing(s, fs).out
  {
    var who, ids := Using(fs), Unfinishing(s.jobs, fs);
    MembersAsListed(s.jobs);
    MembersAre(s.jobs, who);
    GoodIsDistinct(s);
    if s.activeId != NO_JOB { ActiveIsFirst(s, who); }
    LastMakesOne(s, ids, fs);
  }

  lemma OtherStaysQueued(s: State, fs: nat) returns (k: nat)
    requires Good(ViewOf(s)) && OthersQueued(s.jobs, Using(fs))
    ensures StaysQueued(s, Members(s.jobs, Using(fs)), k)
  {
    k :| k < |s.jobs| && s.jobs[k].state == Queued && !Member(s.jobs[k], Using(fs));
    MembersAre(s.jobs, Using(fs));
    GoodIsDistinct(s);
  }

  lemma MakesNone(s: State, fs: nat)
    requires Good(ViewOf(s)) && !ClosingMakes(s, fs)
    ensures CancelJobsUsing(s, fs).dirsToCreate == s.dirsToCreate
  {
    var who, ids := Using(fs), Unfinishing(s.jobs, fs);
    MembersAsListed(s.jobs);
    ClosingOnlyMakes(s, ids, fs);
    if s.dirsToCreate == [] || ids == [] { return; }
    if Idles(s, ids) { IdleMakesNone(s, ids, fs); return; }
    var k := OtherStaysQueued(s, fs);
    if s.preflight == CheckingSpace { CheckedMakesNone(s, ids, fs, k); return; }
    FirstGoneAlike(s, fs);
    QuestionMakesNone(s, ids, fs, k);
  }

  /** Closing a file system makes a directory, the next one in line, under exactly this condition on the queue as it is
      before; and it does not matter where the directory lies. */
  lemma ClosingMakesDirectoryIff(s: State, fs: nat)
    requires Good(ViewOf(s))
    ensures ClosingMakes(s, fs) <==> CancelJobsUsing(s, fs).dirsToCreate != s.dirsToCreate
    ensures ClosingMakes(s, fs) ==> MakeDir(s.dirsToCreate[0]) in CancelJobsUsing(s, fs).out
  {
    if !ClosingMakes(s, fs) { MakesNone(s, fs); return; }
    if HeldBack(s, Using(fs)) { NoOthersMakesOne(s, fs); } else { FreeMakesOne(s, fs); }
  }
}
