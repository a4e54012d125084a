/** Exactly which events keep one job at a time, and what every run made of them keeps. */
module TransferRuns {
  import opened Style
  import opened TransferQueue
  import opened TransferSafety
  import opened TransferSlot
  import opened TransferDiscipline
  import RemotePath

  // ------------------------------------------------------- what adding work leads to

  lemma AddLeads(s: State, job: Job)
    requires !job.state.InProgress()
    ensures Leads(ViewOf(s), ViewOf(AddJob(s, job)))
  {
    var t := WithNewJob(s, job);
    assert Rows(t.jobs) == Rows(s.jobs) + [Row(s.nextId, job.state)];
    AddingLeads(ViewOf(s), job.state);
    PumpLeads(t);
    LeadsComposes(ViewOf(s), ViewOf(t), ViewOf(Pump(t)));
  }

  lemma AbsorbOneLeads(s: State, dir: PendingDir, e: Info)
    ensures Leads(ViewOf(s), ViewOf(AbsorbOne(s, dir, e)))
  {
    var src, dst := RemotePath.Join(dir.sourcePath, e.name), RemotePath.Join(dir.destPath, e.name);
    if e.isSymlink {
      AddLeads(s, NewJob(LinkJob, dir.source, src, dir.destination, dst, if s.config.skipLinks then Skipped else Queued));
    } else if !e.isDir {
      AddLeads(s, NewJob(Copy, dir.source, src, dir.destination, dst, Queued));
    }
  }

  lemma {:induction false} AbsorbLeads(s: State, dir: PendingDir, entries: seq<Info>)
    ensures Leads(ViewOf(s), ViewOf(AbsorbEntries(s, dir, entries)))
    decreases |entries|
  {
    if entries != [] {
      var next := AbsorbOne(s, dir, entries[0]);
      AbsorbOneLeads(s, dir, entries[0]);
      AbsorbLeads(next, dir, entries[1..]);
      LeadsComposes(ViewOf(s), ViewOf(next), ViewOf(AbsorbEntries(next, dir, entries[1..])));
    }
  }

  lemma WalkLeads(s: State)
    ensures Leads(ViewOf(s), ViewOf(StepEnumeration(s)))
  {
    if s.toVisit == [] { PumpLeads(s.(enumerating := false, enumCancelled := false)); }
    else { AsideLeads(ViewOf(s), List(s.toVisit[0])); }
  }

  lemma ListedLeads(s: State, dir: PendingDir, entries: seq<Info>, gone: bool)
    ensures Leads(ViewOf(s), ViewOf(OnListed(s, dir, entries, gone)))
  {
    var t := if s.enumCancelled then s else AbsorbListing(s, dir, entries, gone);
    if !s.enumCancelled { AbsorbLeads(if gone then s.(toVisit := []) else s, dir, entries); }
    WalkLeads(t);
    LeadsComposes(ViewOf(s), ViewOf(t), ViewOf(StepEnumeration(t)));
  }

  lemma EnqueueLeads(s: State, source: Endpoint, item: Info, path: string, destination: Endpoint, destDir: string)
    ensures Leads(ViewOf(s), ViewOf(EnqueueItem(s, source, item, path, destination, destDir)))
  {
    var dest := RemotePath.Join(destDir, item.name);
    if item.isSymlink {
      AddLeads(s, NewJob(LinkJob, source, path, destination, dest, if s.config.skipLinks then Skipped else Queued));
    } else if item.isDir {
      var t := s.(toVisit := s.toVisit + [PendingDir(source, destination, path, dest, 0)],
                  dirsToCreate := s.dirsToCreate + [DirCreate(destination, dest)]);
      WalkLeads(t.(enumerating := true));
    } else {
      AddLeads(s, NewJob(Copy, source, path, destination, dest, Queued));
    }
  }

  lemma SpaceKnownLeads(s: State, fs: nat, path: string, parent: string, left: nat, ok: bool, unsupported: bool)
    ensures Leads(ViewOf(s), ViewOf(SpaceKnown(s, fs, path, parent, left, ok, unsupported).0))
  {
    var q := SpaceKnownAsks(s, fs, path, parent, left, ok, unsupported);
    AskingLeads(ViewOf(s), ViewOf(SpaceKnown(s, fs, path, parent, left, ok, unsupported).0), q);
  }

  lemma SettledLeads(s: State, r: (State, bool))
    requires Leads(ViewOf(s), ViewOf(r.0))
    ensures Leads(ViewOf(s), ViewOf(Settled(r)))
  {
    if r.1 {
      PumpLeads(r.0.(preflight := Cleared));
      LeadsComposes(ViewOf(s), ViewOf(r.0), ViewOf(Settled(r)));
    }
  }

  // ------------------------------------------------------------------- retirements

  /** Cancelling is clean when the job has no call outstanding, or when what it has is a transfer the
      transport owns, which is then asked to stop. */
  ghost predicate CleanCancel(s: State, id: JobId) {
    var i := Index(s.jobs, id);
    i < |s.jobs| && !s.jobs[i].state.Terminal() && !TransportOwns(s, i) ==> !CallFor(s.out, id)
  }

  ghost predicate CleanCancels(s: State, ids: seq<JobId>)
    decreases |ids|
  {
    ids == [] || (CleanCancel(s, ids[0]) && CleanCancels(CancelJob(s, ids[0]), ids[1..]))
  }

  /** A file system that goes away retires its jobs at once, transfers included. */
  ghost predicate CleanDrops(s: State, ids: seq<JobId>, fs: nat)
    decreases |ids|
  {
    ids == [] || (!CallFor(s.out, ids[0]) && CleanDrops(DropJob(s, ids[0], fs), ids[1..], fs))
  }

  /** Cancelling a job leaves stranded calls stranded and the slot tidy. */
  lemma CancellingLeads(s: State, id: JobId)
    requires Index(s.jobs, id) < |s.jobs|
    ensures forall r | Stale(ViewOf(s), r) :: Stale(ViewOf(FinishJob(s, id, Cancelled)), r)
    ensures Tidy(ViewOf(s)) ==> Tidy(ViewOf(FinishJob(s, id, Cancelled)))
  {
    var i := Index(s.jobs, id);
    RetiredView(s, i, Cancelled);
    forall r | Stale(ViewOf(s), r) ensures Stale(ViewOf(Retired(s, i, Cancelled)), r) {
      RetiringKeepsStale(ViewOf(s), i, Cancelled, r);
    }
    if Tidy(ViewOf(s)) { RetiringIsTidy(ViewOf(s), i, Cancelled); }
    PumpLeads(Retired(s, i, Cancelled));
  }

  /** Retiring a job that is there keeps the slot good exactly when no call for it is outstanding. */
  lemma FinishExactly(s: State, id: JobId, outcome: JobState)
    requires Good(ViewOf(s)) && Index(s.jobs, id) < |s.jobs| && outcome.Terminal()
    ensures Good(ViewOf(FinishJob(s, id, outcome))) <==> !CallFor(s.out, id)
    ensures CallFor(s.out, id) && outcome == Cancelled ==> Stranded(FinishJob(s, id, outcome))
  {
    var i := Index(s.jobs, id);
    MayRetireExactly(ViewOf(s), i);
    if CallFor(s.out, id) {
      var r :| r in s.out && ClassOf(r) == Calling && r.id == id;
      RetiredCallIsNotGood(s, i, outcome, r);
      if outcome == Cancelled {
        RetiredView(s, i, outcome);
        CancellingStrands(ViewOf(s), i, r);
        PumpLeads(Retired(s, i, outcome));
        assert Stale(ViewOf(FinishJob(s, id, outcome)), r);
      }
    } else {
      FinishIsGood(s, id, outcome);
    }
  }

  /** A call outstanding for a job that has retired. */
  lemma RetiredCallIsNotGood(s: State, i: nat, outcome: JobState, r: Request)
    requires r in s.out && ClassOf(r) == Calling && Good(ViewOf(s))
    requires i == Index(s.jobs, r.id) < |s.jobs| && outcome.Terminal()
    ensures !Good(ViewOf(FinishJob(s, r.id, outcome)))
  {
    var w := ViewOf(FinishJob(s, r.id, outcome));
    RetiredView(s, i, outcome);
    PumpLeads(Retired(s, i, outcome));
    assert ViewOf(Retired(s, i, outcome)).rows[i] == Row(r.id, outcome);
    assert w.rows[i] == Row(r.id, outcome);
    PumpKeepsOut(Retired(s, i, outcome), r);
  }

  lemma {:induction false} PumpKeepsOut(s: State, r: Request)
    requires r in s.out
    ensures r in Pump(s).out
    decreases QueuedCount(s.jobs), UnweighedCount(s.jobs), if s.preflight == Cleared then 0 else 1
  {
    if !s.enumerating && FirstQueued(s.jobs) < |s.jobs| {
      var i := FirstQueued(s.jobs);
      if s.preflight != Cleared || Unweighed(s.jobs) {
        if s.preflight != CheckingSpace {
          BeginPreflightDecreases(s);
          PreflightKeepsOut(s, r);
          if BeginPreflight(s).1 { PumpKeepsOut(BeginPreflight(s).0.(preflight := Cleared), r); }
        }
      } else if !s.paused && s.activeId == NO_JOB && s.dirsToCreate == [] {
        CountsUpdate(s.jobs, i, s.jobs[i].(state := Failed));
        PumpKeepsOut(Retired(s.(activeId := s.jobs[i].id), i, Failed), r);
      }
    }
  }

  lemma PreflightKeepsOut(s: State, r: Request)
    requires r in s.out
    ensures r in BeginPreflight(s).0.out
  {
    var q := PreflightAsks(s);
  }

  lemma FinishKeepsRetired(s: State, id: JobId, outcome: JobState)
    requires Index(s.jobs, id) < |s.jobs| && !s.jobs[Index(s.jobs, id)].state.Terminal()
    ensures Keeps(ViewOf(s), ViewOf(FinishJob(s, id, outcome)))
  {
    var i := Index(s.jobs, id);
    RetiredView(s, i, outcome);
    RetiringKeepsOthers(ViewOf(s), i, outcome);
    PumpLeads(Retired(s, i, outcome));
    KeepsComposes(ViewOf(s), ViewOf(Retired(s, i, outcome)), ViewOf(FinishJob(s, id, outcome)));
  }

  /** Something stale is outstanding: the slot cannot be good until it is answered. */
  ghost predicate Stranded(s: State) {
    exists r :: Stale(ViewOf(s), r)
  }

  lemma StrandedIsNotGood(s: State)
    requires Stranded(s)
    ensures !Good(ViewOf(s))
  {
    var r :| Stale(ViewOf(s), r);
    StaleIsNotGood(ViewOf(s), r);
  }

  lemma CancelExactly(s: State, id: JobId)
    ensures Good(ViewOf(s)) && CleanCancel(s, id) ==> Good(ViewOf(CancelJob(s, id)))
    ensures Good(ViewOf(s)) && !CleanCancel(s, id) ==> Stranded(CancelJob(s, id))
    ensures Stranded(s) ==> Stranded(CancelJob(s, id))
    ensures Tidy(ViewOf(s)) ==> Tidy(ViewOf(CancelJob(s, id)))
    ensures Keeps(ViewOf(s), ViewOf(CancelJob(s, id)))
  {
    var i := Index(s.jobs, id);
    if i < |s.jobs| && !s.jobs[i].state.Terminal() && !TransportOwns(s, i) {
      FinishKeepsRetired(s, id, Cancelled);
      if Good(ViewOf(s)) { FinishExactly(s, id, Cancelled); }
      CancellingLeads(s, id);
    } else {
      assert ViewOf(CancelJob(s, id)) == ViewOf(s);
    }
  }

  /** A batch of cancellations keeps the slot good exactly when each of them is clean in its turn. */
  lemma {:induction false} CancelsExactly(s: State, ids: seq<JobId>)
    ensures Good(ViewOf(s)) ==> (Good(ViewOf(CancelJobs(s, ids))) <==> CleanCancels(s, ids))
    ensures Good(ViewOf(s)) && !CleanCancels(s, ids) ==> Stranded(CancelJobs(s, ids))
    ensures Stranded(s) ==> Stranded(CancelJobs(s, ids))
    ensures Tidy(ViewOf(s)) ==> Tidy(ViewOf(CancelJobs(s, ids)))
    ensures Keeps(ViewOf(s), ViewOf(CancelJobs(s, ids)))
    decreases |ids|
  {
    if ids != [] {
      var t := CancelJob(s, ids[0]);
      CancelExactly(s, ids[0]);
      CancelsExactly(t, ids[1..]);
      KeepsComposes(ViewOf(s), ViewOf(t), ViewOf(CancelJobs(t, ids[1..])));
      if Good(ViewOf(s)) && !CleanCancels(s, ids) { StrandedIsNotGood(CancelJobs(s, ids)); }
    }
  }

  /** All retired jobs but the listed ones stay as they were. */
  predicate KeepsOthers(v: View, w: View, ids: seq<JobId>) {
    && v.nextId <= w.nextId && |v.rows| <= |w.rows|
    && (forall i | 0 <= i < |v.rows| :: w.rows[i].id == v.rows[i].id)
    && (forall i | 0 <= i < |v.rows| :: v.rows[i].state.Terminal() && v.rows[i].id !in ids ==> w.rows[i].state == v.rows[i].state)
    && (forall i | |v.rows| <= i < |w.rows| :: w.rows[i].id >= v.nextId)
  }

  lemma KeepsOthersComposes(u: View, v: View, w: View, id: JobId, ids: seq<JobId>)
    requires KeepsOthers(u, v, [id]) && KeepsOthers(v, w, ids)
    ensures KeepsOthers(u, w, [id] + ids)
  {
    forall i | 0 <= i < |u.rows|
      ensures w.rows[i].id == u.rows[i].id && (u.rows[i].state.Terminal() && u.rows[i].id !in [id] + ids ==> w.rows[i].state == u.rows[i].state) {
      assert v.rows[i].id == u.rows[i].id;
    }
    forall i | |u.rows| <= i < |w.rows| ensures w.rows[i].id >= u.nextId {
      if i < |v.rows| { assert v.rows[i].id == w.rows[i].id; }
    }
  }

  lemma FinishKeepsOthers(s: State, id: JobId, outcome: JobState)
    ensures KeepsOthers(ViewOf(s), ViewOf(FinishJob(s, id, outcome)), [id])
  {
    var i := Index(s.jobs, id);
    if i < |s.jobs| {
      RetiredView(s, i, outcome);
      PumpLeads(Retired(s, i, outcome));
      assert KeepsOthers(ViewOf(s), ViewOf(Retired(s, i, outcome)), [id]);
      RetiredThenKept(ViewOf(s), ViewOf(Retired(s, i, outcome)), ViewOf(FinishJob(s, id, outcome)), [id]);
    } else {
      PumpLeads(SlotFreed(s, id));
    }
  }

  lemma RetiredThenKept(u: View, v: View, w: View, ids: seq<JobId>)
    requires KeepsOthers(u, v, ids) && Keeps(v, w)
    ensures KeepsOthers(u, w, ids)
  {
    forall i | 0 <= i < |u.rows|
      ensures w.rows[i].id == u.rows[i].id && (u.rows[i].state.Terminal() && u.rows[i].id !in ids ==> w.rows[i].state == u.rows[i].state) {
      assert v.rows[i].id == u.rows[i].id;
    }
    forall i | |u.rows| <= i < |w.rows| ensures w.rows[i].id >= u.nextId {
      if i < |v.rows| { assert v.rows[i].id == w.rows[i].id; }
    }
  }

  /** What a job looks like once its session has closed, if it has one to lose. */
  function Cut(s: State, id: JobId, fs: nat): State {
    var i := Index(s.jobs, id);
    if i == |s.jobs| then s
    else WithJob(s, i, Parted(s.jobs[i], fs))
  }

  lemma CutIsInvisible(s: State, id: JobId, fs: nat)
    ensures ViewOf(Cut(s, id, fs)) == ViewOf(s) && Index(Cut(s, id, fs).jobs, id) == Index(s.jobs, id)
    ensures DropJob(s, id, fs) == FinishJob(Cut(s, id, fs), id, Cancelled)
  {
    var i := Index(s.jobs, id);
    if i < |s.jobs| {
      SameRow(s, id, Parted(s.jobs[i], fs));
    }
  }

  lemma DropExactly(s: State, id: JobId, fs: nat)
    ensures Good(ViewOf(s)) && !CallFor(s.out, id) ==> Good(ViewOf(DropJob(s, id, fs)))
    ensures Good(ViewOf(s)) && CallFor(s.out, id) ==> Stranded(DropJob(s, id, fs))
    ensures Stranded(s) ==> Stranded(DropJob(s, id, fs))
    ensures Tidy(ViewOf(s)) ==> Tidy(ViewOf(DropJob(s, id, fs)))
    ensures KeepsOthers(ViewOf(s), ViewOf(DropJob(s, id, fs)), [id])
  {
    CutIsInvisible(s, id, fs);
    var t := Cut(s, id, fs);
    FinishKeepsOthers(t, id, Cancelled);
    if Index(s.jobs, id) < |s.jobs| { CancellingLeads(t, id); } else { AbsentLeads(s, id); }
    if Good(ViewOf(s)) {
      if Index(s.jobs, id) < |s.jobs| { FinishExactly(t, id, Cancelled); } else { AbsentIsQuiet(s, id); }
    }
  }

  lemma AbsentLeads(s: State, id: JobId)
    requires Index(s.jobs, id) == |s.jobs|
    ensures forall r | Stale(ViewOf(s), r) :: Stale(ViewOf(FinishJob(s, id, Cancelled)), r)
    ensures Tidy(ViewOf(s)) ==> Tidy(ViewOf(FinishJob(s, id, Cancelled)))
  {
    PosIsIndex(s.jobs, id);
    PumpLeads(SlotFreed(s, id));
  }

  /** A job that is not there holds no slot and has no call outstanding. */
  lemma AbsentIsQuiet(s: State, id: JobId)
    requires Good(ViewOf(s)) && Index(s.jobs, id) == |s.jobs|
    ensures !CallFor(s.out, id) && Good(ViewOf(FinishJob(s, id, Cancelled)))
  {
    PosIsIndex(s.jobs, id);
    PumpLeads(s);
    if s.activeId == id {
      assert id == NO_JOB;
      PumpLeads(s.(activeId := NO_JOB, activeOwner := None, cancellingActive := false));
    }
  }

  lemma {:induction false} DropsExactly(s: State, ids: seq<JobId>, fs: nat)
    ensures Good(ViewOf(s)) ==> (Good(ViewOf(DropJobs(s, ids, fs))) <==> CleanDrops(s, ids, fs))
    ensures Good(ViewOf(s)) && !CleanDrops(s, ids, fs) ==> Stranded(DropJobs(s, ids, fs))
    ensures Stranded(s) ==> Stranded(DropJobs(s, ids, fs))
    ensures Tidy(ViewOf(s)) ==> Tidy(ViewOf(DropJobs(s, ids, fs)))
    ensures KeepsOthers(ViewOf(s), ViewOf(DropJobs(s, ids, fs)), ids)
    decreases |ids|
  {
    if ids != [] {
      var t := DropJob(s, ids[0], fs);
      DropExactly(s, ids[0], fs);
      DropsExactly(t, ids[1..], fs);
      KeepsOthersComposes(ViewOf(s), ViewOf(t), ViewOf(DropJobs(t, ids[1..], fs)), ids[0], ids[1..]);
      assert [ids[0]] + ids[1..] == ids;
      if Good(ViewOf(s)) && !CleanDrops(s, ids, fs) { StrandedIsNotGood(DropJobs(s, ids, fs)); }
    }
  }

  lemma {:induction false} UnfinishingAreUnfinished(jobs: seq<Job>, fs: nat)
    ensures forall id | id in Unfinishing(jobs, fs) :: exists i :: 0 <= i < |jobs| && jobs[i].id == id && !jobs[i].state.Terminal()
    decreases |jobs|
  {
    if jobs != [] {
      UnfinishingAreUnfinished(jobs[1..], fs);
      forall id | id in Unfinishing(jobs, fs) ensures exists i :: 0 <= i < |jobs| && jobs[i].id == id && !jobs[i].state.Terminal() {
        if id in Unfinishing(jobs[1..], fs) {
          var i :| 0 <= i < |jobs[1..]| && jobs[1..][i].id == id && !jobs[1..][i].state.Terminal();
          assert jobs[i + 1] == jobs[1..][i];
        } else {
          assert jobs[0].id == id;
        }
      }
    }
  }

  lemma ClosingKeepsRetired(s: State, fs: nat)
    requires Good(ViewOf(s))
    ensures Keeps(ViewOf(s), ViewOf(CancelJobsUsing(s, fs)))
  {
    var ids := Unfinishing(s.jobs, fs);
    DropsExactly(s, ids, fs);
    UnfinishingAreUnfinished(s.jobs, fs);
    var v := ViewOf(s);
    forall i | 0 <= i < |v.rows| && v.rows[i].state.Terminal() ensures v.rows[i].id !in ids {
      assert v.rows[i] == Row(s.jobs[i].id, s.jobs[i].state);
      forall j | 0 <= j < |s.jobs| && s.jobs[j].id == s.jobs[i].id ensures j == i { assert v.rows[j].id == s.jobs[j].id; }
    }
  }

  // ------------------------------------------------------------------- the discipline

  ghost predicate CleanRetirement(s: State, e: Event)
    requires IsRetirement(e)
  {
    match e
    case CancelEvent(id) => CleanCancel(s, id)
    case CancelAllEvent => CleanCancels(DropPending(s), Unfinished(s.jobs, None))
    case CancelBatchEvent(volume) => CleanCancels(DropPendingFor(s, volume), Unfinished(s.jobs, Some(volume)))
    case CloseEvent(fs) => CleanDrops(s, Unfinishing(s.jobs, fs), fs)
  }

  /** No job is retired behind the back of a call outstanding for it. */
  ghost predicate Disciplined(s: State, e: Event)
    requires Possible(s, e)
  {
    && (IsRetirement(e) ==> CleanRetirement(s, e))
    && (e.Answer? && e.request.SpacePrompt? && !e.reply.proceed ==>
          CleanCancels(DropPendingFor(Answered(s, e.request), e.request.volume), Unfinished(s.jobs, Some(e.request.volume))))
  }

  lemma SpacePromptExactly(s: State, volume: Option<nat>, proceed: bool)
    requires Good(ViewOf(s))
    ensures Good(ViewOf(OnSpacePromptAnswered(s, volume, proceed))) <==>
              proceed || CleanCancels(DropPendingFor(s, volume), Unfinished(s.jobs, Some(volume)))
    ensures Keeps(ViewOf(s), ViewOf(OnSpacePromptAnswered(s, volume, proceed)))
  {
    var t := (if proceed then s else CancelBatchFor(s, volume)).(preflight := Cleared);
    var ids := Unfinished(s.jobs, Some(volume));
    var d := DropPendingFor(s, volume);
    assert ViewOf(d) == ViewOf(s);
    CancelsExactly(d, ids);
    PumpLeads(t);
    KeepsComposes(ViewOf(s), ViewOf(t), ViewOf(Pump(t)));
    if !proceed && !CleanCancels(d, ids) {
      var r :| Stale(ViewOf(CancelJobs(d, ids)), r);
      assert Stale(ViewOf(Pump(t)), r);
      StaleIsNotGood(ViewOf(Pump(t)), r);
    }
  }

  lemma AnswerExactly(s: State, q: Request, r: Reply)
    requires Good(ViewOf(s)) && q in s.out
    ensures Good(ViewOf(OnAnswer(Answered(s, q), q, r))) <==> Disciplined(s, Answer(q, r))
    ensures Keeps(ViewOf(s), ViewOf(OnAnswer(Answered(s, q), q, r)))
  {
    if ClassOf(q) == Calling || q.Prompt? { JobAnswerIsFine(s, q, r); } else { AsideAnsweredExactly(s, q, r); }
  }

  lemma JobAnswerIsFine(s: State, q: Request, r: Reply)
    requires Good(ViewOf(s)) && q in s.out && (ClassOf(q) == Calling || q.Prompt?)
    ensures Good(ViewOf(OnAnswer(Answered(s, q), q, r))) && Keeps(ViewOf(s), ViewOf(OnAnswer(Answered(s, q), q, r)))
  {
    if q.Prompt? { AnsweredPromptIsFine(s, q.id, r); } else { AnsweredCallIsFine(s, q, r); }
  }

  lemma AsideAnsweredExactly(s: State, q: Request, r: Reply)
    requires Good(ViewOf(s)) && q in s.out && ClassOf(q) != Calling && !q.Prompt?
    ensures var t := Answered(s, q);
            && (Good(ViewOf(OnAnswer(t, q, r))) <==>
                  (q.SpacePrompt? && !r.proceed ==> CleanCancels(DropPendingFor(t, q.volume), Unfinished(t.jobs, Some(q.volume)))))
            && Keeps(ViewOf(s), ViewOf(OnAnswer(t, q, r)))
  {
    var t := Answered(s, q);
    OtherAnswered(ViewOf(s), q);
    AsideAnswerExactly(t, q, r);
    KeepsComposes(ViewOf(s), ViewOf(t), ViewOf(OnAnswer(t, q, r)));
  }

  lemma AsideAnswerExactly(t: State, q: Request, r: Reply)
    requires Good(ViewOf(t)) && ClassOf(q) in {Listing, Space, Making}
    ensures Good(ViewOf(OnAnswer(t, q, r))) <==>
              (q.SpacePrompt? && !r.proceed ==> CleanCancels(DropPendingFor(t, q.volume), Unfinished(t.jobs, Some(q.volume))))
    ensures Keeps(ViewOf(t), ViewOf(OnAnswer(t, q, r)))
  {
    match q
    case List(dir) => ListedLeads(t, dir, r.entries, r.endpointGone);
    case QuerySpace(fs, path, left) =>
      SpaceKnownLeads(t, fs, path, RemotePath.Parent(path), left, r.ok, r.unsupported);
      SettledLeads(t, SpaceKnown(t, fs, path, RemotePath.Parent(path), left, r.ok, r.unsupported));
    case SpacePrompt(volume) => SpacePromptExactly(t, volume, r.proceed);
    case MakeDir(_) => PumpLeads(t);
  }

  lemma CancelBatchExactly(s: State, d: State, ids: seq<JobId>)
    requires Good(ViewOf(s)) && ViewOf(d) == ViewOf(s)
    ensures Good(ViewOf(CancelJobs(d, ids))) <==> CleanCancels(d, ids)
    ensures Keeps(ViewOf(s), ViewOf(CancelJobs(d, ids)))
  {
    CancelsExactly(d, ids);
  }

  lemma ResumeLeads(s: State)
    ensures Leads(ViewOf(s), ViewOf(if s.paused then Pump(s.(paused := false)) else s))
  {
    PumpLeads(s.(paused := false));
  }

  lemma ClearIsGood(s: State)
    requires Good(ViewOf(s))
    ensures Good(ViewOf(s.(jobs := Unterminated(s.jobs))))
  {
    ClearedRows(s.jobs);
    ClearingIsGood(ViewOf(s));
  }

  lemma OneCancelExactly(s: State, id: JobId)
    requires Good(ViewOf(s))
    ensures Good(ViewOf(CancelJob(s, id))) <==> CleanCancel(s, id)
    ensures Keeps(ViewOf(s), ViewOf(CancelJob(s, id)))
  {
    CancelExactly(s, id);
    if !CleanCancel(s, id) { StrandedIsNotGood(CancelJob(s, id)); }
  }

  lemma CloseExactly(s: State, fs: nat)
    requires Good(ViewOf(s))
    ensures Good(ViewOf(CancelJobsUsing(s, fs))) <==> CleanDrops(s, Unfinishing(s.jobs, fs), fs)
    ensures Keeps(ViewOf(s), ViewOf(CancelJobsUsing(s, fs)))
  {
    DropsExactly(s, Unfinishing(s.jobs, fs), fs);
    ClosingKeepsRetired(s, fs);
  }

  lemma RetirementExactly(s: State, e: Event)
    requires Good(ViewOf(s)) && IsRetirement(e)
    ensures Good(ViewOf(OnRetirement(s, e))) <==> CleanRetirement(s, e)
    ensures Keeps(ViewOf(s), ViewOf(OnRetirement(s, e)))
  {
    match e {
      case CancelEvent(id) => OneCancelExactly(s, id); return;
      case CancelAllEvent => CancelBatchExactly(s, DropPending(s), Unfinished(s.jobs, None)); return;
      case CancelBatchEvent(volume) => CancelBatchExactly(s, DropPendingFor(s, volume), Unfinished(s.jobs, Some(volume))); return;
      case CloseEvent(fs) => CloseExactly(s, fs); return;
    }
  }

  /** An event keeps one job at a time exactly when it is disciplined; whatever it is, unless it clears
      the retired jobs away, it leaves them as they retired. */
  lemma EventExactly(s: State, e: Event)
    requires Good(ViewOf(s)) && Possible(s, e)
    ensures Good(ViewOf(Handle(s, e))) <==> Disciplined(s, e)
    ensures !e.ClearFinishedEvent? ==> Keeps(ViewOf(s), ViewOf(Handle(s, e)))
  {
    if e.Answer? { AnswerExactly(s, e.request, e.reply); return; }
    if IsRetirement(e) { RetirementExactly(s, e); return; }
    OtherExactly(s, e);
  }

  lemma OtherExactly(s: State, e: Event)
    requires Good(ViewOf(s)) && !e.Answer? && !IsRetirement(e)
    ensures Good(ViewOf(Handle(s, e))) && (!e.ClearFinishedEvent? ==> Keeps(ViewOf(s), ViewOf(Handle(s, e))))
  {
    match e {
      case EnqueueEvent(source, item, path, destination, destDir) =>
        EnqueueLeads(s, source, item, path, destination, destDir);
        return;
      case ResumeEvent => ResumeLeads(s); return;
      case ClearFinishedEvent => ClearIsGood(s); return;
      case _ => return;
    }
  }

  lemma {:induction false} ClearedRows(jobs: seq<Job>)
    ensures Rows(Unterminated(jobs)) == Unretired(Rows(jobs))
    decreases |jobs|
  {
    if jobs != [] {
      ClearedRows(jobs[1..]);
      assert Rows(jobs)[1..] == Rows(jobs[1..]);
      assert Rows(jobs)[0] == Row(jobs[0].id, jobs[0].state);
      if !jobs[0].state.Terminal() {
        assert Rows([jobs[0]] + Unterminated(jobs[1..])) == [Row(jobs[0].id, jobs[0].state)] + Rows(Unterminated(jobs[1..]));
      }
    }
  }

  // ------------------------------------------------------------------------ runs

  ghost predicate DisciplinedRun(s: State, events: seq<Event>)
    requires PossibleRun(s, events)
    decreases |events|
  {
    events == [] || (Disciplined(s, events[0]) && DisciplinedRun(Handle(s, events[0]), events[1..]))
  }

  /** A job that has retired is either still as it retired or gone, and one that is gone stays gone. */
  ghost predicate Settles(v: View, w: View) {
    && v.nextId <= w.nextId
    && forall id: JobId | 0 < id < v.nextId ::
         var i, j := Pos(v.rows, id), Pos(w.rows, id);
         if i == |v.rows| then j == |w.rows|
         else v.rows[i].state.Terminal() ==> j == |w.rows| || w.rows[j] == v.rows[i]
  }

  lemma KeptIsSettled(v: View, w: View)
    requires Keeps(v, w)
    ensures Settles(v, w)
  {
    forall id: JobId | 0 < id < v.nextId
      ensures var i, j := Pos(v.rows, id), Pos(w.rows, id);
              if i == |v.rows| then j == |w.rows| else v.rows[i].state.Terminal() ==> j == |w.rows| || w.rows[j] == v.rows[i]
    {
      var i, j := Pos(v.rows, id), Pos(w.rows, id);
      if j < |v.rows| { assert v.rows[j].id == id; }
      if i < |v.rows| { assert w.rows[i].id == id; }
    }
  }

  lemma ClearedIsSettled(v: View)
    requires Good(v)
    ensures Settles(v, v.(rows := Unretired(v.rows)))
  {
    UnretiredExactly(v.rows);
    var w := v.(rows := Unretired(v.rows));
    forall id: JobId | 0 < id < v.nextId
      ensures var i, j := Pos(v.rows, id), Pos(w.rows, id); j < |w.rows| ==> i < |v.rows| && !v.rows[i].state.Terminal()
    {
      var i, j := Pos(v.rows, id), Pos(w.rows, id);
      if j < |w.rows| {
        assert w.rows[j] in w.rows;
        var k :| 0 <= k < |v.rows| && v.rows[k] == w.rows[j];
        assert i == k;
      }
    }
  }

  lemma SettlesComposes(u: View, v: View, w: View)
    requires Settles(u, v) && Settles(v, w)
    ensures Settles(u, w)
  {}

  lemma EventSettles(s: State, e: Event)
    requires Good(ViewOf(s)) && Possible(s, e)
    ensures Settles(ViewOf(s), ViewOf(Handle(s, e)))
  {
    if e.ClearFinishedEvent? {
      ClearedRows(s.jobs);
      ClearedIsSettled(ViewOf(s));
    } else {
      EventExactly(s, e);
      KeptIsSettled(ViewOf(s), ViewOf(Handle(s, e)));
    }
  }

  /** On every disciplined run one job at a time is under way and no retired job changes. */
  lemma {:induction false} EveryDisciplinedRun(s: State, events: seq<Event>)
    requires Good(ViewOf(s)) && PossibleRun(s, events) && DisciplinedRun(s, events)
    ensures Good(ViewOf(Run(s, events))) && Settles(ViewOf(s), ViewOf(Run(s, events)))
    decreases |events|
  {
    if events != [] {
      EventExactly(s, events[0]);
      EventSettles(s, events[0]);
      EveryDisciplinedRun(Handle(s, events[0]), events[1..]);
      SettlesComposes(ViewOf(s), ViewOf(Handle(s, events[0])), ViewOf(Run(s, events)));
    }
  }

  lemma InitialIsGood(config: Config)
    ensures Good(ViewOf(Initial(config)))
  {}

  /** What good means for the jobs: at most one is under way, it is the one the slot names, and the slot
      names one exactly when an answer about that job is outstanding. */
  lemma OneAtATime(s: State, i: nat, j: nat)
    requires Good(ViewOf(s)) && i < |s.jobs| && j < |s.jobs|
    ensures s.jobs[i].state.InProgress() && s.jobs[j].state.InProgress() ==> i == j && s.jobs[i].id == s.activeId
    ensures s.activeId != NO_JOB <==> Prompt(s.activeId) in s.out || CallFor(s.out, s.activeId)
  {
    var rows := Rows(s.jobs);
    assert rows[i] == Row(s.jobs[i].id, s.jobs[i].state) && rows[j] == Row(s.jobs[j].id, s.jobs[j].state);
    if s.activeId != NO_JOB && Prompt(s.activeId) !in s.out {
      var r :| r in s.out && ClassOf(r) == Calling;
      assert r.id == s.activeId;
    }
  }

  // ------------------------------------------------------- when a batch is cancelled

  /** While the slot is held the pump neither frees it nor moves a job. */
  lemma {:induction false} PumpWhileHeld(s: State)
    requires s.activeId != NO_JOB
    ensures Unmoved(s, Pump(s))
    decreases QueuedCount(s.jobs), UnweighedCount(s.jobs), if s.preflight == Cleared then 0 else 1
  {
    if !s.enumerating && FirstQueued(s.jobs) < |s.jobs| && (s.preflight != Cleared || Unweighed(s.jobs))
          && s.preflight != CheckingSpace {
      BeginPreflightDecreases(s);
      var (next, over) := BeginPreflight(s);
      PreflightMovesNothing(s);
      if over { PumpWhileHeld(next.(preflight := Cleared)); }
    }
  }

  /** What the check leaves alone: the jobs' ids and states, and the slot. */
  predicate Unmoved(s: State, t: State) {
    Rows(t.jobs) == Rows(s.jobs) && t.activeId == s.activeId && t.activeOwner == s.activeOwner
  }

  lemma PreflightMovesNothing(s: State)
    ensures Unmoved(s, BeginPreflight(s).0)
  {
    var q := PreflightAsks(s);
    PreflightKeepsOwner(s);
  }

  lemma PreflightKeepsOwner(s: State)
    ensures BeginPreflight(s).0.activeOwner == s.activeOwner
  {}

  /** The slot is held by a transfer the transport owns. */
  predicate Owned(s: State) {
    && s.activeId != NO_JOB && s.activeOwner.Some?
    && var i := Pos(Rows(s.jobs), s.activeId); i < |s.jobs| && Rows(s.jobs)[i].state == Active
  }

  lemma CancelKeepsOwned(s: State, id: JobId)
    requires Owned(s)
    ensures Owned(CancelJob(s, id))
  {
    var rows := Rows(s.jobs);
    var i, k := Index(s.jobs, id), Pos(rows, s.activeId);
    if i < |s.jobs| && !s.jobs[i].state.Terminal() && !TransportOwns(s, i) {
      PosIsIndex(s.jobs, s.activeId);
      assert rows[k] == Row(s.jobs[k].id, s.jobs[k].state);
      assert i != k;
      RetiringKeepsOwned(s, i, k);
      PumpWhileHeld(Retired(s, i, Cancelled));
    }
  }

  lemma RetiringKeepsOwned(s: State, i: nat, k: nat)
    requires Owned(s) && i < |s.jobs| && k == Pos(Rows(s.jobs), s.activeId) && i != k && s.jobs[i].id != s.activeId
    ensures Owned(Retired(s, i, Cancelled))
  {
    var rows, t := Rows(s.jobs), Retired(s, i, Cancelled);
    RowsUpdate(s.jobs, i, s.jobs[i].(state := Cancelled));
    assert forall j | 0 <= j < |rows| :: Rows(t.jobs)[j].id == rows[j].id;
    assert Rows(t.jobs)[k] == rows[k] && Pos(Rows(t.jobs), s.activeId) == k;
  }

  /** Any batch may be cancelled while the transport owns the active transfer: it is asked to stop and
      keeps the slot until it answers, so nothing else is begun. */
  lemma {:induction false} OwnedBatchIsClean(s: State, ids: seq<JobId>)
    requires Good(ViewOf(s)) && Owned(s)
    ensures CleanCancels(s, ids)
    decreases |ids|
  {
    if ids != [] {
      var id := ids[0];
      PosIsIndex(s.jobs, s.activeId);
      assert CallFor(s.out, id) ==> id == s.activeId;
      assert Rows(s.jobs)[Index(s.jobs, s.activeId)].state == s.jobs[Index(s.jobs, s.activeId)].state;
      assert CleanCancel(s, id);
      CancelExactly(s, id);
      CancelKeepsOwned(s, id);
      OwnedBatchIsClean(CancelJob(s, id), ids[1..]);
    }
  }
}
