/** One job at a time: the events that keep the transfer queue's slot good, exactly, and what every run
    of such events keeps. A retirement is clean when no call for the job is outstanding, or when the
    transport that makes the call is asked to stop instead. */
module TransferDiscipline {
  import opened Style
  import opened TransferQueue
  import opened TransferSafety
  import opened TransferSlot
  import RemotePath

  function Rows(jobs: seq<Job>): (rows: seq<Row>)
    ensures |rows| == |jobs|
    ensures forall i | 0 <= i < |jobs| :: rows[i] == Row(jobs[i].id, jobs[i].state)
  {
    seq(|jobs|, i requires 0 <= i < |jobs| => Row(jobs[i].id, jobs[i].state))
  }

  function ViewOf(s: State): View {
    View(Rows(s.jobs), s.nextId, s.activeId, s.out)
  }

  lemma RowsUpdate(jobs: seq<Job>, i: nat, job: Job)
    requires i < |jobs|
    ensures Rows(jobs[i := job]) == Rows(jobs)[i := Row(job.id, job.state)]
    ensures Row(job.id, job.state) == Rows(jobs)[i] ==> Rows(jobs[i := job]) == Rows(jobs)
  {}

  lemma PosIsIndex(jobs: seq<Job>, id: JobId)
    ensures Pos(Rows(jobs), id) == Index(jobs, id)
  {
    var p, q := Pos(Rows(jobs), id), Index(jobs, id);
    if p < |jobs| { assert Rows(jobs)[p].id == jobs[p].id; }
    if q < |jobs| { assert Rows(jobs)[q].id == jobs[q].id; }
  }

  // -------------------------------------------------------------------- the pump

  lemma MarkedRows(jobs: seq<Job>, volume: Option<nat>)
    ensures Rows(MarkWeighed(jobs, volume)) == Rows(jobs)
  {}

  /** The check at most asks one more question about space; it moves no job. */
  predicate AsksAtMost(v: View, w: View, q: Request) {
    w == v || (ClassOf(q) == Space && w == Aside(v, q))
  }

  lemma AskingLeads(v: View, w: View, q: Request)
    requires AsksAtMost(v, w, q)
    ensures Leads(v, w)
  {
    if w != v { AsideLeads(v, q); }
  }

  lemma VerdictAsks(s: State) returns (q: Request)
    ensures AsksAtMost(ViewOf(s), ViewOf(Verdict(s).0), q)
  {
    var first := FirstUnchecked(s.jobs);
    q := SpacePrompt(None);
    if first < |s.jobs| {
      var volume := s.jobs[first].destination.fs;
      q := SpacePrompt(volume);
      MarkedRows(s.jobs, volume);
    }
  }

  lemma QueryAsks(s: State, fs: nat, path: string, left: nat) returns (q: Request)
    ensures AsksAtMost(ViewOf(s), ViewOf(QuerySpaceFrom(s, fs, path, left).0), q)
  {
    if path == "" { q := VerdictAsks(s); } else { q := QuerySpace(fs, path, left); }
  }

  lemma SpaceKnownAsks(s: State, fs: nat, path: string, parent: string, left: nat, ok: bool,
        unsupported: bool) returns (q: Request)
    ensures AsksAtMost(ViewOf(s), ViewOf(SpaceKnown(s, fs, path, parent, left, ok, unsupported).0), q)
  {
    if ok || unsupported || left == 0 || parent == "" || parent == path { q := VerdictAsks(s); }
    else { q := QueryAsks(s, fs, parent, left - 1); }
  }

  lemma PreflightAsks(s: State) returns (q: Request)
    ensures AsksAtMost(ViewOf(s), ViewOf(BeginPreflight(s).0), q)
  {
    q := SpacePrompt(None);
    var t := s.(preflight := CheckingSpace);
    var first := FirstUnchecked(t.jobs);
    if first < |t.jobs| {
      var job := t.jobs[first];
      if job.destination.fs.None? {
        RowsUpdate(t.jobs, first, job.(spaceChecked := true));
      } else {
        q := QueryAsks(t, job.destination.fs.value, RemotePath.Parent(job.destPath), MAX_SPACE_PROBE_ANCESTORS);
      }
    }
  }

  lemma PreflightLeads(s: State)
    ensures Leads(ViewOf(s), ViewOf(BeginPreflight(s).0))
  {
    var q := PreflightAsks(s);
    AskingLeads(ViewOf(s), ViewOf(BeginPreflight(s).0), q);
  }

  lemma MakingLeads(s: State)
    requires s.dirsToCreate != []
    ensures Leads(ViewOf(s), ViewOf(s))
    ensures !s.enumerating && !Unweighed(s.jobs) ==> Leads(ViewOf(s), ViewOf(CreateNextDirectory(s)))
  {
    AsideLeads(ViewOf(s), MakeDir(s.dirsToCreate[0]));
  }

  lemma {:induction false} PumpLeads(s: State)
    ensures Leads(ViewOf(s), ViewOf(Pump(s)))
    decreases QueuedCount(s.jobs), UnweighedCount(s.jobs), if s.preflight == Cleared then 0 else 1
  {
    if !s.enumerating {
      var i := FirstQueued(s.jobs);
      if i == |s.jobs| {
        if s.dirsToCreate != [] { MakingLeads(s); }
      } else if s.preflight != Cleared || Unweighed(s.jobs) {
        if s.preflight != CheckingSpace {
          BeginPreflightDecreases(s);
          PreflightLeads(s);
          var (next, over) := BeginPreflight(s);
          if over {
            var t := next.(preflight := Cleared);
            assert Pump(s) == Pump(t);
            PumpLeads(t);
            ThenLeads(s, next, Pump(t));
          } else {
            assert Pump(s) == next;
          }
        }
      } else if !s.paused && s.activeId == NO_JOB {
        if s.dirsToCreate != [] { MakingLeads(s); } else { PumpBeginLeads(s, i); }
      }
    }
  }

  /** Clearing the check on the way is invisible to the slot. */
  lemma ThenLeads(s: State, next: State, t: State)
    requires Leads(ViewOf(s), ViewOf(next)) && Leads(ViewOf(next.(preflight := Cleared)), ViewOf(t))
    ensures Leads(ViewOf(s), ViewOf(t))
  {
    LeadsComposes(ViewOf(s), ViewOf(next), ViewOf(t));
  }

  lemma {:induction false} PumpBeginLeads(s: State, i: nat)
    requires !s.enumerating && s.preflight == Cleared && !Unweighed(s.jobs)
    requires i == FirstQueued(s.jobs) < |s.jobs| && !s.paused && s.activeId == NO_JOB && s.dirsToCreate == []
    ensures Leads(ViewOf(s), ViewOf(Pump(s)))
    decreases QueuedCount(s.jobs), UnweighedCount(s.jobs), 0, 0
  {
    var job := s.jobs[i];
    if job.source.fs.None? || job.destination.fs.None? {
      var t := Retired(s.(activeId := job.id), i, Failed);
      CountsUpdate(s.jobs, i, job.(state := Failed));
      RefusedLeads(s, i);
      PumpLeads(t);
      assert Pump(s) == Pump(t);
      LeadsComposes(ViewOf(s), ViewOf(t), ViewOf(Pump(t)));
    } else {
      RowsUpdate(s.jobs, i, job.(state := Checking));
      assert forall j | 0 <= j < i :: ViewOf(s).rows[j].state == s.jobs[j].state;
      BeginLeads(ViewOf(s), i);
    }
  }

  lemma RefusedLeads(s: State, i: nat)
    requires i < |s.jobs| && s.jobs[i].state == Queued && s.activeId == NO_JOB
    ensures Leads(ViewOf(s), ViewOf(Retired(s.(activeId := s.jobs[i].id), i, Failed)))
  {
    RowsUpdate(s.jobs, i, s.jobs[i].(state := Failed));
    FailingLeads(ViewOf(s), i);
  }

  // ---------------------------------------------------------- one job's next thing

  lemma RetiredView(s: State, i: nat, outcome: JobState)
    requires i < |s.jobs|
    ensures ViewOf(Retired(s, i, outcome)) == RetiredRow(ViewOf(s), i, outcome)
  {
    RowsUpdate(s.jobs, i, s.jobs[i].(state := outcome));
  }

  lemma FinishIsGood(s: State, id: JobId, outcome: JobState)
    requires Index(s.jobs, id) < |s.jobs| && MayRetire(ViewOf(s), Index(s.jobs, id)) && outcome.Terminal()
    ensures Good(ViewOf(FinishJob(s, id, outcome)))
    ensures s.jobs[Index(s.jobs, id)].state.Terminal() || Keeps(ViewOf(s), ViewOf(FinishJob(s, id, outcome)))
  {
    var i := Index(s.jobs, id);
    RetiredView(s, i, outcome);
    RetiringIsGood(ViewOf(s), i, outcome);
    RetiringKeepsOthers(ViewOf(s), i, outcome);
    PumpLeads(Retired(s, i, outcome));
    if !s.jobs[i].state.Terminal() {
      KeepsComposes(ViewOf(s), ViewOf(Retired(s, i, outcome)), ViewOf(FinishJob(s, id, outcome)));
    }
  }

  /** `s` with the slot's job, at `i`, waiting to be asked the next thing. */
  ghost predicate ReadyFor(s: State, id: JobId) {
    id == s.activeId && Ready(ViewOf(s), Index(s.jobs, id))
  }

  /** A handler's result keeps the slot good and every retired job as it was. */
  ghost predicate Fine(s: State, t: State) {
    Good(ViewOf(t)) && Keeps(ViewOf(s), ViewOf(t))
  }

  lemma CallIsFine(s: State, id: JobId, state: JobState, job: Job, owner: Option<nat>, q: Request)
    requires ReadyFor(s, id) && ClassOf(q) == Calling && q.id == id && job.id == id && job.state == state
    requires state.InProgress() && Fits(q, state)
    ensures var t := WithJob(s, Index(s.jobs, id), job); Fine(s, Issue(t, q, true)) && Fine(s, Issue(t.(activeOwner := owner), q, true))
  {
    var i := Index(s.jobs, id);
    RowsUpdate(s.jobs, i, job);
    CallingIsGood(ViewOf(s), i, state, q);
  }

  /** The same, the job itself left alone. */
  lemma AgainIsFine(s: State, id: JobId, owner: Option<nat>, q: Request)
    requires ReadyFor(s, id) && ClassOf(q) == Calling && q.id == id && Fits(q, s.jobs[Index(s.jobs, id)].state)
    ensures Fine(s, Issue(s, q, true)) && Fine(s, Issue(s.(activeOwner := owner), q, true))
  {
    var i := Index(s.jobs, id);
    assert WithJob(s, i, s.jobs[i]) == s;
    CallIsFine(s, id, s.jobs[i].state, s.jobs[i], owner, q);
  }

  lemma ActiveIsReady(s: State, id: JobId, job: Job)
    requires ReadyFor(s, id) && job.id == id && job.state == Active
    ensures var t := WithJob(s, Index(s.jobs, id), job);
            Index(t.jobs, id) == Index(s.jobs, id) && MayRetire(ViewOf(t), Index(s.jobs, id)) && Keeps(ViewOf(s), ViewOf(t))
  {
    var i := Index(s.jobs, id);
    var t := WithJob(s, i, job);
    RowsUpdate(s.jobs, i, job);
    RowChangeKeepsBase(ViewOf(s), i, Active, id);
    PosIsIndex(t.jobs, id);
  }

  lemma FinishIsFine(s: State, id: JobId, outcome: JobState)
    requires ReadyFor(s, id) && outcome.Terminal()
    ensures Fine(s, FinishJob(s, id, outcome))
  {
    FinishIsGood(s, id, outcome);
  }

  lemma StartIsFine(s: State, id: JobId)
    requires ReadyFor(s, id)
    ensures Fine(s, StartTransfer(s, id))
  {
    var i := Index(s.jobs, id);
    var job := s.jobs[i].(state := Active);
    var t := WithJob(s, i, job);
    if job.kind == LinkJob { CallIsFine(s, id, Active, job, None, ReadLink(id, job.destExisted)); }
    else if job.destination.IsLocalDisk() { CallIsFine(s, id, Active, job, job.source.fs, Transfer(id, false)); }
    else if job.source.IsLocalDisk() { CallIsFine(s, id, Active, job, job.destination.fs, Transfer(id, false)); }
    else if !s.config.relayRoot {
      ActiveIsReady(s, id, job);
      FinishIsGood(t, id, Failed);
      KeepsComposes(ViewOf(s), ViewOf(t), ViewOf(StartTransfer(s, id)));
    }
    else { CallIsFine(s, id, Active, job, job.source.fs, Transfer(id, true)); }
  }

  lemma FreeNameIsFine(s: State, id: JobId, attempt: nat)
    requires ReadyFor(s, id) && s.jobs[Index(s.jobs, id)].state in {Checking, AwaitingResolution}
    ensures Fine(s, ResolveFreeName(s, id, attempt))
  {
    if attempt > MAX_RENAME_ATTEMPTS { FinishIsFine(s, id, Failed); }
    else {
      var i := Index(s.jobs, id);
      var dest := s.jobs[i].destPath;
      var q := StatFree(id, RemotePath.Join(RemotePath.Parent(dest), MakeUniqueCandidate(RemotePath.Leaf(dest),
            attempt)), attempt);
      AgainIsFine(s, id, None, q);
    }
  }

  lemma ResolveIsFine(s: State, id: JobId, resolution: Resolution)
    requires ReadyFor(s, id) && s.jobs[Index(s.jobs, id)].state in {Checking, AwaitingResolution}
    ensures Fine(s, Resolve(s, id, resolution))
  {
    if resolution == Overwrite { StartIsFine(s, id); }
    else if resolution == Skip { FinishIsFine(s, id, Skipped); }
    else { FreeNameIsFine(s, id, 1); }
  }

  /** Rewriting the slot's job without moving it changes nothing the slot sees. */
  lemma SameRow(s: State, id: JobId, job: Job)
    requires Index(s.jobs, id) < |s.jobs| && job.id == id && job.state == s.jobs[Index(s.jobs, id)].state
    ensures var t := WithJob(s, Index(s.jobs, id), job); ViewOf(t) == ViewOf(s) && Index(t.jobs, id) == Index(s.jobs, id)
  {
    var i := Index(s.jobs, id);
    RowsUpdate(s.jobs, i, job);
    PosIsIndex(s.jobs, id);
    PosIsIndex(WithJob(s, i, job).jobs, id);
  }

  lemma ConflictIsFine(s: State, id: JobId, found: bool)
    requires ReadyFor(s, id) && s.jobs[Index(s.jobs, id)].state == Checking
    ensures Fine(s, OnConflictKnown(s, id, found))
  {
    var i := Index(s.jobs, id);
    if !found { StartIsFine(s, id); }
    else {
      var job := s.jobs[i].(destExisted := true);
      var t := WithJob(s, i, job);
      SameRow(s, id, job);
      if t.config.policy != Ask { ResolveIsFine(t, id, t.config.policy); }
      else if !t.config.hasPrompt { FinishIsFine(t, id, Skipped); }
      else {
        RowsUpdate(t.jobs, i, t.jobs[i].(state := AwaitingResolution));
        PromptingIsGood(ViewOf(t), i);
      }
    }
  }

  lemma FreeNameAnswerIsFine(s: State, id: JobId, candidate: string, attempt: nat, found: bool)
    requires ReadyFor(s, id) && s.jobs[Index(s.jobs, id)].state in {Checking, AwaitingResolution}
    ensures Fine(s, OnFreeNameKnown(s, id, candidate, attempt, found))
  {
    var i := Index(s.jobs, id);
    if found { FreeNameIsFine(s, id, attempt + 1); }
    else {
      var job := s.jobs[i].(destPath := candidate, destExisted := false);
      SameRow(s, id, job);
      StartIsFine(WithJob(s, i, job), id);
    }
  }

  lemma LegIsFine(s: State, id: JobId, firstLeg: bool, ok: bool, cancelled: bool)
    requires ReadyFor(s, id) && s.jobs[Index(s.jobs, id)].state == Active
    ensures Fine(s, OnLegDone(s, id, firstLeg, ok, cancelled))
  {
    var i := Index(s.jobs, id);
    if !ok { FinishIsFine(s, id, if cancelled then Cancelled else Failed); }
    else if firstLeg { AgainIsFine(s, id, s.jobs[i].destination.fs, Transfer(id, false)); }
    else { FinishIsFine(s, id, Completed); }
  }

  /** The answer to a call, in the state that call belongs to. */
  lemma CallAnswerIsFine(s: State, q: Request, r: Reply)
    requires ClassOf(q) == Calling && ReadyFor(s, q.id) && Fits(q, s.jobs[Index(s.jobs, q.id)].state)
    ensures Fine(s, OnAnswer(s, q, r))
  {
    match q
    case Stat(id) => ConflictIsFine(s, id, r.found); return;
    case StatFree(id, candidate, attempt) => FreeNameAnswerIsFine(s, id, candidate, attempt, r.found); return;
    case _ => ActiveAnswerIsFine(s, q, r); return;
  }

  lemma ActiveAnswerIsFine(s: State, q: Request, r: Reply)
    requires IsStep(q) && ReadyFor(s, q.id) && s.jobs[Index(s.jobs, q.id)].state == Active
    ensures Fine(s, OnStepDone(s, q, r))
  {
    match q {
      case Transfer(id, firstLeg) => LegIsFine(s, id, firstLeg, r.ok, r.cancelled); return;
      case ReadLink(id, mustUnlink) => LinkReadIsFine(s, id, mustUnlink, r.ok); return;
      case Unlink(id) => UnlinkedIsFine(s, id, r.ok); return;
      case MakeLink(id) => FinishIsFine(s, id, if r.ok then Completed else Failed); return;
    }
  }

  lemma LinkReadIsFine(s: State, id: JobId, mustUnlink: bool, ok: bool)
    requires ReadyFor(s, id) && s.jobs[Index(s.jobs, id)].state == Active
    ensures Fine(s, OnLinkRead(s, id, mustUnlink, ok))
  {
    if !ok { FinishIsFine(s, id, Failed); } else { AgainIsFine(s, id, None, if mustUnlink then Unlink(id) else MakeLink(id)); }
  }

  lemma UnlinkedIsFine(s: State, id: JobId, ok: bool)
    requires ReadyFor(s, id) && s.jobs[Index(s.jobs, id)].state == Active
    ensures Fine(s, OnUnlinked(s, id, ok))
  {
    if ok { AgainIsFine(s, id, None, MakeLink(id)); } else { FinishIsFine(s, id, Failed); }
  }

  lemma AnsweredCallIsFine(s: State, q: Request, r: Reply)
    requires Good(ViewOf(s)) && q in s.out && ClassOf(q) == Calling
    ensures Fine(s, OnAnswer(Answered(s, q), q, r))
  {
    var t := Answered(s, q);
    CallAnswered(ViewOf(s), q);
    PosIsIndex(s.jobs, s.activeId);
    CallAnswerIsFine(t, q, r);
    FineAfterAnswer(s, q, OnAnswer(t, q, r));
  }

  lemma PromptAnswerIsFine(s: State, id: JobId, resolution: Resolution, applyToAll: bool)
    requires ReadyFor(s, id) && s.jobs[Index(s.jobs, id)].state == AwaitingResolution
    ensures Fine(s, OnPromptAnswered(s, id, resolution, applyToAll))
  {
    ResolveIsFine(if applyToAll then s.(config := s.config.(policy := resolution)) else s, id, resolution);
  }

  /** Taking an answer off the wire moves no job. */
  lemma FineAfterAnswer(s: State, q: Request, t: State)
    requires Fine(Answered(s, q), t)
    ensures Fine(s, t)
  {
    var v, u := ViewOf(s), ViewOf(Answered(s, q));
    assert v.rows == u.rows && v.nextId == u.nextId;
  }

  lemma PromptTaken(s: State, id: JobId)
    requires Good(ViewOf(s)) && Prompt(id) in s.out
    ensures var t, i := Answered(s, Prompt(id)), Index(s.jobs, id);
            if i < |s.jobs| && s.jobs[i].state == AwaitingResolution then ReadyFor(t, id) else Fine(t, t)
  {
    PromptAnswered(ViewOf(s), id);
    PosIsIndex(s.jobs, id);
  }

  lemma AnsweredPromptIsFine(s: State, id: JobId, r: Reply)
    requires Good(ViewOf(s)) && Prompt(id) in s.out
    ensures Fine(s, OnPromptAnswered(Answered(s, Prompt(id)), id, r.resolution, r.applyToAll))
  {
    var t := Answered(s, Prompt(id));
    PromptTaken(s, id);
    var i := Index(s.jobs, id);
    if i < |s.jobs| && s.jobs[i].state == AwaitingResolution { PromptAnswerIsFine(t, id, r.resolution, r.applyToAll); }
    FineAfterAnswer(s, Prompt(id), OnPromptAnswered(t, id, r.resolution, r.applyToAll));
  }
}
