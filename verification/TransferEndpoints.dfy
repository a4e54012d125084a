/** When the transfer queue goes through an endpoint that is not there any more. Closing a file system clears the
    endpoints of the jobs that use it (src/fs/TransferQueue.cpp:1109-1123), and what was asked about such a job before
    is answered all the same. */
module TransferEndpoints {
  import opened Style
  import opened TransferQueue
  import opened TransferSafety
  import opened TransferSlot
  import opened TransferDiscipline
  import opened TransferBreaks
  import opened TransferBatches
  import opened TransferTargets
  import opened TransferDebts
  import opened TransferClosing

  /** The endpoint as it was, or without the file system that closed. */
  predicate Severed(a: Endpoint, b: Endpoint, fs: nat) {
    b == a || b == Disconnected(a, fs)
  }

  predicate SeveredJob(a: Job, b: Job, fs: nat) {
    b.id == a.id && b.kind == a.kind && Severed(a.source, b.source, fs) && Severed(a.destination, b.destination, fs)
  }

  predicate SeveredJobs(a: seq<Job>, b: seq<Job>, fs: nat) {
    |a| == |b| && forall i | 0 <= i < |a| :: SeveredJob(a[i], b[i], fs)
  }

  lemma SeveredThenSame(a: seq<Job>, b: seq<Job>, c: seq<Job>, fs: nat)
    requires SeveredJobs(a, b, fs) && SameEnds(b, c)
    ensures SeveredJobs(a, c, fs)
  {
    forall i | 0 <= i < |a| ensures SeveredJob(a[i], c[i], fs) { assert SeveredJob(a[i], b[i], fs); }
  }

  lemma DroppedIsSevered(s: State, i: nat, fs: nat)
    requires i < |s.jobs|
    ensures SeveredJobs(s.jobs, Dropped(s, i, fs).jobs, fs)
  {}

  lemma PumpSevers(s: State, u: State, fs: nat)
    requires SeveredJobs(s.jobs, u.jobs, fs)
    ensures SeveredJobs(s.jobs, Pump(u).jobs, fs)
  {
    PumpOnlyLooks(u);
    SeveredThenSame(s.jobs, u.jobs, Pump(u).jobs, fs);
  }

  lemma DropSevers(s: State, id: JobId, fs: nat)
    ensures SeveredJobs(s.jobs, DropJob(s, id, fs).jobs, fs)
  {
    var i := Index(s.jobs, id);
    if i == |s.jobs| { PumpSevers(s, SlotFreed(s, id), fs); return; }
    DropIsPump(s, id, fs);
    DroppedIsSevered(s, i, fs);
    PumpSevers(s, SlotFreed(Dropped(s, i, fs), id), fs);
  }

  lemma {:induction false} DropsSever(s: State, ids: seq<JobId>, fs: nat, i: nat)
    requires i < |s.jobs|
    ensures |DropJobs(s, ids, fs).jobs| == |s.jobs| && SeveredJob(s.jobs[i], DropJobs(s, ids, fs).jobs[i], fs)
    decreases |ids|
  {
    if ids != [] {
      DropSevers(s, ids[0], fs);
      DropsSever(DropJob(s, ids[0], fs), ids[1..], fs, i);
    }
  }

  // ------------------------------------------------------- the answers that go through it

  /** The job is there, without its destination. */
  predicate Adrift(s: State, id: JobId) {
    Index(s.jobs, id) < |s.jobs| && DestinationOf(s.jobs, id) == None
  }

  lemma IssuedThere(s: State, q: Request, weighed: bool)
    requires !IsPrompt(q) && TargetOf(s, q) == None
    ensures s.log <= Issue(s, q, weighed).log && AskedAt(s, Issue(s, q, weighed), None)
  {
    assert MadeAt(Issue(s, q, weighed).log[|s.log|], None);
  }

  lemma NextStepAsks(s: State, q: Request)
    requires q in s.out && (q.ReadLink? || q.Unlink? || (q.Transfer? && q.firstLeg)) && Adrift(s, q.id)
    ensures var t := Answered(s, q);
            Handle(s, Answer(q, GO)) == match q
              case Transfer(id, _) => Issue(t.(activeOwner := None), Transfer(id, false), true)
              case ReadLink(id, true) => Issue(t, Unlink(id), true)
              case _ => Issue(t, MakeLink(q.id), true)
  {}

  /** A link read, a file unlinked or a first leg done: the next step is at the destination. */
  lemma NextStepIsLost(s: State, q: Request)
    requires q in s.out && (q.ReadLink? || q.Unlink? || (q.Transfer? && q.firstLeg)) && Adrift(s, q.id)
    ensures LeadsThere(s, None)
  {
    var t := Answered(s, q);
    match q {
      case Transfer(id, _) => IssuedThere(t.(activeOwner := None), Transfer(id, false), true);
      case Unlink(id) => IssuedThere(t, MakeLink(id), true);
      case ReadLink(id, mustUnlink) => IssuedThere(t, if mustUnlink then Unlink(id) else MakeLink(id), true);
    }
    NextStepAsks(s, q);
    LedThereAtOnce(s, Answer(q, GO), None);
  }

  /** A free name known: the job is sent on its way, relayed if need be. */
  lemma FreeNameIsLost(s: State, q: Request)
    requires q in s.out && q.StatFree? && Index(s.jobs, q.id) < |s.jobs|
    requires SourceOf(s.jobs, q.id) == None || DestinationOf(s.jobs, q.id) == None
    ensures LeadsThere(s, None)
  {
    var e := ConfigureEvent(s.config.(relayRoot := true));
    var t := Handle(s, e);
    NamedIsLost(t, q);
    LedThereAtOnce(s, e, None);
  }

  lemma NamedIsLost(s: State, q: Request)
    requires q in s.out && q.StatFree? && Index(s.jobs, q.id) < |s.jobs| && s.config.relayRoot
    requires SourceOf(s.jobs, q.id) == None || DestinationOf(s.jobs, q.id) == None
    ensures LeadsThere(s, None)
  {
    var i := Index(s.jobs, q.id);
    var job := s.jobs[i].(destPath := q.candidate, destExisted := false, state := Active);
    var u := WithJob(Answered(s, q), i, job);
    IdsFound(s.jobs, u.jobs, q.id);
    var t := Handle(s, Answer(q, GO));
    NamedStarts(s, q);
    LaunchIsLost(u, q.id);
    if AskedAt(u, t, None) { LedThereAtOnce(s, Answer(q, GO), None); return; }
    var next := if job.kind == LinkJob then ReadLink(q.id, false) else Transfer(q.id, true);
    NextStepIsLost(t, next);
    LedThereAtOnce(s, Answer(q, GO), None);
  }

  lemma StartsNamed(s: State, id: JobId)
    requires Index(s.jobs, id) < |s.jobs|
    ensures var i := Index(s.jobs, id);
            StartTransfer(s, id) == Launched(WithJob(s, i, s.jobs[i].(state := Active)), id, s.jobs[i].(state := Active))
  {}

  lemma NamedStarts(s: State, q: Request)
    requires q in s.out && q.StatFree? && Index(s.jobs, q.id) < |s.jobs|
    ensures var i := Index(s.jobs, q.id);
            var job := s.jobs[i].(destPath := q.candidate, destExisted := false, state := Active);
            Handle(s, Answer(q, GO)) == Launched(WithJob(Answered(s, q), i, job), q.id, job)
  {
    var t := Answered(s, q);
    var i := Index(s.jobs, q.id);
    var named := t.jobs[i].(destPath := q.candidate, destExisted := false);
    IdsFound(t.jobs, t.jobs[i := named], q.id);
    StartsNamed(WithJob(t, i, named), q.id);
    assert t.jobs[i := named][i := named.(state := Active)] == t.jobs[i := named.(state := Active)];
  }

  /** Sent without one of its endpoints a job is asked about through it at once, or with its second step. */
  ghost predicate LostSoon(s: State, t: State, q: Request)
    requires ClassOf(q) == Calling
  {
    s.log <= t.log && (AskedAt(s, t, None) || (Adrift(t, q.id) && q in t.out))
  }

  lemma IssuedSoon(s: State, owner: Option<nat>, q: Request)
    requires ClassOf(q) == Calling
    requires TargetOf(s.(activeOwner := owner), q) == None || Adrift(s, q.id)
    ensures LostSoon(s, Issue(s.(activeOwner := owner), q, true), q)
  {
    var t := s.(activeOwner := owner);
    assert q in Issue(t, q, true).out;
    if TargetOf(t, q) == None { IssuedThere(t, q, true); }
  }

  lemma LaunchIsLost(s: State, id: JobId)
    requires Index(s.jobs, id) < |s.jobs| && s.config.relayRoot
    requires SourceOf(s.jobs, id) == None || DestinationOf(s.jobs, id) == None
    ensures var job := s.jobs[Index(s.jobs, id)];
            LostSoon(s, Launched(s, id, job), if job.kind == LinkJob then ReadLink(id, job.destExisted) else Transfer(id, true))
  {
    var job := s.jobs[Index(s.jobs, id)];
    if job.kind == LinkJob { IssuedSoon(s, s.activeOwner, ReadLink(id, job.destExisted)); return; }
    if job.destination.IsLocalDisk() || job.source.IsLocalDisk() { IssuedThere(s.(activeOwner := None), Transfer(id, false), true); return; }
    IssuedSoon(s, job.source.fs, Transfer(id, true));
  }

  // -------------------------------------------------------------------- main result

  /** The jobs of a closing file system lose just that endpoint. */
  lemma MemberIsSevered(s: State, i: nat, fs: nat)
    requires Good(ViewOf(s)) && i < |s.jobs| && Member(s.jobs[i], Using(fs))
    ensures var t := CancelJobsUsing(s, fs);
            && |t.jobs| == |s.jobs| && Index(t.jobs, s.jobs[i].id) == i
            && t.jobs[i].source.fs == Disconnected(s.jobs[i].source, fs).fs
            && t.jobs[i].destination.fs == Disconnected(s.jobs[i].destination, fs).fs
  {
    var t, ids := CancelJobsUsing(s, fs), Unfinishing(s.jobs, fs);
    GoodKnows(s);
    MembersAsListed(s.jobs);
    MembersAre(s.jobs, Using(fs));
    DropsPart(s, ids, fs, i);
    DropsSever(s, ids, fs, i);
    DropsKnow(s, ids, fs);
    NumberedFinds(t.jobs, t.nextId, i);
  }

  lemma UnsafeIsMember(s: State, fs: nat, q: Request) returns (k: nat)
    requires Good(ViewOf(s)) && q in s.out && ClassOf(q) == Calling && !CallShuns(s.jobs, q, Some(fs))
    ensures k < |s.jobs| && s.jobs[k].id == q.id && k == Index(s.jobs, q.id) && Member(s.jobs[k], Using(fs))
  {
    PosIsIndex(s.jobs, s.activeId);
    k := Index(s.jobs, s.activeId);
    assert ViewOf(s).rows[k] == Row(s.jobs[k].id, s.jobs[k].state);
    assert q.id == s.activeId;
  }

  /** A call that leads to the file system that closes goes through the missing endpoint. */
  lemma UnsafeIsLost(s: State, fs: nat, q: Request)
    requires Good(ViewOf(s)) && q in s.out && ClassOf(q) == Calling && !CallShuns(s.jobs, q, Some(fs))
    ensures LeadsThere(CancelJobsUsing(s, fs), None)
  {
    var k := UnsafeIsMember(s, fs, q);
    MemberIsSevered(s, k, fs);
    DropsKeepAsked(s, Unfinishing(s.jobs, fs), fs, q);
    SeveredIsLost(s, fs, q, CancelJobsUsing(s, fs), k);
  }

  lemma SeveredIsLost(s: State, fs: nat, q: Request, t: State, k: nat)
    requires ClassOf(q) == Calling && k < |s.jobs| && k == Index(s.jobs, q.id) && q in t.out && !CallShuns(s.jobs, q, Some(fs))
    requires |t.jobs| == |s.jobs| && Index(t.jobs, q.id) == k
    requires t.jobs[k].source.fs == Disconnected(s.jobs[k].source, fs).fs && t.jobs[k].destination.fs == Disconnected(s.jobs[k].destination, fs).fs
    ensures LeadsThere(t, None)
  {
    if q.StatFree? { FreeNameIsLost(t, q); } else { NextStepIsLost(t, q); }
  }

  lemma ClosesSafely(s: State, fs: nat)
    requires Sane(s) && SafeClose(s, fs)
    ensures Silent(s, CancelJobsUsing(s, fs), None) && !LeadsThere(CancelJobsUsing(s, fs), None)
  {
    var t := CancelJobsUsing(s, fs);
    DropsAvoid(s, Unfinishing(s.jobs, fs), fs, None);
    DroppingIsSound(s, Unfinishing(s.jobs, fs), fs);
    forall events | Later(t, events, None) ensures !AskedAt(t, Run(t, events), None) { NothingIsLost(t, events); }
  }

  ghost function UnsafeCall(s: State, fs: nat): (q: Request)
    requires !SafeClose(s, fs)
    ensures q in s.out && ClassOf(q) == Calling && !CallShuns(s.jobs, q, Some(fs))
  {
    var q :| q in s.out && ClassOf(q) == Calling && !CallShuns(s.jobs, q, Some(fs));
    q
  }

  /** Closing a file system is safe exactly when no call outstanding leads to it: then neither the closing nor
      anything quiet that may follow goes through a missing endpoint, and otherwise something that may follow does. */
  lemma SafeCloseExactly(s: State, fs: nat)
    requires Sane(s)
    ensures var t := CancelJobsUsing(s, fs);
            && (SafeClose(s, fs) <==> !LeadsThere(t, None))
            && (SafeClose(s, fs) ==> Silent(s, t, None))
  {
    if SafeClose(s, fs) { ClosesSafely(s, fs); } else { UnsafeIsLost(s, fs, UnsafeCall(s, fs)); }
  }

  lemma {:induction false} QuietIsElsewhere(s: State, events: seq<Event>)
    requires Later(s, events, None)
    ensures AllElsewhere(s, events, None)
    decreases |events|
  {
    if events != [] {
      assert Quiet(events[0]) && NewElsewhere(events[0], None);
      QuietIsElsewhere(Handle(s, events[0]), events[1..]);
    }
  }

  lemma NothingIsLost(s: State, events: seq<Event>)
    requires Sound(s) && Shuns(s, None) && Later(s, events, None)
    ensures !AskedAt(s, Run(s, events), None)
  {
    QuietIsElsewhere(s, events);
    EveryRunAvoids(s, events, None);
  }
}
