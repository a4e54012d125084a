/** What a transfer does about a destination that is taken (src/fs/TransferQueue.cpp:668-995): what each answer about a
    job leads to, and, over every run, that nothing is written where something was found unless the user, the policy
    or a free name allowed it. */
module TransferConflicts {
  import opened Style
  import opened TransferQueue
  import opened TransferTargets
  import opened TransferSchedule
  import RemotePath

  // ------------------------------------------------------------- what an answer leads to

  /** The job has come to its end: nothing more is asked for it, its path and its ends are what they were, and of the
      other jobs one may have been looked at or refused. */
  ghost predicate Ended(s: State, t: State, i: nat, outcome: JobState)
    requires i < |s.jobs|
  {
    && |t.jobs| == |s.jobs| && s.log <= t.log && JobKept(s.jobs[i].(state := outcome), t.jobs[i], false) && t.jobs[i].state == outcome
    && (forall j | 0 <= j < |s.jobs| && j != i :: JobKept(s.jobs[j], t.jobs[j], false))
    && (forall k | |s.log| <= k < |t.log| :: LooksAhead(s, t.log[k].request) && !Concerns(t.log[k].request, s.jobs[i].id))
    && (forall q | q in t.out :: q in s.out || (LooksAhead(s, q) && !Concerns(q, s.jobs[i].id)))
    && t.config == s.config && t.nextId == s.nextId
  }

  predicate Concerns(q: Request, id: JobId) {
    Personal(q) && q.id == id
  }

  /** The job is as given, and one request is made about it, at that file system. */
  predicate Asked(s: State, t: State, i: nat, job: Job, q: Request, target: Option<nat>)
    requires i < |s.jobs|
  {
    && t.jobs == s.jobs[i := job] && t.nextId == s.nextId && t.config == s.config && t.out == s.out + multiset{q}
    && s.log <= t.log && |t.log| == |s.log| + 1 && t.log[|s.log|].request == q && t.log[|s.log|].target == target
  }

  /** Which request sends a job on its way, and where to; none if it needs a relay and there is no place for one. */
  function Way(job: Job, relayRoot: bool): Option<(Request, Option<nat>)> {
    if job.kind == LinkJob then Some((ReadLink(job.id, job.destExisted), job.source.fs))
    else if job.destination.IsLocalDisk() then Some((Transfer(job.id, false), job.source.fs))
    else if job.source.IsLocalDisk() then Some((Transfer(job.id, false), job.destination.fs))
    else if relayRoot then Some((Transfer(job.id, true), job.source.fs))
    else None
  }

  /** The job is under way with that path, or has failed for want of a place to relay it through. */
  ghost predicate SetsOut(s: State, t: State, i: nat, job: Job)
    requires i < |s.jobs|
  {
    var way := Way(job, s.config.relayRoot);
    if way.Some? then Asked(s, t, i, job.(state := Active), way.value.0, way.value.1)
    else Ended(WithJob(s, i, job.(state := Active)), t, i, Failed)
  }

  /** The job is listed, and is the only one with its id. */
  predicate Here(s: State, i: nat, id: JobId) {
    Numbered(s.jobs, s.nextId) && i < |s.jobs| && s.jobs[i].id == id
  }

  lemma HereIsIndex(s: State, i: nat, id: JobId)
    requires Here(s, i, id)
    ensures Index(s.jobs, id) == i
  {
    assert Index(s.jobs, id) < |s.jobs|;
  }

  lemma StillHere(s: State, i: nat, id: JobId, job: Job)
    requires Here(s, i, id) && job.id == id
    ensures Here(WithJob(s, i, job), i, id)
  {}

  lemma EndedByFinishing(s: State, i: nat, id: JobId, outcome: JobState)
    requires Here(s, i, id) && outcome.Terminal()
    ensures Ended(s, FinishJob(s, id, outcome), i, outcome)
  {
    HereIsIndex(s, i, id);
    var u := Retired(s, i, outcome);
    PumpSched(u);
    var t := Pump(u);
    SameAfterRetiring(s, i, id, outcome, t);
  }

  lemma SameAfterRetiring(s: State, i: nat, id: JobId, outcome: JobState, t: State)
    requires Here(s, i, id) && outcome.Terminal() && Sched(Retired(s, i, outcome), t, false) && |t.jobs| == |s.jobs|
    ensures Ended(s, t, i, outcome)
  {
    var u := Retired(s, i, outcome);
    assert JobKept(u.jobs[i], t.jobs[i], false);
    forall q | LooksAhead(u, q) ensures LooksAhead(s, q) && !Concerns(q, id) {
      if Personal(q) && q.id < s.nextId {
        var j :| 0 <= j < |u.jobs| && u.jobs[j].id == q.id && u.jobs[j].state == Queued;
        assert j != i && s.jobs[j] == u.jobs[j];
      }
    }
    forall j | 0 <= j < |s.jobs| && j != i ensures JobKept(s.jobs[j], t.jobs[j], false) {
      assert u.jobs[j] == s.jobs[j] && JobKept(u.jobs[j], t.jobs[j], false);
    }
  }

  lemma IssueAsks(s: State, i: nat, job: Job, u: State, q: Request, target: Option<nat>)
    requires i < |s.jobs| && u == WithJob(s, i, job).(activeOwner := u.activeOwner) && TargetOf(u, q) == target
    ensures Asked(s, Issue(u, q, true), i, job, q, target)
  {}

  lemma LaunchAsks(s: State, i: nat, id: JobId, job: Job)
    requires Here(s, i, id) && job.id == id && job.state.Active? && Way(job, s.config.relayRoot).Some?
    ensures var way := Way(job, s.config.relayRoot).value;
            Asked(s, Launched(WithJob(s, i, job), id, job), i, job, way.0, way.1)
  {
    var u, way := WithJob(s, i, job), Way(job, s.config.relayRoot).value;
    StillHere(s, i, id, job);
    HereIsIndex(u, i, id);
    IssueAsks(s, i, job, if way.0.ReadLink? then u else u.(activeOwner := way.1), way.0, way.1);
  }

  lemma SettingOut(s: State, i: nat, id: JobId)
    requires Here(s, i, id)
    ensures SetsOut(s, StartTransfer(s, id), i, s.jobs[i])
  {
    HereIsIndex(s, i, id);
    var job := s.jobs[i].(state := Active);
    if Way(job, s.config.relayRoot).Some? {
      LaunchAsks(s, i, id, job);
    } else {
      StillHere(s, i, id, job);
      EndedByFinishing(WithJob(s, i, job), i, id, Failed);
    }
  }

  /** The next name to try: in the same directory, numbered before the extension, and not the name that is taken. */
  predicate Renumbered(dest: string, candidate: string, attempt: nat, stem: string, extension: string) {
    && Extends(RemotePath.Leaf(dest), stem, extension)
    && candidate == RemotePath.Join(RemotePath.Parent(dest), stem + (" (" + Decimal(attempt) + ")") + extension)
    && candidate != dest
  }

  /** Another name is looked up, unless too many have been tried. */
  ghost predicate TriesName(s: State, t: State, i: nat, attempt: nat)
    requires i < |s.jobs|
  {
    var job := s.jobs[i];
    if attempt > MAX_RENAME_ATTEMPTS then Ended(s, t, i, Failed)
    else exists candidate, stem, extension :: Renumbered(job.destPath, candidate, attempt, stem, extension)
           && Asked(s, t, i, job, StatFree(job.id, candidate, attempt), job.destination.fs)
  }

  /** A name and its extension; a leading dot begins none. */
  predicate Extends(name: string, stem: string, extension: string) {
    && stem + extension == name
    && (extension == "" || (stem != "" && extension[0] == '.' && forall k | 0 < k < |extension| :: extension[k] != '.'))
  }

  lemma {:induction false} LastDotIsLast(name: string)
    ensures LastDot(name) >= 0 ==> name[LastDot(name)] == '.' && forall k | LastDot(name) < k < |name| :: name[k] != '.'
    decreases |name|
  {
    if name != "" && name[|name| - 1] != '.' { LastDotIsLast(name[..|name| - 1]); }
  }

  lemma NameSplits(name: string) returns (stem: string, extension: string)
    ensures Extends(name, stem, extension)
    ensures stem == if LastDot(name) <= 0 then name else name[..LastDot(name)]
    ensures extension == if LastDot(name) <= 0 then "" else name[LastDot(name)..]
  {
    var dot := LastDot(name);
    LastDotIsLast(name);
    if dot <= 0 {
      stem, extension := name, "";
      assert name + "" == name;
    } else {
      stem, extension := name[..dot], name[dot..];
      SplitAtLastDot(name, dot);
    }
  }

  lemma SplitAtLastDot(name: string, dot: nat)
    requires 0 < dot < |name| && name[dot] == '.' && forall k | dot < k < |name| :: name[k] != '.'
    ensures Extends(name, name[..dot], name[dot..])
  {
    var extension := name[dot..];
    forall k | 0 < k < |extension| ensures extension[k] != '.' { assert extension[k] == name[dot + k]; }
  }

  lemma CandidateIs(name: string, attempt: nat, stem: string, number: string, extension: string)
    requires number == " (" + Decimal(attempt) + ")"
    requires stem == if LastDot(name) <= 0 then name else name[..LastDot(name)]
    requires extension == if LastDot(name) <= 0 then "" else name[LastDot(name)..]
    ensures MakeUniqueCandidate(name, attempt) == stem + number + extension
  {
    if LastDot(name) <= 0 { assert stem + number + extension == name + number; }
  }

  /** A number in brackets. */
  predicate Bracketed(number: string) {
    |number| >= 4 && number[0] == ' ' && number[|number| - 1] == ')' && NoSlash(number)
  }

  lemma NumberIsBracketed(attempt: nat)
    ensures Bracketed(" (" + Decimal(attempt) + ")")
  {
    var digits := Decimal(attempt);
    DecimalIsDigits(attempt);
    var number := " (" + digits + ")";
    assert |number| == |digits| + 3 && forall k | 2 <= k < |number| - 1 :: number[k] == digits[k - 2];
  }

  lemma CandidateIsRenumbered(dest: string, attempt: nat) returns (stem: string, extension: string)
    ensures Renumbered(dest, RemotePath.Join(RemotePath.Parent(dest), MakeUniqueCandidate(RemotePath.Leaf(dest), attempt)), attempt, stem, extension)
  {
    stem, extension := NameSplits(RemotePath.Leaf(dest));
    NumberIsBracketed(attempt);
    var number := " (" + Decimal(attempt) + ")";
    CandidateIs(RemotePath.Leaf(dest), attempt, stem, number, extension);
    RenumberedDiffers(dest, stem, number, extension);
  }

  lemma {:induction false} TrimmedEnds(path: string)
    ensures var s := RemotePath.Trimmed(path);
            && s <= path && (|s| > 1 ==> s[|s| - 1] != '/') && (path != "" ==> s != "")
            && (s != path ==> path[|path| - 1] == '/')
    decreases |path|
  {
    if |path| > 1 && path[|path| - 1] == '/' { TrimmedEnds(path[..|path| - 1]); }
  }

  predicate NoSlash(name: string) {
    forall k | 0 <= k < |name| :: name[k] != '/'
  }

  lemma JoinEndsWith(dir: string, name: string)
    requires name != "" && name[0] != '/'
    ensures var path := RemotePath.Join(dir, name);
            && |path| >= |name| && path[|path| - 1] == name[|name| - 1]
            && |path| == |name| + (if dir == "" then 0 else if dir[|dir| - 1] == '/' then |dir| else |dir| + 1)
  {}

  /** A longer name in its place makes the path another one, trailing slashes or not. */
  lemma LongerNameDiffers(dest: string, name: string)
    requires dest != "" && RemotePath.Trimmed(dest) != "/" && NoSlash(name) && |name| >= |RemotePath.Leaf(dest)| + 4
    ensures RemotePath.Join(RemotePath.Parent(dest), name) != dest
  {
    TrimmedEnds(dest);
    JoinEndsWith(RemotePath.Parent(dest), name);
  }

  lemma LeafHasNoSlash(dest: string)
    requires dest != "" && RemotePath.Trimmed(dest) != "/"
    ensures RemotePath.Leaf(dest) != "" && NoSlash(RemotePath.Leaf(dest))
  {
    TrimmedEnds(dest);
  }

  lemma RenumberedDiffers(dest: string, stem: string, number: string, extension: string)
    requires Extends(RemotePath.Leaf(dest), stem, extension)
    requires Bracketed(number)
    ensures RemotePath.Join(RemotePath.Parent(dest), stem + number + extension) != dest
  {
    if dest == "" {
      JoinEndsWith("", stem + number + extension);
    } else if RemotePath.Trimmed(dest) == "/" {
      RootDiffers(dest, stem, number, extension);
    } else {
      LeafHasNoSlash(dest);
      LeafParts(stem, number, extension, RemotePath.Leaf(dest));
      LongerNameDiffers(dest, stem + number + extension);
    }
  }

  lemma RootDiffers(dest: string, stem: string, number: string, extension: string)
    requires dest != "" && RemotePath.Trimmed(dest) == "/" && stem + extension == "/" && (extension != "" ==> stem != "")
    requires |number| >= 4 && number[0] == ' ' && number[|number| - 1] == ')'
    ensures RemotePath.Join(RemotePath.Parent(dest), stem + number + extension) != dest
  {
    var name := stem + number + extension;
    TrimmedEnds(dest);
    SlashAlone(stem, extension);
    assert name[0] == '/' && name[1] == ' ' && name[|name| - 1] == ')';
    assert RemotePath.Join(RemotePath.Parent(dest), name) == name;
    assert dest == "/" || dest[|dest| - 1] == '/';
  }

  lemma SlashAlone(stem: string, extension: string)
    requires stem + extension == "/" && (extension != "" ==> stem != "")
    ensures stem == "/" && extension == ""
  {
    assert |stem| + |extension| == |stem + extension| == 1;
    if extension == "" { assert stem + extension == stem; }
  }

  lemma LeafParts(stem: string, number: string, extension: string, leaf: string)
    requires stem + extension == leaf && leaf != "" && NoSlash(leaf) && (extension != "" ==> stem != "")
    requires |number| >= 4 && NoSlash(number)
    ensures var name := stem + number + extension; NoSlash(name) && |name| >= |leaf| + 4
  {
    forall k | 0 <= k < |stem| ensures stem[k] != '/' { assert leaf[k] == stem[k]; }
    forall k | 0 <= k < |extension| ensures extension[k] != '/' { assert leaf[|stem| + k] == extension[k]; }
  }

  lemma {:induction false} DecimalIsDigits(n: nat)
    ensures Decimal(n) != "" && NoSlash(Decimal(n))
    decreases n
  {
    if n >= 10 { DecimalIsDigits(n / 10); }
  }

  // ------------------------------------------------------------------ answer by answer

  /** What each policy means for a job whose destination is taken. */
  ghost predicate Resolved(s: State, t: State, i: nat, policy: ConflictPolicy)
    requires i < |s.jobs|
  {
    match policy
    case Overwrite => SetsOut(s, t, i, s.jobs[i])
    case Skip => Ended(s, t, i, Skipped)
    case Rename => TriesName(s, t, i, 1)
    case Ask =>
      if s.config.hasPrompt then Asked(s, t, i, s.jobs[i].(state := AwaitingResolution), Prompt(s.jobs[i].id), None)
      else Ended(s, t, i, Skipped)
  }

  lemma TryingName(s: State, i: nat, id: JobId, attempt: nat)
    requires Here(s, i, id)
    ensures TriesName(s, ResolveFreeName(s, id, attempt), i, attempt)
  {
    HereIsIndex(s, i, id);
    if attempt > MAX_RENAME_ATTEMPTS {
      EndedByFinishing(s, i, id, Failed);
    } else {
      var dest := s.jobs[i].destPath;
      var stem, extension := CandidateIsRenumbered(dest, attempt);
      NameIsAsked(s, i, id, RemotePath.Join(RemotePath.Parent(dest), MakeUniqueCandidate(RemotePath.Leaf(dest), attempt)), attempt);
    }
  }

  lemma NameIsAsked(s: State, i: nat, id: JobId, candidate: string, attempt: nat)
    requires Here(s, i, id)
    ensures Asked(s, Issue(s, StatFree(id, candidate, attempt), true), i, s.jobs[i], StatFree(id, candidate, attempt), s.jobs[i].destination.fs)
  {
    HereIsIndex(s, i, id);
    assert s.jobs[i := s.jobs[i]] == s.jobs;
    IssueAsks(s, i, s.jobs[i], s, StatFree(id, candidate, attempt), s.jobs[i].destination.fs);
  }

  lemma Resolving(s: State, i: nat, id: JobId, resolution: Resolution)
    requires Here(s, i, id)
    ensures Resolved(s, TransferQueue.Resolve(s, id, resolution), i, resolution)
  {
    match resolution
    case Overwrite => SettingOut(s, i, id);
    case Skip => EndedByFinishing(s, i, id, Skipped);
    case Rename => TryingName(s, i, id, 1);
  }

  /** The first look: nothing there, and the job sets out; something there, and what the policy means happens to a job that
      knows it. */
  lemma LookIsHeeded(s: State, i: nat, id: JobId, r: Reply)
    requires Here(s, i, id) && s.jobs[i].state == Checking && Stat(id) in s.out
    ensures var u, t := Answered(s, Stat(id)), Handle(s, Answer(Stat(id), r));
            if !r.found then SetsOut(u, t, i, s.jobs[i])
            else Resolved(WithJob(u, i, s.jobs[i].(destExisted := true)), t, i, s.config.policy)
  {
    var u := Answered(s, Stat(id));
    HereIsIndex(u, i, id);
    if !r.found { SettingOut(u, i, id); return; }
    var taken := WithJob(u, i, s.jobs[i].(destExisted := true));
    StillHere(u, i, id, taken.jobs[i]);
    HereIsIndex(taken, i, id);
    if s.config.policy != Ask { Resolving(taken, i, id, s.config.policy); }
    else if !s.config.hasPrompt { EndedByFinishing(taken, i, id, Skipped); }
  }

  /** A prompt's answer means what the policy of that name means, once or from now on; it means nothing to a job that does
      not wait for it. */
  lemma PromptIsHeeded(s: State, i: nat, id: JobId, r: Reply)
    requires Here(s, i, id) && Prompt(id) in s.out
    ensures var u, t := Answered(s, Prompt(id)), Handle(s, Answer(Prompt(id), r));
            var asked := if r.applyToAll then u.(config := u.config.(policy := r.resolution)) else u;
            if s.jobs[i].state == AwaitingResolution then Resolved(asked, t, i, r.resolution) else t == u
  {
    var u := Answered(s, Prompt(id));
    assert Handle(s, Answer(Prompt(id), r)) == OnPromptAnswered(u, id, r.resolution, r.applyToAll);
    PromptMeans(u, i, id, r.resolution, r.applyToAll);
  }

  lemma PromptMeans(s: State, i: nat, id: JobId, resolution: Resolution, applyToAll: bool)
    requires Here(s, i, id)
    ensures var asked, t := if applyToAll then s.(config := s.config.(policy := resolution)) else s, OnPromptAnswered(s, id, resolution, applyToAll);
            if s.jobs[i].state == AwaitingResolution then Resolved(asked, t, i, resolution) else t == s
  {
    HereIsIndex(s, i, id);
    if s.jobs[i].state == AwaitingResolution {
      Resolving(if applyToAll then s.(config := s.config.(policy := resolution)) else s, i, id, resolution);
    }
  }

  /** A name that is free becomes the job's path; one that is not is followed by the next. */
  lemma NameIsHeeded(s: State, i: nat, id: JobId, candidate: string, attempt: nat, r: Reply)
    requires Here(s, i, id) && StatFree(id, candidate, attempt) in s.out
    ensures var q := StatFree(id, candidate, attempt);
            var u, t := Answered(s, q), Handle(s, Answer(q, r));
            if r.found then TriesName(u, t, i, attempt + 1)
            else
              var renamed := WithJob(u, i, s.jobs[i].(destPath := candidate, destExisted := false));
              SetsOut(renamed, t, i, renamed.jobs[i])
  {
    var u := Answered(s, StatFree(id, candidate, attempt));
    HereIsIndex(u, i, id);
    if r.found { TryingName(u, i, id, attempt + 1); return; }
    var renamed := WithJob(u, i, s.jobs[i].(destPath := candidate, destExisted := false));
    StillHere(u, i, id, renamed.jobs[i]);
    SettingOut(renamed, i, id);
  }

  /** Which request follows a good step, if it was not the last. */
  function NextStep(q: Request): Option<Request>
    requires IsStep(q)
  {
    match q
    case Transfer(id, firstLeg) => if firstLeg then Some(Transfer(id, false)) else None
    case ReadLink(id, mustUnlink) => Some(if mustUnlink then Unlink(id) else MakeLink(id))
    case Unlink(id) => Some(MakeLink(id))
    case MakeLink(_) => None
  }

  /** A step that failed ends its job, as cancelled if that is why; a good last one completes it; any other is followed
      by the next, at the destination. */
  lemma StepIsHeeded(s: State, i: nat, id: JobId, q: Request, r: Reply)
    requires Here(s, i, id) && IsStep(q) && q.id == id && q in s.out
    ensures var u, t := Answered(s, q), Handle(s, Answer(q, r));
            if !r.ok then Ended(u, t, i, if q.Transfer? && r.cancelled then Cancelled else Failed)
            else if NextStep(q).None? then Ended(u, t, i, Completed)
            else Asked(u, t, i, s.jobs[i], NextStep(q).value, s.jobs[i].destination.fs)
  {
    var u := Answered(s, q);
    if !r.ok || NextStep(q).None? { StepFinishes(u, i, id, q, r); } else { StepGoesOn(u, i, id, q, r); }
  }

  lemma StepFinishes(s: State, i: nat, id: JobId, q: Request, r: Reply)
    requires Here(s, i, id) && IsStep(q) && q.id == id && (!r.ok || NextStep(q).None?)
    ensures Ended(s, OnStepDone(s, q, r), i, if r.ok then Completed else if q.Transfer? && r.cancelled then Cancelled else Failed)
  {
    HereIsIndex(s, i, id);
    EndedByFinishing(s, i, id, if r.ok then Completed else if q.Transfer? && r.cancelled then Cancelled else Failed);
  }

  lemma StepGoesOn(s: State, i: nat, id: JobId, q: Request, r: Reply)
    requires Here(s, i, id) && IsStep(q) && q.id == id && r.ok && NextStep(q).Some?
    ensures Asked(s, OnStepDone(s, q, r), i, s.jobs[i], NextStep(q).value, s.jobs[i].destination.fs)
  {
    var next := NextStep(q).value;
    HereIsIndex(s, i, id);
    assert s.jobs[i := s.jobs[i]] == s.jobs;
    IssueAsks(s, i, s.jobs[i], if next.Transfer? then s.(activeOwner := s.jobs[i].destination.fs) else s, next, s.jobs[i].destination.fs);
  }

  // ------------------------------------------------------- what allows a job to write, and where

  /** Carrying a job out: moving its bytes, or reading, replacing and making its link. */
  predicate CarriesOut(q: Request) {
    q.Transfer? || q.ReadLink? || q.Unlink? || q.MakeLink?
  }

  /** The paths jobs may write, as the answers so far allow: where the first look found nothing; where it found something,
      if the policy then, or the prompt's answer, was to overwrite; and where a free name was looked for and nothing is. */
  function LicencesAfter(s: State, licences: map<JobId, string>, e: Event): map<JobId, string> {
    if !e.Answer? || !Personal(e.request) then licences
    else
      var (q, r) := (e.request, e.reply);
      var i := Index(s.jobs, q.id);
      match q
      case Stat(id) =>
        if i < |s.jobs| && s.jobs[i].state == Checking && (!r.found || s.config.policy == Overwrite)
        then licences[id := s.jobs[i].destPath] else licences
      case Prompt(id) =>
        if i < |s.jobs| && s.jobs[i].state == AwaitingResolution && r.resolution == Overwrite
        then licences[id := s.jobs[i].destPath] else licences
      case StatFree(id, candidate, _) => if r.found then licences else licences[id := candidate]
      case _ => licences
  }

  /** A job that has a licence is bound for the path it is for, and whatever carries a job out has one. */
  ghost predicate Licensed(s: State, licences: map<JobId, string>) {
    && Numbered(s.jobs, s.nextId)
    && (forall id | id in licences :: id < s.nextId)
    && (forall j | 0 <= j < |s.jobs| && s.jobs[j].id in licences :: s.jobs[j].destPath == licences[s.jobs[j].id])
    && (forall q | q in s.out && CarriesOut(q) :: q.id in licences)
    && (forall q | q in s.out && Personal(q) && !q.Stat? :: q.id < s.nextId)
  }

  /** Whatever is newly asked to carry a job out is asked for one that has a licence. */
  ghost predicate NewIsLicensed(s: State, t: State, licences: map<JobId, string>) {
    s.log <= t.log && forall k | |s.log| <= k < |t.log| && CarriesOut(t.log[k].request) :: t.log[k].request.id in licences
  }

  lemma SchedLicensed(s: State, t: State, cancels: bool, licences: map<JobId, string>)
    requires Licensed(s, licences) && Sched(s, t, cancels)
    ensures Licensed(t, licences) && NewIsLicensed(s, t, licences)
  {
    forall j | 0 <= j < |t.jobs|
      ensures t.jobs[j].id == (if j < |s.jobs| then s.jobs[j].id else s.nextId + j - |s.jobs|)
      ensures j < |s.jobs| ==> t.jobs[j].destPath == s.jobs[j].destPath
    {
      if j < |s.jobs| { assert JobKept(s.jobs[j], t.jobs[j], cancels); } else { assert Added(t.jobs[j], s.nextId + j - |s.jobs|); }
    }
  }

  lemma EndedLicensed(s: State, t: State, i: nat, outcome: JobState, licences: map<JobId, string>)
    requires i < |s.jobs| && Licensed(s, licences) && Ended(s, t, i, outcome)
    ensures Licensed(t, licences) && NewIsLicensed(s, t, licences)
  {
    forall j | 0 <= j < |t.jobs| ensures t.jobs[j].id == s.jobs[j].id && t.jobs[j].destPath == s.jobs[j].destPath {
      if j != i { assert JobKept(s.jobs[j], t.jobs[j], false); }
    }
  }

  lemma AskedLicensed(s: State, t: State, i: nat, job: Job, q: Request, target: Option<nat>, licences: map<JobId, string>)
    requires i < |s.jobs| && Licensed(s, licences) && Asked(s, t, i, job, q, target)
    requires job.id == s.jobs[i].id && job.destPath == s.jobs[i].destPath && Concerns(q, job.id)
    requires CarriesOut(q) ==> job.id in licences
    ensures Licensed(t, licences) && NewIsLicensed(s, t, licences)
  {
    forall j | 0 <= j < |t.jobs| ensures t.jobs[j].id == s.jobs[j].id && t.jobs[j].destPath == s.jobs[j].destPath {}
    forall r | r in t.out ensures r == q || r in s.out {}
  }

  /** A job that is set out with a licence for its path. */
  lemma SetsOutLicensed(s: State, t: State, i: nat, licences: map<JobId, string>)
    requires i < |s.jobs| && Licensed(s, licences) && SetsOut(s, t, i, s.jobs[i]) && s.jobs[i].id in licences
    ensures Licensed(t, licences) && NewIsLicensed(s, t, licences)
  {
    var job := s.jobs[i].(state := Active);
    var way := Way(s.jobs[i], s.config.relayRoot);
    if way.Some? {
      AskedLicensed(s, t, i, job, way.value.0, way.value.1, licences);
    } else {
      EditLicensed(s, i, job, licences);
      EndedLicensed(WithJob(s, i, job), t, i, Failed, licences);
    }
  }

  lemma EditLicensed(s: State, i: nat, job: Job, licences: map<JobId, string>)
    requires i < |s.jobs| && Licensed(s, licences) && job.id == s.jobs[i].id
    requires job.id in licences ==> job.destPath == licences[job.id]
    ensures Licensed(WithJob(s, i, job), licences)
  {}

  lemma TriesLicensed(s: State, t: State, i: nat, attempt: nat, licences: map<JobId, string>)
    requires i < |s.jobs| && Licensed(s, licences) && TriesName(s, t, i, attempt)
    ensures Licensed(t, licences) && NewIsLicensed(s, t, licences)
  {
    var job := s.jobs[i];
    if attempt > MAX_RENAME_ATTEMPTS { EndedLicensed(s, t, i, Failed, licences); return; }
    var candidate, stem, extension :| Renumbered(job.destPath, candidate, attempt, stem, extension)
      && Asked(s, t, i, job, StatFree(job.id, candidate, attempt), job.destination.fs);
    AskedLicensed(s, t, i, job, StatFree(job.id, candidate, attempt), job.destination.fs, licences);
  }

  /** Whatever the policy means; to overwrite it has to be a licence. */
  lemma ResolvedLicensed(s: State, t: State, i: nat, policy: ConflictPolicy, licences: map<JobId, string>)
    requires i < |s.jobs| && Licensed(s, licences) && Resolved(s, t, i, policy) && (policy == Overwrite ==> s.jobs[i].id in licences)
    ensures Licensed(t, licences) && NewIsLicensed(s, t, licences)
  {
    match policy
    case Overwrite => SetsOutLicensed(s, t, i, licences);
    case Skip => EndedLicensed(s, t, i, Skipped, licences);
    case Rename => TriesLicensed(s, t, i, 1, licences);
    case Ask =>
      if s.config.hasPrompt {
        AskedLicensed(s, t, i, s.jobs[i].(state := AwaitingResolution), Prompt(s.jobs[i].id), None, licences);
      } else {
        EndedLicensed(s, t, i, Skipped, licences);
      }
  }

  lemma AnsweredLicensed(s: State, q: Request, licences: map<JobId, string>)
    requires Licensed(s, licences)
    ensures Licensed(Answered(s, q), licences)
  {
    forall r | r in Answered(s, q).out ensures r in s.out {}
  }

  lemma GrantLicensed(s: State, i: nat, licences: map<JobId, string>)
    requires i < |s.jobs| && Licensed(s, licences)
    ensures Licensed(s, licences[s.jobs[i].id := s.jobs[i].destPath])
  {}

  lemma LookLicensed(s: State, i: nat, id: JobId, r: Reply, licences: map<JobId, string>)
    requires Licensed(s, licences) && Here(s, i, id) && s.jobs[i].state == Checking && Stat(id) in s.out
    ensures var e := Answer(Stat(id), r);
            var after := LicencesAfter(s, licences, e);
            Licensed(Handle(s, e), after) && NewIsLicensed(s, Handle(s, e), after)
  {
    var e := Answer(Stat(id), r);
    var u, t, after := Answered(s, Stat(id)), Handle(s, e), LicencesAfter(s, licences, e);
    HereIsIndex(s, i, id);
    LookIsHeeded(s, i, id, r);
    AnsweredLicensed(s, Stat(id), licences);
    GrantLicensed(u, i, licences);
    if !r.found { SetsOutLicensed(u, t, i, after); return; }
    EditLicensed(u, i, s.jobs[i].(destExisted := true), after);
    ResolvedLicensed(WithJob(u, i, s.jobs[i].(destExisted := true)), t, i, s.config.policy, after);
  }

  lemma PromptLicensed(s: State, i: nat, id: JobId, r: Reply, licences: map<JobId, string>)
    requires Licensed(s, licences) && Here(s, i, id) && Prompt(id) in s.out
    ensures var e := Answer(Prompt(id), r);
            var after := LicencesAfter(s, licences, e);
            Licensed(Handle(s, e), after) && NewIsLicensed(s, Handle(s, e), after)
  {
    var e := Answer(Prompt(id), r);
    var u, t, after := Answered(s, Prompt(id)), Handle(s, e), LicencesAfter(s, licences, e);
    HereIsIndex(s, i, id);
    PromptIsHeeded(s, i, id, r);
    AnsweredLicensed(s, Prompt(id), licences);
    GrantLicensed(u, i, licences);
    if s.jobs[i].state == AwaitingResolution {
      ResolvedLicensed(if r.applyToAll then u.(config := u.config.(policy := r.resolution)) else u, t, i, r.resolution, after);
    }
  }

  lemma NameLicensed(s: State, i: nat, id: JobId, candidate: string, attempt: nat, r: Reply, licences: map<JobId, string>)
    requires Licensed(s, licences) && Here(s, i, id) && StatFree(id, candidate, attempt) in s.out
    ensures var e := Answer(StatFree(id, candidate, attempt), r);
            var after := LicencesAfter(s, licences, e);
            Licensed(Handle(s, e), after) && NewIsLicensed(s, Handle(s, e), after)
  {
    var q := StatFree(id, candidate, attempt);
    var u, t := Answered(s, q), Handle(s, Answer(q, r));
    NameIsHeeded(s, i, id, candidate, attempt, r);
    AnsweredLicensed(s, q, licences);
    if r.found { TriesLicensed(u, t, i, attempt + 1, licences); return; }
    var renamed := WithJob(u, i, s.jobs[i].(destPath := candidate, destExisted := false));
    RenamedLicensed(u, i, renamed.jobs[i], licences);
    SetsOutLicensed(renamed, t, i, licences[id := candidate]);
  }

  lemma RenamedLicensed(s: State, i: nat, job: Job, licences: map<JobId, string>)
    requires i < |s.jobs| && Licensed(s, licences) && job.id == s.jobs[i].id
    ensures Licensed(WithJob(s, i, job), licences[job.id := job.destPath])
  {
    var t := WithJob(s, i, job);
    forall j | 0 <= j < |t.jobs| && j != i ensures t.jobs[j].id != job.id { assert t.jobs[j].id == s.jobs[j].id; }
  }

  lemma StepLicensed(s: State, i: nat, id: JobId, q: Request, r: Reply, licences: map<JobId, string>)
    requires Licensed(s, licences) && Here(s, i, id) && IsStep(q) && q.id == id && q in s.out
    ensures Licensed(Handle(s, Answer(q, r)), licences) && NewIsLicensed(s, Handle(s, Answer(q, r)), licences)
  {
    var u, t := Answered(s, q), Handle(s, Answer(q, r));
    StepIsHeeded(s, i, id, q, r);
    AnsweredLicensed(s, q, licences);
    if !r.ok { EndedLicensed(u, t, i, if q.Transfer? && r.cancelled then Cancelled else Failed, licences); }
    else if NextStep(q).None? { EndedLicensed(u, t, i, Completed, licences); }
    else { AskedLicensed(u, t, i, s.jobs[i], NextStep(q).value, s.jobs[i].destination.fs, licences); }
  }

  // ------------------------------------------------------------ answers nobody waits for

  /** The job is gone, or is not where a first look expects it. */
  predicate Unawaited(s: State, q: Request)
    requires Personal(q)
  {
    var i := Index(s.jobs, q.id);
    i == |s.jobs| || (q.Stat? && s.jobs[i].state != Checking)
  }

  /** Such an answer at most sets the pump going. */
  lemma UnawaitedSched(s: State, q: Request, r: Reply)
    requires Personal(q) && Unawaited(s, q)
    ensures Sched(s, OnAnswer(s, q, r), false)
  {
    NothingSched(s, s);
    ThenPumpSched(s, s.(activeId := NO_JOB));
    FreedSched(s, q.id);
  }

  lemma UnawaitedLicensed(s: State, q: Request, r: Reply, licences: map<JobId, string>)
    requires Licensed(s, licences) && Personal(q) && q in s.out && Unawaited(s, q)
    ensures var e := Answer(q, r);
            var after := LicencesAfter(s, licences, e);
            Licensed(Handle(s, e), after) && NewIsLicensed(s, Handle(s, e), after)
  {
    var after := LicencesAfter(s, licences, Answer(q, r));
    AnsweredLicensed(s, q, licences);
    assert Licensed(Answered(s, q), after);
    UnawaitedSched(Answered(s, q), q, r);
    SchedLicensed(Answered(s, q), Handle(s, Answer(q, r)), false, after);
  }

  lemma PersonalLicensed(s: State, q: Request, r: Reply, licences: map<JobId, string>)
    requires Licensed(s, licences) && Personal(q) && q in s.out
    ensures var e := Answer(q, r);
            var after := LicencesAfter(s, licences, e);
            Licensed(Handle(s, e), after) && NewIsLicensed(s, Handle(s, e), after)
  {
    if Unawaited(s, q) { UnawaitedLicensed(s, q, r, licences); return; }
    var i := Index(s.jobs, q.id);
    if IsStep(q) { StepLicensed(s, i, q.id, q, r, licences); return; }
    match q
    case Stat(id) => LookLicensed(s, i, id, r, licences);
    case Prompt(id) => PromptLicensed(s, i, id, r, licences);
    case StatFree(id, candidate, attempt) => NameLicensed(s, i, id, candidate, attempt, r, licences);
  }

  // ------------------------------------------------------------------------ every run

  lemma EventLicensed(s: State, e: Event, licences: map<JobId, string>)
    requires Licensed(s, licences) && Possible(s, e)
    ensures var after := LicencesAfter(s, licences, e);
            Licensed(Handle(s, e), after) && NewIsLicensed(s, Handle(s, e), after)
  {
    if Impersonal(e) {
      ImpersonalSched(s, e);
      SchedLicensed(s, Handle(s, e), MayCancel(e), licences);
    } else if e.Answer? {
      PersonalLicensed(s, e.request, e.reply, licences);
    } else if e.ClearFinishedEvent? {
      ClearedAreNumbered(s.jobs, s.nextId);
      ClearedAre(s.jobs);
      assert forall j | 0 <= j < |Unterminated(s.jobs)| :: Unterminated(s.jobs)[j] in Unterminated(s.jobs);
    }
  }

  function LicencesOver(s: State, licences: map<JobId, string>, events: seq<Event>): map<JobId, string>
    requires PossibleRun(s, events)
    decreases |events|
  {
    if events == [] then licences
    else LicencesOver(Handle(s, events[0]), LicencesAfter(s, licences, events[0]), events[1..])
  }

  /** In every step of the run, what is newly asked to carry a job out has a licence by then for the path the job has. */
  ghost predicate WritesByLicence(s: State, licences: map<JobId, string>, events: seq<Event>)
    requires PossibleRun(s, events)
    decreases |events|
  {
    events == [] ||
    var t, after := Handle(s, events[0]), LicencesAfter(s, licences, events[0]);
    && NewIsLicensed(s, t, after)
    && (forall j | 0 <= j < |t.jobs| && t.jobs[j].id in after :: t.jobs[j].destPath == after[t.jobs[j].id])
    && WritesByLicence(t, after, events[1..])
  }

  lemma {:induction false} EveryRunIsLicensed(s: State, licences: map<JobId, string>, events: seq<Event>)
    requires Licensed(s, licences) && PossibleRun(s, events)
    ensures WritesByLicence(s, licences, events)
    decreases |events|
  {
    if events != [] {
      EventLicensed(s, events[0], licences);
      EveryRunIsLicensed(Handle(s, events[0]), LicencesAfter(s, licences, events[0]), events[1..]);
    }
  }

  /** On every run of a new queue, orderly or not, no transfer, replacement or link is ever asked for unless an answer
      has allowed it for the job and for the path it has. */
  lemma NothingIsOverwrittenUnasked(config: Config, events: seq<Event>)
    requires PossibleRun(Initial(config), events)
    ensures WritesByLicence(Initial(config), map[], events)
  {
    EveryRunIsLicensed(Initial(config), map[], events);
  }

  // ------------------------------------------------------------- how a job comes to its state

  /** The answer completes the job: the last leg of its transfer is done, or its link is made. */
  predicate Completes(e: Event, id: JobId) {
    e.Answer? && e.reply.ok && (e.request == Transfer(id, false) || e.request == MakeLink(id))
  }

  /** The answer skips the job, or sends it on its way. */
  predicate Decides(s: State, i: nat, e: Event, policy: ConflictPolicy)
    requires i < |s.jobs|
  {
    var id := s.jobs[i].id;
    e.Answer? &&
    (|| (e.request == Stat(id) && s.jobs[i].state == Checking && e.reply.found && s.config.policy == policy)
     || (e.request == Prompt(id) && s.jobs[i].state == AwaitingResolution && e.reply.resolution == policy))
  }

  predicate SkipsUnasked(s: State, i: nat, e: Event)
    requires i < |s.jobs|
  {
    e.Answer? && e.request == Stat(s.jobs[i].id) && s.jobs[i].state == Checking && e.reply.found
    && s.config.policy == Ask && !s.config.hasPrompt
  }

  predicate FindsNothing(s: State, i: nat, e: Event)
    requires i < |s.jobs|
  {
    var id := s.jobs[i].id;
    e.Answer? && !e.reply.found && ((e.request == Stat(id) && s.jobs[i].state == Checking) || (e.request.StatFree? && e.request.id == id))
  }

  /** What an event did to one job. */
  ghost predicate CameAbout(s: State, i: nat, e: Event, t: State)
    requires i < |s.jobs|
  {
    var was := s.jobs[i].state;
    && i < |t.jobs|
    && (was != Completed ==> (t.jobs[i].state == Completed <==> Completes(e, s.jobs[i].id)))
    && (was != Skipped ==> (t.jobs[i].state == Skipped <==> Decides(s, i, e, Skip) || SkipsUnasked(s, i, e)))
    && (was != Active ==> (t.jobs[i].state == Active <==>
          (Decides(s, i, e, Overwrite) || FindsNothing(s, i, e)) && Way(s.jobs[i], s.config.relayRoot).Some?))
  }

  /** The event is none of those that complete, skip or start this job. */
  ghost predicate NoneOfIts(s: State, i: nat, e: Event)
    requires i < |s.jobs|
  {
    && !Completes(e, s.jobs[i].id) && !Decides(s, i, e, Skip) && !SkipsUnasked(s, i, e)
    && !Decides(s, i, e, Overwrite) && !FindsNothing(s, i, e)
  }

  lemma KeptCameAbout(s: State, i: nat, e: Event, t: State, cancels: bool)
    requires i < |s.jobs| && i < |t.jobs| && JobKept(s.jobs[i], t.jobs[i], cancels) && NoneOfIts(s, i, e)
    ensures CameAbout(s, i, e, t)
  {}

  /** What a decision makes of the job's state. */
  lemma ResolvedState(s: State, t: State, i: nat, policy: ConflictPolicy)
    requires i < |s.jobs| && Resolved(s, t, i, policy)
    requires s.jobs[i].state == Checking || s.jobs[i].state == AwaitingResolution
    ensures i < |t.jobs| && t.jobs[i].state != Completed
    ensures t.jobs[i].state == Skipped <==> policy == Skip || (policy == Ask && !s.config.hasPrompt)
    ensures t.jobs[i].state == Active <==> policy == Overwrite && Way(s.jobs[i], s.config.relayRoot).Some?
  {}

  lemma SettingOutState(s: State, t: State, i: nat)
    requires i < |s.jobs| && SetsOut(s, t, i, s.jobs[i])
    ensures i < |t.jobs| && t.jobs[i].state == if Way(s.jobs[i], s.config.relayRoot).Some? then Active else Failed
  {}

  lemma LookCameAbout(s: State, i: nat, id: JobId, r: Reply)
    requires Here(s, i, id) && s.jobs[i].state == Checking && Stat(id) in s.out
    ensures CameAbout(s, i, Answer(Stat(id), r), Handle(s, Answer(Stat(id), r)))
  {
    var t := Handle(s, Answer(Stat(id), r));
    LookIsHeeded(s, i, id, r);
    LookDecides(s, Answered(s, Stat(id)), i, id, r, t);
  }

  lemma LookDecides(s: State, u: State, i: nat, id: JobId, r: Reply, t: State)
    requires i < |s.jobs| && s.jobs[i].id == id && s.jobs[i].state == Checking && u.jobs == s.jobs && u.config == s.config
    requires if !r.found then SetsOut(u, t, i, s.jobs[i]) else Resolved(WithJob(u, i, s.jobs[i].(destExisted := true)), t, i, s.config.policy)
    ensures CameAbout(s, i, Answer(Stat(id), r), t)
  {
    if r.found { ResolvedState(WithJob(u, i, s.jobs[i].(destExisted := true)), t, i, s.config.policy); }
    else { SettingOutState(u, t, i); }
  }

  lemma PromptCameAbout(s: State, i: nat, id: JobId, r: Reply)
    requires Here(s, i, id) && Prompt(id) in s.out
    ensures CameAbout(s, i, Answer(Prompt(id), r), Handle(s, Answer(Prompt(id), r)))
  {
    var u, t := Answered(s, Prompt(id)), Handle(s, Answer(Prompt(id), r));
    PromptIsHeeded(s, i, id, r);
    if s.jobs[i].state == AwaitingResolution {
      ResolvedState(if r.applyToAll then u.(config := u.config.(policy := r.resolution)) else u, t, i, r.resolution);
    }
  }

  lemma NameCameAbout(s: State, i: nat, id: JobId, candidate: string, attempt: nat, r: Reply)
    requires Here(s, i, id) && StatFree(id, candidate, attempt) in s.out
    ensures CameAbout(s, i, Answer(StatFree(id, candidate, attempt), r), Handle(s, Answer(StatFree(id, candidate, attempt), r)))
  {
    NameIsHeeded(s, i, id, candidate, attempt, r);
  }

  lemma StepCameAbout(s: State, i: nat, id: JobId, q: Request, r: Reply)
    requires Here(s, i, id) && IsStep(q) && q.id == id && q in s.out
    ensures CameAbout(s, i, Answer(q, r), Handle(s, Answer(q, r)))
  {
    StepIsHeeded(s, i, id, q, r);
  }

  /** What sends one job on or ends it leaves the others to be looked at or refused at most. */
  lemma ResolvedKeepsOthers(s: State, t: State, k: nat, policy: ConflictPolicy, i: nat)
    requires k < |s.jobs| && i < |s.jobs| && i != k && Resolved(s, t, k, policy)
    ensures i < |t.jobs| && JobKept(s.jobs[i], t.jobs[i], false)
  {
    match policy
    case Overwrite => SetsOutKeepsOthers(s, t, k, i);
    case Rename => TriesKeepsOthers(s, t, k, 1, i);
    case _ =>
  }

  lemma SetsOutKeepsOthers(s: State, t: State, k: nat, i: nat)
    requires k < |s.jobs| && i < |s.jobs| && i != k && SetsOut(s, t, k, s.jobs[k])
    ensures i < |t.jobs| && JobKept(s.jobs[i], t.jobs[i], false)
  {
    var u := WithJob(s, k, s.jobs[k].(state := Active));
    assert u.jobs[i] == s.jobs[i];
  }

  lemma TriesKeepsOthers(s: State, t: State, k: nat, attempt: nat, i: nat)
    requires k < |s.jobs| && i < |s.jobs| && i != k && TriesName(s, t, k, attempt)
    ensures i < |t.jobs| && JobKept(s.jobs[i], t.jobs[i], false)
  {}

  lemma LookKeepsOthers(s: State, k: nat, id: JobId, r: Reply, i: nat)
    requires Stat(id) in s.out && Here(s, k, id) && i < |s.jobs| && i != k
    ensures var t := Handle(s, Answer(Stat(id), r)); i < |t.jobs| && JobKept(s.jobs[i], t.jobs[i], false)
  {
    var u, t := Answered(s, Stat(id)), Handle(s, Answer(Stat(id), r));
    if s.jobs[k].state != Checking {
      HereIsIndex(s, k, id);
      UnawaitedSched(u, Stat(id), r);
      return;
    }
    LookIsHeeded(s, k, id, r);
    if !r.found { SetsOutKeepsOthers(u, t, k, i); return; }
    var taken := WithJob(u, k, s.jobs[k].(destExisted := true));
    ResolvedKeepsOthers(taken, t, k, s.config.policy, i);
  }

  lemma NameKeepsOthers(s: State, k: nat, id: JobId, candidate: string, attempt: nat, r: Reply, i: nat)
    requires StatFree(id, candidate, attempt) in s.out && Here(s, k, id) && i < |s.jobs| && i != k
    ensures var t := Handle(s, Answer(StatFree(id, candidate, attempt), r)); i < |t.jobs| && JobKept(s.jobs[i], t.jobs[i], false)
  {
    var q := StatFree(id, candidate, attempt);
    var u, t := Answered(s, q), Handle(s, Answer(q, r));
    NameIsHeeded(s, k, id, candidate, attempt, r);
    if r.found { TriesKeepsOthers(u, t, k, attempt + 1, i); return; }
    SetsOutKeepsOthers(WithJob(u, k, s.jobs[k].(destPath := candidate, destExisted := false)), t, k, i);
  }

  /** An answer about another job leaves this one to be looked at or refused at most. */
  lemma OtherIsKept(s: State, k: nat, q: Request, r: Reply, i: nat)
    requires Personal(q) && q in s.out && Here(s, k, q.id) && i < |s.jobs| && i != k
    ensures var t := Handle(s, Answer(q, r)); i < |t.jobs| && JobKept(s.jobs[i], t.jobs[i], false)
  {
    if IsStep(q) { StepIsHeeded(s, k, q.id, q, r); return; }
    match q
    case Stat(id) => LookKeepsOthers(s, k, id, r, i);
    case StatFree(id, candidate, attempt) => NameKeepsOthers(s, k, id, candidate, attempt, r, i);
    case Prompt(id) =>
      var u := Answered(s, q);
      PromptIsHeeded(s, k, id, r);
      if s.jobs[k].state == AwaitingResolution {
        ResolvedKeepsOthers(if r.applyToAll then u.(config := u.config.(policy := r.resolution)) else u, Handle(s, Answer(q, r)), k, r.resolution, i);
      }
  }

  lemma ItsOwnCameAbout(s: State, i: nat, q: Request, r: Reply)
    requires Personal(q) && q in s.out && Here(s, i, q.id) && !Unawaited(s, q)
    ensures CameAbout(s, i, Answer(q, r), Handle(s, Answer(q, r)))
  {
    HereIsIndex(s, i, q.id);
    if IsStep(q) { StepCameAbout(s, i, q.id, q, r); return; }
    match q
    case Stat(id) => LookCameAbout(s, i, id, r);
    case Prompt(id) => PromptCameAbout(s, i, id, r);
    case StatFree(id, candidate, attempt) => NameCameAbout(s, i, id, candidate, attempt, r);
  }

  lemma UnawaitedCameAbout(s: State, i: nat, q: Request, r: Reply)
    requires Numbered(s.jobs, s.nextId) && Personal(q) && q in s.out && i < |s.jobs| && Unawaited(s, q)
    ensures CameAbout(s, i, Answer(q, r), Handle(s, Answer(q, r)))
  {
    UnawaitedSched(Answered(s, q), q, r);
    if s.jobs[i].id == q.id { HereIsIndex(s, i, q.id); }
    KeptCameAbout(s, i, Answer(q, r), Handle(s, Answer(q, r)), false);
  }

  lemma PersonalCameAbout(s: State, i: nat, q: Request, r: Reply)
    requires Numbered(s.jobs, s.nextId) && Personal(q) && q in s.out && i < |s.jobs|
    ensures CameAbout(s, i, Answer(q, r), Handle(s, Answer(q, r)))
  {
    var k := Index(s.jobs, q.id);
    if Unawaited(s, q) { UnawaitedCameAbout(s, i, q, r); return; }
    if i == k { ItsOwnCameAbout(s, i, q, r); return; }
    assert s.jobs[i].id != q.id;
    OtherIsKept(s, k, q, r, i);
    KeptCameAbout(s, i, Answer(q, r), Handle(s, Answer(q, r)), false);
  }

  /** A job becomes completed exactly by a good last step, skipped exactly by the policy or the answer to skip it, or for
      want of anyone to ask, and active exactly when nothing was found or it may overwrite what was, and there is a
      way; whatever else happens, and in whatever state the queue is. */
  lemma StatesComeAboutIff(s: State, e: Event, i: nat)
    requires Numbered(s.jobs, s.nextId) && Possible(s, e) && i < |s.jobs| && !e.ClearFinishedEvent?
    ensures CameAbout(s, i, e, Handle(s, e))
  {
    if Impersonal(e) {
      ImpersonalSched(s, e);
      KeptCameAbout(s, i, e, Handle(s, e), MayCancel(e));
    } else if e.Answer? {
      PersonalCameAbout(s, i, e.request, e.reply);
    }
  }

  // -------------------------------------------------------------- no name is tried twice

  /** The number a text of digits stands for. */
  function NumberOf(text: string): int {
    if text == "" then 0 else NumberOf(text[..|text| - 1]) * 10 + (text[|text| - 1] as int - '0' as int)
  }

  lemma {:induction false} DecimalIsNumber(n: nat)
    ensures NumberOf(Decimal(n)) == n
    decreases n
  {
    var text := Decimal(n);
    if n >= 10 {
      DecimalIsNumber(n / 10);
      assert text[..|text| - 1] == Decimal(n / 10);
    } else {
      assert text[..0] == "";
    }
  }

  /** The names tried for one job are all different. */
  lemma CandidatesDiffer(name: string, j: nat, k: nat)
    requires MakeUniqueCandidate(name, j) == MakeUniqueCandidate(name, k)
    ensures j == k
  {
    var stem, extension := NameSplits(name);
    CandidateIs(name, j, stem, " (" + Decimal(j) + ")", extension);
    CandidateIs(name, k, stem, " (" + Decimal(k) + ")", extension);
    SameMiddle(stem, Decimal(j), Decimal(k), extension);
    DecimalIsNumber(j);
    DecimalIsNumber(k);
  }

  lemma SameMiddle(stem: string, a: string, b: string, extension: string)
    requires stem + (" (" + a + ")") + extension == stem + (" (" + b + ")") + extension
    ensures a == b
  {
    var whole, other := stem + (" (" + a + ")") + extension, stem + (" (" + b + ")") + extension;
    assert |whole| == |stem| + |a| + 3 + |extension| && |other| == |stem| + |b| + 3 + |extension|;
    assert whole[|stem| + 2..|stem| + 2 + |a|] == a;
    assert other[|stem| + 2..|stem| + 2 + |b|] == b;
  }
}
