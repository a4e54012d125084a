/** The check for space before anything is moved (src/fs/TransferQueue.cpp:500-637): whom it asks, about what, and what
    its verdict covers. */
module TransferSpace {
  import opened Style
  import opened TransferQueue
  import RemotePath

  /** With something queued that no verdict covers, and no walk or check running, the first such job's file system is asked,
      and it is asked about the directory the job writes into. Nothing else happens. */
  lemma CheckBegins(s: State, i: nat, fs: nat)
    requires !s.enumerating && s.preflight != CheckingSpace && i < |s.jobs| && UnweighedJob(s.jobs[i])
    requires forall j | 0 <= j < i :: !UnweighedJob(s.jobs[j])
    requires s.jobs[i].destination.fs == Some(fs) && RemotePath.Parent(s.jobs[i].destPath) != ""
    ensures Pump(s) == Issue(s.(preflight := CheckingSpace), QuerySpace(fs, RemotePath.Parent(s.jobs[i].destPath), MAX_SPACE_PROBE_ANCESTORS), true)
  {
    FirstIs(s.jobs, i);
    assert FirstQueued(s.jobs) <= i;
  }

  /** The last question there is: answered, refused for good, as high as it goes or often enough. */
  predicate LastQuestion(path: string, left: nat, r: Reply) {
    r.ok || r.unsupported || left == 0 || RemotePath.Parent(path) == "" || RemotePath.Parent(path) == path
  }

  /** Any other is followed by the same question one directory up, on the same file system, and nothing else happens. */
  lemma RefusedClimbs(s: State, fs: nat, path: string, left: nat, r: Reply)
    requires QuerySpace(fs, path, left) in s.out && !LastQuestion(path, left, r)
    ensures Handle(s, Answer(QuerySpace(fs, path, left), r)) ==
            Issue(Answered(s, QuerySpace(fs, path, left)), QuerySpace(fs, RemotePath.Parent(path), left - 1), true)
  {
    var u := Answered(s, QuerySpace(fs, path, left));
    assert OnSpaceAnswered(u, fs, path, left, r.ok, r.unsupported) == Issue(u, QuerySpace(fs, RemotePath.Parent(path), left - 1), true);
  }

  /** A verdict is on one volume, that of the first job without one: exactly the queued jobs bound for it are covered. */
  ghost predicate Covered(s: State, jobs: seq<Job>, volume: Option<nat>) {
    |jobs| == |s.jobs| && forall i | 0 <= i < |jobs| ::
      jobs[i] == s.jobs[i].(spaceChecked := s.jobs[i].spaceChecked || (s.jobs[i].state == Queued && s.jobs[i].destination.fs == volume))
  }

  /** Then the user is asked about that volume if it looks bad and there is anyone to ask, and otherwise the check is over. */
  lemma VerdictIsReached(s: State, fs: nat, path: string, left: nat, r: Reply, i: nat)
    requires QuerySpace(fs, path, left) in s.out && LastQuestion(path, left, r) && i < |s.jobs| && UnweighedJob(s.jobs[i])
    requires forall j | 0 <= j < i :: !UnweighedJob(s.jobs[j])
    ensures var t, u := Handle(s, Answer(QuerySpace(fs, path, left), r)), Answered(s, QuerySpace(fs, path, left));
            var volume := s.jobs[i].destination.fs;
            exists jobs :: Covered(s, jobs, volume) &&
              (if s.config.concerning && s.config.hasSpacePrompt then t == Issue(u.(jobs := jobs), SpacePrompt(volume), true)
               else t == Pump(u.(jobs := jobs, preflight := Cleared)))
  {
    var u, volume := Answered(s, QuerySpace(fs, path, left)), s.jobs[i].destination.fs;
    FirstIs(s.jobs, i);
    var jobs := MarkWeighed(s.jobs, volume);
    assert Covered(s, jobs, volume);
    VerdictCovers(u, i);
    assert Handle(s, Answer(QuerySpace(fs, path, left), r)) == Settled(Verdict(u));
  }

  lemma FirstIs(jobs: seq<Job>, i: nat)
    requires i < |jobs| && UnweighedJob(jobs[i]) && forall j | 0 <= j < i :: !UnweighedJob(jobs[j])
    ensures FirstUnchecked(jobs) == i
  {
    assert FirstUnchecked(jobs) <= i && FirstUnchecked(jobs) >= i;
  }

  lemma VerdictCovers(s: State, i: nat)
    requires i < |s.jobs| && FirstUnchecked(s.jobs) == i
    ensures var volume, marked := s.jobs[i].destination.fs, s.(jobs := MarkWeighed(s.jobs, s.jobs[i].destination.fs));
            Settled(Verdict(s)) == (if s.config.concerning && s.config.hasSpacePrompt then Issue(marked, SpacePrompt(volume), true)
                                    else Pump(marked.(preflight := Cleared)))
  {}
}
