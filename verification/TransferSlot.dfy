/** The one active slot of the transfer queue, seen through what it depends on: every job's id and
    state, the next id, the id the slot holds, and the requests outstanding. */
module TransferSlot {
  import opened TransferQueue
  import opened TransferSafety

  datatype Row = Row(id: JobId, state: JobState)

  datatype View = View(rows: seq<Row>, nextId: JobId, activeId: JobId, out: multiset<Request>)

  /** The first row with the id, or the number of rows. */
  function Pos(rows: seq<Row>, id: JobId): (i: nat)
    ensures i <= |rows|
    ensures i < |rows| ==> rows[i].id == id
    ensures forall j | 0 <= j < i :: rows[j].id != id
  {
    if rows == [] || rows[0].id == id then 0 else 1 + Pos(rows[1..], id)
  }

  // ------------------------------------------------------------------ the invariant

  predicate Distinct(rows: seq<Row>, nextId: JobId) {
    && nextId > 0
    && (forall i | 0 <= i < |rows| :: 0 < rows[i].id < nextId)
    && (forall i, j | 0 <= i < j < |rows| :: rows[i].id != rows[j].id)
  }

  /** Only the job the slot names is under way. */
  predicate OnlyActive(rows: seq<Row>, activeId: JobId) {
    forall i | 0 <= i < |rows| :: rows[i].state.InProgress() ==> rows[i].id == activeId
  }

  /** Jobs are begun in order: whatever precedes the one under way has retired. */
  predicate InOrder(rows: seq<Row>) {
    forall i, j | 0 <= i < j < |rows| && rows[j].state.InProgress() :: rows[i].state.Terminal()
  }

  predicate Askable(rows: seq<Row>, id: JobId) {
    forall i | 0 <= i < |rows| && rows[i].id == id :: rows[i].state.Terminal() || rows[i].state == AwaitingResolution
  }

  /** A job is asked about once, and waits or has retired until the answer comes. */
  ghost predicate PromptsFit(v: View) {
    forall id: JobId | Prompt(id) in v.out :: v.out[Prompt(id)] == 1 && 0 < id < v.nextId && Askable(v.rows, id)
  }

  /** The states in which the answer to a call is expected. */
  predicate Fits(r: Request, phase: JobState) {
    match r
    case Stat(_) => phase == Checking
    case StatFree(_, _, _) => phase == Checking || phase == AwaitingResolution
    case _ => phase == Active
  }

  ghost predicate NoCall(out: multiset<Request>) {
    forall r | r in out :: ClassOf(r) != Calling
  }

  ghost predicate OneCall(out: multiset<Request>, id: JobId, phase: JobState) {
    && Outstanding(out, Calling)
    && AtMostOne(out, Calling)
    && (forall r | r in out && ClassOf(r) == Calling :: r.id == id && Fits(r, phase))
  }

  ghost predicate Base(v: View) {
    Distinct(v.rows, v.nextId) && OnlyActive(v.rows, v.activeId) && InOrder(v.rows) && PromptsFit(v)
  }

  /** The row of the job the slot names, which is under way. */
  predicate Holds(v: View, i: nat) {
    i < |v.rows| && v.activeId != NO_JOB && v.rows[i].id == v.activeId && v.rows[i].state.InProgress()
  }

  /** An empty slot waits for nothing; a held one waits for exactly one answer about its job, either a
      prompt's or a call's, and its job is where that answer expects it. */
  ghost predicate AwaitsOne(v: View) {
    if v.activeId == NO_JOB then NoCall(v.out)
    else
      var i := Pos(v.rows, v.activeId);
      && Holds(v, i)
      && (if Prompt(v.activeId) in v.out then v.rows[i].state == AwaitingResolution && NoCall(v.out)
          else OneCall(v.out, v.activeId, v.rows[i].state))
  }

  ghost predicate Good(v: View) {
    Base(v) && AwaitsOne(v)
  }

  /** The slot's job has had its answer and nothing has been asked in its place yet. */
  ghost predicate Ready(v: View, i: nat) {
    Base(v) && Holds(v, i) && NoCall(v.out) && Prompt(v.activeId) !in v.out
  }

  /** No job appears under an old id, and a retired job stays as it retired. */
  predicate Keeps(v: View, w: View) {
    && v.nextId <= w.nextId && |v.rows| <= |w.rows|
    && (forall i | 0 <= i < |v.rows| :: w.rows[i].id == v.rows[i].id)
    && (forall i | 0 <= i < |v.rows| :: v.rows[i].state.Terminal() ==> w.rows[i].state == v.rows[i].state)
    && (forall i | |v.rows| <= i < |w.rows| :: w.rows[i].id >= v.nextId)
  }

  /** What the slot says is so, whatever is outstanding: it is empty, or its job is under way and alone. */
  predicate Tidy(v: View) {
    && Distinct(v.rows, v.nextId) && OnlyActive(v.rows, v.activeId)
    && (v.activeId == NO_JOB || Holds(v, Pos(v.rows, v.activeId)))
  }

  /** A call nobody should answer any more: its job was cancelled. */
  predicate Stale(v: View, r: Request) {
    && r in v.out && ClassOf(r) == Calling && r.id != v.activeId && 0 < r.id < v.nextId
    && (exists i :: 0 <= i < |v.rows| && v.rows[i].id == r.id)
    && forall i | 0 <= i < |v.rows| && v.rows[i].id == r.id :: v.rows[i].state == Cancelled
  }

  lemma StaleIsNotGood(v: View, r: Request)
    requires Stale(v, r)
    ensures !Good(v)
  {}

  /** What a part of a step may do to the slot. */
  ghost predicate Leads(v: View, w: View) {
    && (Good(v) ==> Good(w)) && (Tidy(v) ==> Tidy(w))
    && Keeps(v, w)
    && (forall r :: Stale(v, r) ==> Stale(w, r))
  }

  lemma KeepsComposes(u: View, v: View, w: View)
    requires Keeps(u, v) && Keeps(v, w)
    ensures Keeps(u, w)
  {
    forall i | 0 <= i < |u.rows| ensures w.rows[i].id == u.rows[i].id
          && (u.rows[i].state.Terminal() ==> w.rows[i].state == u.rows[i].state) {
      assert v.rows[i].id == u.rows[i].id;
    }
    forall i | |u.rows| <= i < |w.rows| ensures w.rows[i].id >= u.nextId {
      if i < |v.rows| { assert v.rows[i].id == w.rows[i].id; }
    }
  }

  lemma LeadsComposes(u: View, v: View, w: View)
    requires Leads(u, v) && Leads(v, w)
    ensures Leads(u, w)
  {
    KeepsComposes(u, v, w);
  }

  // ------------------------------------------------------------------ the slot's moves

  /** A directory made, a listing or a space question: not the slot's business. */
  function Aside(v: View, q: Request): View {
    v.(out := v.out + multiset{q})
  }

  lemma AsideKeepsPrompts(v: View, q: Request)
    requires PromptsFit(v) && ClassOf(q) != Prompting
    ensures PromptsFit(Aside(v, q))
  {
    forall id: JobId | Prompt(id) in Aside(v, q).out
      ensures Prompt(id) in v.out && Aside(v, q).out[Prompt(id)] == v.out[Prompt(id)] {}
  }

  lemma AsideLeads(v: View, q: Request)
    requires ClassOf(q) != Calling && ClassOf(q) != Prompting
    ensures Leads(v, Aside(v, q))
  {
    IssuingOther(v.out, q, Calling);
    if Good(v) {
      AsideKeepsPrompts(v, q);
      assert Prompt(v.activeId) in Aside(v, q).out <==> Prompt(v.activeId) in v.out;
    }
  }

  function Begun(v: View, i: nat): View
    requires i < |v.rows|
  {
    View(v.rows[i := Row(v.rows[i].id, Checking)], v.nextId, v.rows[i].id, v.out + multiset{Stat(v.rows[i].id)})
  }

  lemma FirstCall(out: multiset<Request>, q: Request, phase: JobState)
    requires NoCall(out) && ClassOf(q) == Calling && Fits(q, phase)
    ensures OneCall(out + multiset{q}, q.id, phase)
  {
    IssuingFirst(out, q);
    forall r | r in out + multiset{q} && ClassOf(r) == Calling ensures r == q {}
  }

  lemma RowChangeKeepsBase(v: View, i: nat, state: JobState, activeId: JobId)
    requires i < |v.rows| && Distinct(v.rows, v.nextId) && PromptsFit(v)
    requires Prompt(v.rows[i].id) in v.out ==> state.Terminal() || state == AwaitingResolution
    ensures var rows := v.rows[i := Row(v.rows[i].id, state)];
            Distinct(rows, v.nextId) && PromptsFit(View(rows, v.nextId, activeId, v.out)) && Pos(rows, v.rows[i].id) == i
    ensures InOrder(v.rows) && (state.Terminal() || v.rows[i].state.InProgress()) ==> InOrder(v.rows[i := Row(v.rows[i].id, state)])
  {
    var rows := v.rows[i := Row(v.rows[i].id, state)];
    assert forall j | 0 <= j < |rows| :: rows[j].id == v.rows[j].id;
    forall id: JobId | Prompt(id) in v.out ensures Askable(rows, id) {
      assert Askable(v.rows, id);
    }
  }

  lemma BeginIsGood(v: View, i: nat)
    requires i < |v.rows| && v.rows[i].state == Queued && v.activeId == NO_JOB && forall j | 0 <= j < i :: v.rows[j].state != Queued
    requires Good(v)
    ensures Good(Begun(v, i))
  {
    var id, w := v.rows[i].id, Begun(v, i);
    assert Prompt(id) in v.out ==> Askable(v.rows, id);
    RowChangeKeepsBase(v, i, Checking, id);
    AsideKeepsPrompts(View(w.rows, v.nextId, id, v.out), Stat(id));
    FirstCall(v.out, Stat(id), Checking);
    assert w.rows[i] == Row(id, Checking);
  }

  lemma BeginLeads(v: View, i: nat)
    requires i < |v.rows| && v.rows[i].state == Queued && v.activeId == NO_JOB && forall j | 0 <= j < i :: v.rows[j].state != Queued
    ensures Leads(v, Begun(v, i))
  {
    var id := v.rows[i].id;
    var w := Begun(v, i);
    if Tidy(v) { BeginsTidily(v, i); }
    if Good(v) { BeginIsGood(v, i); }
    forall r | Stale(v, r) ensures Stale(w, r) {
      assert r.id != id;
      assert forall j | 0 <= j < |w.rows| :: w.rows[j].id == v.rows[j].id;
    }
  }

  lemma BeginsTidily(v: View, i: nat)
    requires i < |v.rows| && v.rows[i].state == Queued && v.activeId == NO_JOB && Tidy(v)
    ensures Tidy(Begun(v, i))
  {
    var w := Begun(v, i);
    assert forall j | 0 <= j < |w.rows| :: w.rows[j].id == v.rows[j].id;
    assert w.rows[i] == Row(v.rows[i].id, Checking) && Pos(w.rows, w.activeId) == i;
  }

  function RetiredRow(v: View, i: nat, outcome: JobState): View
    requires i < |v.rows|
  {
    v.(rows := v.rows[i := Row(v.rows[i].id, outcome)], activeId := if v.activeId == v.rows[i].id then NO_JOB else v.activeId)
  }

  /** A job retires well when no call for it is outstanding. */
  ghost predicate MayRetire(v: View, i: nat) {
    && i < |v.rows| && Base(v)
    && (if v.activeId == v.rows[i].id then NoCall(v.out) else AwaitsOne(v))
  }

  lemma RetiringIsGood(v: View, i: nat, outcome: JobState)
    requires MayRetire(v, i) && outcome.Terminal()
    ensures Good(RetiredRow(v, i, outcome))
  {
    var w := RetiredRow(v, i, outcome);
    RowChangeKeepsBase(v, i, outcome, w.activeId);
    if v.activeId != v.rows[i].id && v.activeId != NO_JOB { OtherStaysPut(v, i, outcome, Pos(v.rows, v.activeId)); }
  }

  lemma OtherStaysPut(v: View, i: nat, outcome: JobState, k: nat)
    requires i < |v.rows| && k == Pos(v.rows, v.activeId) < |v.rows| && k != i
    ensures var w := RetiredRow(v, i, outcome).rows; w[k] == v.rows[k] && Pos(w, v.activeId) == k
  {
    var w := RetiredRow(v, i, outcome);
    assert forall j | 0 <= j < |w.rows| :: w.rows[j].id == v.rows[j].id;
  }

  lemma RetiringKeepsOthers(v: View, i: nat, outcome: JobState)
    requires i < |v.rows|
    ensures Keeps(v, RetiredRow(v, i, outcome)) <==> (v.rows[i].state.Terminal() ==> v.rows[i].state == outcome)
  {
    assert RetiredRow(v, i, outcome).rows[i] == Row(v.rows[i].id, outcome);
  }

  lemma RetiringKeepsStale(v: View, i: nat, outcome: JobState, r: Request)
    requires i < |v.rows| && Stale(v, r) && (outcome == Cancelled || v.rows[i].id != r.id)
    ensures Stale(RetiredRow(v, i, outcome), r)
  {
    var w := RetiredRow(v, i, outcome);
    assert forall j | 0 <= j < |w.rows| :: w.rows[j].id == v.rows[j].id;
  }

  lemma RetiringIsTidy(v: View, i: nat, outcome: JobState)
    requires i < |v.rows| && Tidy(v) && outcome.Terminal()
    ensures Tidy(RetiredRow(v, i, outcome))
  {
    var w := RetiredRow(v, i, outcome);
    assert forall j | 0 <= j < |w.rows| :: w.rows[j].id == v.rows[j].id;
    if v.activeId != NO_JOB && v.activeId != v.rows[i].id {
      var k := Pos(v.rows, v.activeId);
      assert w.rows[k] == v.rows[k] && Pos(w.rows, v.activeId) == k;
    }
  }

  /** Cancelling a job strands the call outstanding for it. */
  lemma CancellingStrands(v: View, i: nat, r: Request)
    requires i < |v.rows| && Distinct(v.rows, v.nextId)
    requires r in v.out && ClassOf(r) == Calling && r.id == v.rows[i].id
    ensures Stale(RetiredRow(v, i, Cancelled), r)
  {
    var w := RetiredRow(v, i, Cancelled);
    assert w.rows[i].id == r.id;
    assert forall j | 0 <= j < |w.rows| :: w.rows[j].id == v.rows[j].id;
  }

  lemma FailingLeads(v: View, i: nat)
    requires i < |v.rows| && v.rows[i].state == Queued && v.activeId == NO_JOB
    ensures Leads(v, RetiredRow(v, i, Failed))
  {
    if Good(v) { RetiringIsGood(v, i, Failed); }
    if Tidy(v) { RetiringIsTidy(v, i, Failed); }
    RetiringKeepsOthers(v, i, Failed);
    forall r | Stale(v, r) ensures Stale(RetiredRow(v, i, Failed), r) { RetiringKeepsStale(v, i, Failed, r); }
  }

  /** Some call about the job is outstanding. */
  ghost predicate CallFor(out: multiset<Request>, id: JobId) {
    exists r :: r in out && ClassOf(r) == Calling && r.id == id
  }

  /** In a good state only the slot's job can have a call outstanding, and only that call forbids retiring it. */
  lemma MayRetireExactly(v: View, i: nat)
    requires Good(v) && i < |v.rows|
    ensures MayRetire(v, i) <==> !CallFor(v.out, v.rows[i].id)
  {}

  /** The slot's job is asked the next thing, in the state that question belongs to. */
  function Asked(v: View, i: nat, state: JobState, q: Request): View
    requires i < |v.rows|
  {
    v.(rows := v.rows[i := Row(v.rows[i].id, state)], out := v.out + multiset{q})
  }

  lemma CallingIsGood(v: View, i: nat, state: JobState, q: Request)
    requires Ready(v, i) && ClassOf(q) == Calling && q.id == v.activeId && state.InProgress() && Fits(q, state)
    ensures Good(Asked(v, i, state, q)) && Keeps(v, Asked(v, i, state, q))
  {
    var w := Asked(v, i, state, q);
    RowChangeKeepsBase(v, i, state, v.activeId);
    AsideKeepsPrompts(View(w.rows, v.nextId, v.activeId, v.out), q);
    FirstCall(v.out, q, state);
    assert w.rows[i] == Row(v.activeId, state);
  }

  lemma PromptingIsGood(v: View, i: nat)
    requires Ready(v, i)
    ensures Good(Asked(v, i, AwaitingResolution, Prompt(v.activeId)))
    ensures Keeps(v, Asked(v, i, AwaitingResolution, Prompt(v.activeId)))
  {
    var q := Prompt(v.activeId);
    var w := Asked(v, i, AwaitingResolution, q);
    RowChangeKeepsBase(v, i, AwaitingResolution, v.activeId);
    assert w.rows[i] == Row(v.activeId, AwaitingResolution);
    forall id: JobId | Prompt(id) in w.out ensures w.out[Prompt(id)] == 1 && 0 < id < w.nextId && Askable(w.rows, id) {
      if id != v.activeId { assert Prompt(id) in v.out; }
    }
  }

  // ------------------------------------------------------------------ answers

  lemma AnsweringKeepsPrompts(v: View, q: Request)
    requires PromptsFit(v) && q in v.out
    ensures PromptsFit(v.(out := v.out - multiset{q}))
  {
    var w := v.(out := v.out - multiset{q});
    forall id: JobId | Prompt(id) in w.out ensures Prompt(id) in v.out && w.out[Prompt(id)] == v.out[Prompt(id)] {
      assert Prompt(id) in v.out && v.out[Prompt(id)] == 1;
    }
  }

  lemma CallAnswered(v: View, q: Request)
    requires Good(v) && q in v.out && ClassOf(q) == Calling
    ensures q.id == v.activeId
    ensures var i := Pos(v.rows, v.activeId); Ready(v.(out := v.out - multiset{q}), i) && Fits(q, v.rows[i].state)
  {
    AnsweringKeepsPrompts(v, q);
    AnsweringOnly(v.out, q);
    assert Prompt(v.activeId) !in v.out;
  }

  lemma PromptAnswered(v: View, id: JobId)
    requires Good(v) && Prompt(id) in v.out
    ensures var w, i := v.(out := v.out - multiset{Prompt(id)}), Pos(v.rows, id);
            if i < |v.rows| && v.rows[i].state == AwaitingResolution then id == v.activeId && Ready(w, i) else Good(w)
  {
    var w := v.(out := v.out - multiset{Prompt(id)});
    AnsweringKeepsPrompts(v, Prompt(id));
    AnsweringOther(v.out, Prompt(id), Calling);
    assert v.out[Prompt(id)] == 1;
    assert Prompt(id) !in w.out;
    forall r | ClassOf(r) == Calling ensures r in w.out <==> r in v.out {}
    if id != v.activeId { assert Prompt(v.activeId) in w.out <==> Prompt(v.activeId) in v.out; }
  }

  lemma OtherAnswered(v: View, q: Request)
    requires q in v.out && ClassOf(q) != Calling && ClassOf(q) != Prompting
    ensures Leads(v, v.(out := v.out - multiset{q}))
  {
    if Good(v) { OtherAnsweredIsGood(v, q); }
    var w := v.(out := v.out - multiset{q});
    forall r | r != q ensures r in w.out <==> r in v.out {}
  }

  lemma OtherAnsweredIsGood(v: View, q: Request)
    requires Good(v) && q in v.out && ClassOf(q) != Calling && ClassOf(q) != Prompting
    ensures Good(v.(out := v.out - multiset{q}))
  {
    var w := v.(out := v.out - multiset{q});
    forall r | r != q ensures r in w.out <==> r in v.out {}
    AnsweringKeepsPrompts(v, q);
    AnsweringOther(v.out, q, Calling);
  }

  // ------------------------------------------------------------------ jobs come and go

  function Added(v: View, state: JobState): View {
    v.(rows := v.rows + [Row(v.nextId, state)], nextId := v.nextId + 1)
  }

  lemma AddingIsGood(v: View, state: JobState)
    requires Good(v) && !state.InProgress()
    ensures Good(Added(v, state))
  {
    var w := Added(v, state);
    assert forall i | 0 <= i < |v.rows| :: w.rows[i] == v.rows[i];
    assert w.rows[|v.rows|] == Row(v.nextId, state);
    forall id: JobId | Prompt(id) in w.out ensures w.out[Prompt(id)] == 1 && 0 < id < w.nextId && Askable(w.rows, id) {
      assert Askable(v.rows, id);
    }
    if v.activeId != NO_JOB {
      var k := Pos(v.rows, v.activeId);
      assert w.rows[k] == v.rows[k];
      assert Pos(w.rows, v.activeId) == k;
    }
  }

  lemma AddingLeads(v: View, state: JobState)
    requires !state.InProgress()
    ensures Leads(v, Added(v, state))
  {
    if Good(v) { AddingIsGood(v, state); }
    var w := Added(v, state);
    assert forall i | 0 <= i < |v.rows| :: w.rows[i] == v.rows[i];
    assert w.rows[|v.rows|] == Row(v.nextId, state);
    if Tidy(v) && v.activeId != NO_JOB {
      var k := Pos(v.rows, v.activeId);
      assert w.rows[k] == v.rows[k] && Pos(w.rows, v.activeId) == k;
    }
  }

  function Unretired(rows: seq<Row>): seq<Row> {
    if rows == [] then []
    else if rows[0].state.Terminal() then Unretired(rows[1..])
    else [rows[0]] + Unretired(rows[1..])
  }

  lemma {:induction false} UnretiredExactly(rows: seq<Row>)
    ensures forall row :: row in Unretired(rows) <==> row in rows && !row.state.Terminal()
    ensures (forall i, j | 0 <= i < j < |rows| :: rows[i].id != rows[j].id) ==>
              forall i, j | 0 <= i < j < |Unretired(rows)| :: Unretired(rows)[i].id != Unretired(rows)[j].id
    decreases |rows|
  {
    if rows != [] {
      UnretiredExactly(rows[1..]);
      var rest := Unretired(rows[1..]);
      assert rows == [rows[0]] + rows[1..];
      if forall i, j | 0 <= i < j < |rows| :: rows[i].id != rows[j].id {
        forall row | row in rows[1..] ensures row.id != rows[0].id {
          var k :| 0 <= k < |rows[1..]| && rows[1..][k] == row;
          assert rows[k + 1] == row;
        }
        assert forall k | 0 <= k < |rest| :: rest[k] in rest;
      }
    }
  }

  /** The job under way comes first once the retired ones are gone. */
  lemma {:induction false} UnretiredInOrder(rows: seq<Row>)
    requires InOrder(rows)
    ensures InOrder(Unretired(rows))
    decreases |rows|
  {
    if rows != [] {
      UnretiredInOrder(rows[1..]);
      UnretiredExactly(rows[1..]);
      var rest := Unretired(rows[1..]);
      forall k | 0 <= k < |rest| && rest[k].state.InProgress() ensures rows[0].state.Terminal() {
        assert rest[k] in rest && rest[k] in rows[1..];
      }
    }
  }

  lemma ClearingIsGood(v: View)
    requires Good(v)
    ensures Good(v.(rows := Unretired(v.rows)))
  {
    UnretiredExactly(v.rows);
    UnretiredInOrder(v.rows);
    var w := v.(rows := Unretired(v.rows));
    forall i | 0 <= i < |w.rows| ensures 0 < w.rows[i].id < w.nextId
          && (w.rows[i].state.InProgress() ==> w.rows[i].id == v.activeId) {
      assert w.rows[i] in w.rows;
    }
    forall id: JobId | Prompt(id) in w.out ensures Askable(w.rows, id) {
      forall i | 0 <= i < |w.rows| && w.rows[i].id == id ensures w.rows[i].state == AwaitingResolution {
        assert w.rows[i] in w.rows && Askable(v.rows, id);
      }
    }
    if v.activeId != NO_JOB {
      var row := v.rows[Pos(v.rows, v.activeId)];
      assert row in w.rows;
      var k :| 0 <= k < |w.rows| && w.rows[k] == row;
      assert Pos(w.rows, v.activeId) == k;
    }
  }
}
