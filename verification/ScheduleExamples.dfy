/**
  Two runs from the empty tables. In the first an enqueue is refused because a priority pass has
  relabelled rank 1; in the second a successful pass leaves a topic that no longer validates, so
  that every later tick selects it and serves nothing.
 */
module ScheduleExamples {
  import opened Prelude
  import opened ScheduleTypes
  import opened ScheduleModel
  import opened ScheduleInvariants
  import opened ScheduleTheorems
  import opened ScheduleRows
  import opened SchedulePriority
  import opened ScheduleGate

  const T: Id := "t"
  const A: Id := "a"
  const B: Id := "b"
  const P: Id := "p"

  function Request(n: Id): EnqueueRequest {
    EnqueueRequest(T, n, n, Priority("", 0))
  }

  /** The worker answers every dispatch alike. */
  function Input(succeeded: bool): TickInput {
    TickInput(1, 0, 0, 0, 0, Some(P), (k: nat) => Answered(succeeded, None, false, "", 0, true))
  }

  // What the tables look like --------------------------------------------------------------

  /** Topic T alone, nothing running, its references in order. */
  ghost predicate Quiet(db: Sched, ids: set<Id>, dirty: bool) {
    && db.topics.Keys == {T} && db.nodes.Keys == (set n | n in ids :: Key(T, n))
    && db.topics[T].running == {} && db.topics[T].dirty == dirty && TopicRowValid(db, T)
  }

  ghost predicate Business(db: Sched, n: Id, tag: string, status: NodeStatus) {
    && Key(T, n) in db.nodes
    && var row := db.nodes[Key(T, n)];
       row.name != "" && !row.isPriority && row.tag == tag && row.rank == BUSINESS_RANK && row.status == status
  }

  ghost predicate PriorityAt(db: Sched, status: NodeStatus) {
    && T in db.topics && db.topics[T].priorityNodeId == Some(P) && Key(T, P) in db.nodes
    && var row := db.nodes[Key(T, P)];
       row.name != "" && row.isPriority && row.tag == PRIORITY_TAG && row.rank == 0 && row.status == status
  }

  lemma Names()
    ensures T != "" && A != "" && B != "" && P != "" && A != B && A != P && B != P && BUSINESS_TAG != "" && PRIORITY_TAG != "" && PRIORITY_NODE_NAME != ""
  {
  }

  lemma Accepted(n: Id)
    requires n == A || n == B
    ensures NormalizeBusiness(Request(n)) == Ok(EnqueueRequest(T, n, n, Priority(BUSINESS_TAG, BUSINESS_RANK)))
  {
    Names();
  }

  // The first node and the first pass ------------------------------------------------------

  lemma FirstEnqueue()
    ensures Enqueue(EMPTY, Request(A), Arrival(0, "")).1.Ok?
    ensures var db := Enqueue(EMPTY, Request(A), Arrival(0, "")).0;
      Quiet(db, {A}, true) && Business(db, A, BUSINESS_TAG, Ready) && db.topics[T].priorityNodeId.None?
  {
    Names();
    Accepted(A);
    assert OthersAtRank(EnsureTopic(EMPTY, T), T, A, BUSINESS_RANK) == {};
  }

  lemma OneTopicSelected(db: Sched)
    requires db.topics.Keys == {T} && HasRunnable(db, T)
    ensures SelectTopic(db) == Some(T)
  {
    assert T in db.topics;
  }

  lemma OneTopicWork(db: Sched, succeeded: bool, at: Sched)
    requires db.topics.Keys == {T} && HasRunnable(db, T) && Prepare(db, T, Input(succeeded)) == Some(at) && T in at.topics
    ensures Tick(db, Input(succeeded)) == Work(at, T, Input(succeeded))
  {
    OneTopicSelected(db);
  }

  /** A tick on the only topic, without aging. */
  lemma OneTopicTick(db: Sched, succeeded: bool, at: Sched, n: Id)
    requires SchedOk(at) && db.topics.Keys == at.topics.Keys == {T} && HasRunnable(db, T)
    requires Prepare(db, T, Input(succeeded)) == Some(at) && PlannedFor(at, T, 1) == [n]
    ensures Tick(db, Input(succeeded)).selected == Some(T) && Tick(db, Input(succeeded)).planned == [n]
    ensures TickedFrom(DispatchOne(at, T, n, Input(succeeded).replies(0)).db, Tick(db, Input(succeeded)).db, T)
    ensures Tick(db, Input(succeeded)).db.topics.Keys == {T}
  {
    assert T in at.topics;
    OneTopicWork(db, succeeded, at);
    WorkOnOne(at, T, Input(succeeded), n);
    WorkKeepsOk(at, T, Input(succeeded));
  }

  /** The topic has no priority node yet, or P is it. */
  ghost predicate PriorityKnown(db: Sched, ids: set<Id>)
    requires T in db.topics
  {
    if db.topics[T].priorityNodeId.None? then P !in ids
    else P in ids && Key(T, P) in db.nodes && PriorityAt(db, db.nodes[Key(T, P)].status)
  }

  lemma Prepared(db: Sched, succeeded: bool, ids: set<Id>) returns (at: Sched)
    requires SchedOk(db) && Quiet(db, ids, true)
    requires PriorityKnown(db, ids)
    ensures Prepare(db, T, Input(succeeded)) == Some(at) && Quiet(at, ids + {P}, true) && PriorityAt(at, Ready)
    ensures forall n | n in ids && n != P :: at.nodes[Key(T, n)] == db.nodes[Key(T, n)]
  {
    Names();
    at := Prepare(db, T, Input(succeeded)).value;
    assert at.nodes.Keys == db.nodes.Keys + {Key(T, P)};
  }

  lemma PreparedRowsValid(at: Sched, ids: set<Id>)
    requires Quiet(at, ids, true) && PriorityAt(at, Ready) && "" !in ids
    requires forall n | n in ids && n != P :: Business(at, n, BUSINESS_TAG, at.nodes[Key(T, n)].status) && !at.nodes[Key(T, n)].status.Unknown?
    ensures RowsValid(at, T)
  {
    Names();
    forall k | k in at.nodes && k.topic == T ensures RowOk(k.node, at.nodes[k]) && at.nodes[k].tag == (if k.node == P then PRIORITY_TAG else BUSINESS_TAG) && at.nodes[k].rank == (if k.node == P then 0 else 1) {
      assert k.node in ids;
    }
  }

  lemma PreparedPlan(at: Sched, ids: set<Id>)
    requires SchedOk(at) && Quiet(at, ids, true) && PriorityAt(at, Ready) && RowsValid(at, T)
    ensures PlannedFor(at, T, 1) == [P] && Primed(at, T, P)
  {
    PrimedPlan(at, T, P, 1);
    ValidIsRows(at, T);
    assert PlannedFor(at, T, 1) == [P] by {
      PrimedDispatchable(at, T, P);
      OneDispatchable(BuildTopicSnapshot(at, T), P, 1);
    }
  }

  ghost predicate ReadyToPass(db: Sched, ids: set<Id>) {
    && Quiet(db, ids, true) && HasRunnable(db, T) && "" !in ids && PriorityKnown(db, ids)
    && (forall n | n in ids && n != P :: Business(db, n, BUSINESS_TAG, db.nodes[Key(T, n)].status) && !db.nodes[Key(T, n)].status.Unknown?)
  }

  /** A priority pass on the only topic, up to its dispatch. */
  lemma PassTick(db: Sched, succeeded: bool, ids: set<Id>) returns (at: Sched)
    requires SchedOk(db) && ReadyToPass(db, ids)
    ensures PreparedFor(db, Input(succeeded), T) == Some(at) && SchedOk(at) && Quiet(at, ids + {P}, true)
    ensures Primed(at, T, P) && RowsValid(at, T) && PriorityAt(at, Ready)
    ensures forall n | n in ids && n != P :: at.nodes[Key(T, n)] == db.nodes[Key(T, n)]
    ensures Tick(db, Input(succeeded)).selected == Some(T) && Tick(db, Input(succeeded)).planned == [P]
    ensures TickedFrom(DispatchOne(at, T, P, Input(succeeded).replies(0)).db, Tick(db, Input(succeeded)).db, T)
    ensures Tick(db, Input(succeeded)).db.topics.Keys == {T}
  {
    Names();
    at := Prepared(db, succeeded, ids);
    PrepareKeepsOk(db, T, Input(succeeded));
    PreparedRowsValid(at, ids + {P});
    PreparedPlan(at, ids + {P});
    OneTopicTick(db, succeeded, at, P);
  }

  lemma OneReady(db: Sched)
    requires Quiet(db, {A}, true) && Business(db, A, BUSINESS_TAG, Ready) && db.topics[T].priorityNodeId.None?
    ensures ReadyToPass(db, {A})
  {
    Names();
    assert HasRunnable(db, T) by { assert Key(T, A) in db.nodes; }
  }

  lemma BothReady(db: Sched)
    requires Quiet(db, {A, B, P}, true) && PriorityAt(db, Failed)
    requires Business(db, A, BUSINESS_TAG, Failed) && Business(db, B, BUSINESS_TAG, Ready)
    ensures ReadyToPass(db, {A, B, P})
  {
    Names();
    assert HasRunnable(db, T) by { assert Key(T, B) in db.nodes; }
  }

  // First run: the refused enqueue -----------------------------------------------------------

  lemma OnlyOneLive(at: Sched)
    requires Quiet(at, {A, P}, true) && PriorityAt(at, Ready) && Business(at, A, BUSINESS_TAG, Ready)
    ensures LiveBusinessNodes(at, T) == {A}
  {
    Names();
    forall n ensures n in LiveBusinessNodes(at, T) <==> n == A {
      if n in LiveBusinessNodes(at, T) {
        assert Key(T, n) in at.nodes && n in {A, P};
      }
      if n == A { assert Key(T, A) in at.nodes; }
    }
  }

  /** A pass over the one live node A puts it at rank 1 under the worker's label. */
  lemma PassOverOne(at: Sched, r: Reply)
    requires SchedOk(at) && Quiet(at, {A, P}, true) && Primed(at, T, P) && RowsValid(at, T) && PriorityAt(at, Ready)
    requires Business(at, A, BUSINESS_TAG, Ready) && r.Answered? && r.succeeded
    ensures var d := DispatchOne(at, T, P, r).db;
      RowsValid(d, T) && Key(T, A) in d.nodes && d.nodes[Key(T, A)].rank == BUSINESS_RANK && d.nodes[Key(T, A)].tag == PlanTag(BUSINESS_RANK)
  {
    OnlyOneLive(at);
    var n := RankIsTaken(at, T, P, r, BUSINESS_RANK);
    LabelsFitWithoutFinished(at);
    PassValidExactly(at, T, P, r);
  }

  /** After the pass node A holds rank 1 under the worker's label. */
  lemma FirstPass(db: Sched)
    requires SchedOk(db) && Quiet(db, {A}, true) && Business(db, A, BUSINESS_TAG, Ready) && db.topics[T].priorityNodeId.None?
    ensures PassedOn(db, Input(true), T)
    ensures var db' := Tick(db, Input(true)).db;
      && Key(T, A) in db'.nodes && db'.nodes[Key(T, A)].rank == BUSINESS_RANK && db'.nodes[Key(T, A)].tag == PlanTag(BUSINESS_RANK)
      && RowsValid(db', T)
  {
    Names();
    OneReady(db);
    var at := PassTick(db, true, {A});
    assert {A} + {P} == {A, P};
    PassOverOne(at, Input(true).replies(0));
    RowsValidCarries(DispatchOne(at, T, P, Input(true).replies(0)).db, Tick(db, Input(true)).db);
  }

  lemma LabelsFitWithoutFinished(at: Sched)
    requires Quiet(at, {A, P}, true) && PriorityAt(at, Ready) && Business(at, A, BUSINESS_TAG, Ready)
    ensures LabelsFit(at, T)
  {
    forall k | k in at.nodes && k.topic == T && !at.nodes[k].isPriority ensures !IsTerminal(at.nodes[k].status) {
      assert k.node in {A, P};
    }
  }

  lemma RowsValidCarries(d: Sched, db': Sched)
    requires TickedFrom(d, db', T) && RowsValid(d, T)
    ensures RowsValid(db', T)
  {
  }

  /** One more step of a run. */
  lemma Then(states: seq<Sched>, steps: seq<Step>, last: Sched, step: Step, next: Sched)
    requires IsRun(states, steps) && states[|steps|] == last && (step.TickStep? ==> step.input.limit > 0) && next == Apply(last, step)
    ensures IsRun(states + [next], steps + [step])
  {
    var states', steps' := states + [next], steps + [step];
    forall i | 0 <= i < |steps'| ensures Follows(states', steps', i) {
      if i < |steps| { assert Follows(states, steps, i); }
    }
  }

  lemma Start()
    ensures IsRun([EMPTY], []) && SchedOk(EMPTY)
  {
  }

  const ENQUEUE_A := EnqueueStep(Request(A), Arrival(0, ""))

  /**
    Enqueue "a", then a tick whose priority pass succeeds: now enqueue "b" is refused, whatever row
    the rank query sees, although the request itself is in order.
   */
  lemma EnqueueRefusedAfterPass(arrival: Arrival) returns (s1: Sched, s2: Sched)
    ensures IsRun([EMPTY, s1, s2], [ENQUEUE_A, TickStep(Input(true))])
    ensures Enqueue(EMPTY, Request(A), Arrival(0, "")).1.Ok? && PassedOn(s1, Input(true), T)
    ensures NormalizeBusiness(Request(B)).Ok? && Enqueue(s2, Request(B), arrival).1.Err?
  {
    s1 := AfterEnqueue();
    s2 := AfterPass(s1);
    Names();
    Accepted(B);
    EnqueueWhereRankOneIsNow(s2, T, A, Request(B), arrival);
  }

  lemma AfterEnqueue() returns (s1: Sched)
    ensures IsRun([EMPTY, s1], [ENQUEUE_A]) && SchedOk(s1) && Enqueue(EMPTY, Request(A), Arrival(0, "")).1.Ok?
    ensures Quiet(s1, {A}, true) && Business(s1, A, BUSINESS_TAG, Ready) && s1.topics[T].priorityNodeId.None?
  {
    FirstEnqueue();
    s1 := Enqueue(EMPTY, Request(A), Arrival(0, "")).0;
    Start();
    EnqueueKeepsOk(EMPTY, Request(A), Arrival(0, ""));
    Then([EMPTY], [], EMPTY, ENQUEUE_A, s1);
    assert [EMPTY] + [s1] == [EMPTY, s1];
    assert [] + [ENQUEUE_A] == [ENQUEUE_A];
  }

  lemma AfterPass(s1: Sched) returns (s2: Sched)
    requires IsRun([EMPTY, s1], [ENQUEUE_A]) && SchedOk(s1)
    requires Quiet(s1, {A}, true) && Business(s1, A, BUSINESS_TAG, Ready) && s1.topics[T].priorityNodeId.None?
    ensures IsRun([EMPTY, s1, s2], [ENQUEUE_A, TickStep(Input(true))]) && PassedOn(s1, Input(true), T) && RowsValid(s2, T)
    ensures Key(T, A) in s2.nodes && s2.nodes[Key(T, A)].rank == BUSINESS_RANK && s2.nodes[Key(T, A)].tag == PlanTag(BUSINESS_RANK)
  {
    FirstPass(s1);
    s2 := Tick(s1, Input(true)).db;
    Then([EMPTY, s1], [ENQUEUE_A], s1, TickStep(Input(true)), s2);
    assert [EMPTY, s1] + [s2] == [EMPTY, s1, s2];
    assert [ENQUEUE_A] + [TickStep(Input(true))] == [ENQUEUE_A, TickStep(Input(true))];
  }

  ghost predicate Stage1(db: Sched) {
    SchedOk(db) && Quiet(db, {A}, true) && Business(db, A, BUSINESS_TAG, Ready) && db.topics[T].priorityNodeId.None?
  }

  // Second run: the topic that no longer validates ---------------------------------------------

  lemma QuietCarries(d: Sched, db': Sched, ids: set<Id>, dirty: bool)
    requires Quiet(d, ids, dirty) && TickedFrom(d, db', T) && db'.topics.Keys == {T}
    ensures Quiet(db', ids, dirty) && db'.topics[T].priorityNodeId == d.topics[T].priorityNodeId
  {
  }

  lemma RefusedIs(at: Sched, r: Reply)
    requires Primed(at, T, P) && r.Answered? && !r.succeeded
    ensures DispatchOne(at, T, P, r).db == ClearPriorityDirty(Finished(at, T, P, r), T, PassError(r.error))
  {
  }

  lemma ClearedQuiet(at: Sched, f: Sched, error: string)
    requires Quiet(at, {A, P}, true) && PriorityAt(at, Ready) && P != ""
    requires f.nodes.Keys == at.nodes.Keys && f.topics.Keys == {T} && f.topics[T].running == {} && f.topics[T].switchCount >= 0
    requires f.topics[T].priorityNodeId == Some(P) && f.topics[T].currentNodeId == Some(P) && f.topics[T].lastWorkedNodeId == Some(P)
    requires f.nodes[Key(T, P)] == at.nodes[Key(T, P)].(status := Failed, lastWorkedAt := f.nodes[Key(T, P)].lastWorkedAt)
    ensures Quiet(ClearPriorityDirty(f, T, error), {A, P}, false) && PriorityAt(ClearPriorityDirty(f, T, error), Failed)
    ensures ClearPriorityDirty(f, T, error).nodes == f.nodes
  {
  }

  /** A priority pass that the worker answers with a failure. */
  lemma RefusedDispatch(at: Sched)
    requires SchedOk(at) && Quiet(at, {A, P}, true) && Primed(at, T, P) && PriorityAt(at, Ready)
    ensures var d := DispatchOne(at, T, P, Input(false).replies(0)).db;
      Quiet(d, {A, P}, false) && PriorityAt(d, Failed) && d.nodes[Key(T, A)] == at.nodes[Key(T, A)]
  {
    Names();
    var r := Input(false).replies(0);
    var f := Finished(at, T, P, r);
    RefusedIs(at, r);
    FinishedRows(at, T, P, r);
    FinishedPriorityRow(at, T, P, r);
    NothingRuns(at, r);
    assert f.topics.Keys == {T};
    ClearedQuiet(at, f, PassError(r.error));
  }

  lemma NothingRuns(at: Sched, r: Reply)
    requires SchedOk(at) && Quiet(at, {A, P}, true) && Primed(at, T, P) && r == Input(false).replies(0)
    ensures var f := Finished(at, T, P, r);
      T in f.topics && f.topics[T].running == {} && Key(T, P) in f.nodes && f.nodes[Key(T, P)].status == Failed
      && f.topics[T].switchCount >= at.topics[T].switchCount && f.topics[T].currentNodeId == Some(P) && f.topics[T].lastWorkedNodeId == Some(P)
  {
    forall k | k in at.nodes && k.topic == T ensures at.nodes[k].status != Running {
      assert NodeOk(at, k);
    }
  }

  lemma FailedPass(db: Sched)
    requires SchedOk(db) && Quiet(db, {A}, true) && Business(db, A, BUSINESS_TAG, Ready) && db.topics[T].priorityNodeId.None?
    ensures var db' := Tick(db, Input(false)).db;
      Quiet(db', {A, P}, false) && PriorityAt(db', Failed) && Business(db', A, BUSINESS_TAG, Ready)
  {
    Names();
    OneReady(db);
    var at := PassTick(db, false, {A});
    assert {A} + {P} == {A, P};
    RefusedDispatch(at);
    QuietCarries(DispatchOne(at, T, P, Input(false).replies(0)).db, Tick(db, Input(false)).db, {A, P}, false);
  }

  lemma OnlyACanGo(db: Sched)
    requires Quiet(db, {A, P}, false) && PriorityAt(db, Failed) && Business(db, A, BUSINESS_TAG, Ready)
    ensures RowsValid(db, T) && PlannedFor(db, T, 1) == [A]
  {
    Names();
    forall k | k in db.nodes && k.topic == T ensures k == Key(T, A) || k == Key(T, P) {
      assert k.node in {A, P};
    }
    assert CanGo(db, T, A);
    OnlyOneCanGo(db, T, A, 1);
  }

  /** What is left when A has run and failed. */
  lemma FailedRows(db: Sched)
    requires SchedOk(db) && Quiet(db, {A, P}, false) && PriorityAt(db, Failed) && Business(db, A, BUSINESS_TAG, Ready)
    ensures var d := DispatchOne(db, T, A, Input(false).replies(0)).db;
      && d.nodes.Keys == db.nodes.Keys && d.nodes[Key(T, P)] == db.nodes[Key(T, P)] && Business(d, A, BUSINESS_TAG, Failed)
      && d.topics.Keys == {T} && d.topics[T] == db.topics[T].(running := d.topics[T].running, currentNodeId := Some(A),
           lastWorkedNodeId := Some(A), switchCount := d.topics[T].switchCount)
      && d.topics[T].switchCount >= db.topics[T].switchCount
  {
    Names();
  }

  lemma FailedRunsNothing(db: Sched)
    requires SchedOk(db) && Quiet(db, {A, P}, false) && PriorityAt(db, Failed) && Business(db, A, BUSINESS_TAG, Ready)
    ensures var d := DispatchOne(db, T, A, Input(false).replies(0)).db; T in d.topics && d.topics[T].running == {}
  {
    Names();
    forall k | k in db.nodes && k.topic == T ensures db.nodes[k].status != Running {
      assert k.node in {A, P};
    }
  }

  lemma NodeFails(db: Sched)
    requires SchedOk(db) && Quiet(db, {A, P}, false) && PriorityAt(db, Failed) && Business(db, A, BUSINESS_TAG, Ready)
    ensures var d := DispatchOne(db, T, A, Input(false).replies(0)).db;
      Quiet(d, {A, P}, false) && PriorityAt(d, Failed) && Business(d, A, BUSINESS_TAG, Failed)
  {
    Names();
    FailedRows(db);
    FailedRunsNothing(db);
  }

  lemma FailedNode(db: Sched)
    requires SchedOk(db) && Quiet(db, {A, P}, false) && PriorityAt(db, Failed) && Business(db, A, BUSINESS_TAG, Ready)
    ensures var db' := Tick(db, Input(false)).db;
      Quiet(db', {A, P}, false) && PriorityAt(db', Failed) && Business(db', A, BUSINESS_TAG, Failed)
  {
    assert HasRunnable(db, T) by { assert Key(T, A) in db.nodes; }
    OnlyACanGo(db);
    OneTopicTick(db, false, db, A);
    NodeFails(db);
    QuietCarries(DispatchOne(db, T, A, Input(false).replies(0)).db, Tick(db, Input(false)).db, {A, P}, false);
  }

  lemma SecondEnqueue(db: Sched)
    requires Quiet(db, {A, P}, false) && PriorityAt(db, Failed) && Business(db, A, BUSINESS_TAG, Failed)
    ensures var r := Enqueue(db, Request(B), Arrival(0, A));
      && r.1.Ok? && Quiet(r.0, {A, B, P}, true) && PriorityAt(r.0, Failed)
      && Business(r.0, A, BUSINESS_TAG, Failed) && Business(r.0, B, BUSINESS_TAG, Ready)
  {
    Names();
    Accepted(B);
    assert A in OthersAtRank(db, T, B, BUSINESS_RANK) by { assert Key(T, A) in db.nodes; }
    EnqueueByProbe(db, Request(B), Arrival(0, A));
    var db' := Enqueue(db, Request(B), Arrival(0, A)).0;
    assert db'.nodes.Keys == db.nodes.Keys + {Key(T, B)};
  }

  /** The finished A keeps "interactive" at the rank that the plan labels "now" for B. */
  lemma MisfittingPass(at: Sched)
    requires SchedOk(at) && Quiet(at, {A, B, P}, true) && Primed(at, T, P) && RowsValid(at, T)
    requires Business(at, A, BUSINESS_TAG, Failed) && Business(at, B, BUSINESS_TAG, Ready)
    ensures !LabelsFit(at, T)
    ensures var d := DispatchOne(at, T, P, Input(true).replies(0)).db;
      T in d.topics && !RowsValid(d, T) && HasRunnable(d, T) && !d.topics[T].dirty
  {
    var r := Input(true).replies(0);
    assert B in LiveBusinessNodes(at, T) by { assert Key(T, B) in at.nodes; }
    NowIsNotInteractive();
    assert !LabelsFit(at, T) by {
      assert |LiveBusinessNodes(at, T)| >= 1;
      assert Key(T, A) in at.nodes && at.nodes[Key(T, A)].tag != PlanTag(at.nodes[Key(T, A)].rank);
    }
    PassValidExactly(at, T, P, r);
    PassRow(at, T, P, r, B);
    PassClearsDirty(at, T, P, r);
    assert HasRunnable(DispatchOne(at, T, P, r).db, T) by { assert Key(T, B) in DispatchOne(at, T, P, r).db.nodes; }
  }

  /** Runnable, without a mark, and invalid. */
  ghost predicate Stuck(db: Sched) {
    db.topics.Keys == {T} && !IsDirty(db, T) && HasRunnable(db, T) && !RowsValid(db, T)
  }

  lemma MisfittingRows(db: Sched, at: Sched)
    requires Quiet(db, {A, B, P}, true) && Business(db, A, BUSINESS_TAG, Failed) && Business(db, B, BUSINESS_TAG, Ready)
    requires forall n | n in {A, B, P} && n != P :: Key(T, n) in at.nodes && at.nodes[Key(T, n)] == db.nodes[Key(T, n)]
    ensures Business(at, A, BUSINESS_TAG, Failed) && Business(at, B, BUSINESS_TAG, Ready)
  {
    Names();
  }

  lemma BreakingPass(db: Sched)
    requires SchedOk(db) && Quiet(db, {A, B, P}, true) && PriorityAt(db, Failed)
    requires Business(db, A, BUSINESS_TAG, Failed) && Business(db, B, BUSINESS_TAG, Ready)
    ensures PassedOn(db, Input(true), T) && Stuck(Tick(db, Input(true)).db)
  {
    Names();
    BothReady(db);
    var at := PassTick(db, true, {A, B, P});
    assert {A, B, P} + {P} == {A, B, P};
    MisfittingRows(db, at);
    MisfittingPass(at);
    StuckCarries(DispatchOne(at, T, P, Input(true).replies(0)).db, Tick(db, Input(true)).db);
  }

  lemma StuckCarries(d: Sched, db': Sched)
    requires TickedFrom(d, db', T) && db'.topics.Keys == {T} && HasRunnable(d, T) && !d.topics[T].dirty && !RowsValid(d, T)
    ensures Stuck(db')
  {
    RowsBothWays(d, db');
  }

  lemma RowsBothWays(d: Sched, db': Sched)
    requires TickedFrom(d, db', T)
    ensures RowsValid(db', T) <==> RowsValid(d, T)
  {
  }

  /** Every later tick selects the stuck topic, plans nothing, serves nothing and leaves it stuck. */
  lemma StuckStays(db: Sched, input: TickInput)
    requires SchedOk(db) && Stuck(db) && input.limit > 0
    ensures var r := Tick(db, input); r.selected == Some(T) && r.planned == [] && !r.served && Stuck(r.db)
  {
    var aged := PromoteAgedTopics(db, input.promoteAt, input.agingThreshold);
    AgingKeepsPlanning(db, input.promoteAt, input.agingThreshold, T);
    assert HasRunnable(aged, T) by {
      var n :| Key(T, n) in db.nodes && !IsTerminal(db.nodes[Key(T, n)].status) && !BlocksDispatch(db.nodes[Key(T, n)].status);
      assert Key(T, n) in aged.nodes;
    }
    OneTopicSelected(aged);
    StuckCarries(db, aged);
    ValidIsRows(aged, T);
  }

  const ENQUEUE_B := EnqueueStep(Request(B), Arrival(0, A))

  /** The priority node has failed; A has the given status. */
  ghost predicate Stage2(db: Sched, status: NodeStatus) {
    SchedOk(db) && Quiet(db, {A, P}, false) && PriorityAt(db, Failed) && Business(db, A, BUSINESS_TAG, status)
  }

  ghost predicate Stage4(db: Sched) {
    && SchedOk(db) && Quiet(db, {A, B, P}, true) && PriorityAt(db, Failed)
    && Business(db, A, BUSINESS_TAG, Failed) && Business(db, B, BUSINESS_TAG, Ready)
  }

  ghost predicate EndsIn(states: seq<Sched>, steps: seq<Step>, last: Sched) {
    IsRun(states, steps) && states[|steps|] == last
  }

  lemma AfterTick(states: seq<Sched>, steps: seq<Step>, last: Sched, succeeded: bool)
    requires EndsIn(states, steps, last) && SchedOk(last)
    ensures var next := Tick(last, Input(succeeded)).db;
      SchedOk(next) && EndsIn(states + [next], steps + [TickStep(Input(succeeded))], next)
  {
    TickKeepsOk(last, Input(succeeded));
    Then(states, steps, last, TickStep(Input(succeeded)), Tick(last, Input(succeeded)).db);
  }

  lemma PassFails(states: seq<Sched>, steps: seq<Step>, last: Sched) returns (next: Sched)
    requires EndsIn(states, steps, last) && Stage1(last)
    ensures EndsIn(states + [next], steps + [TickStep(Input(false))], next) && Stage2(next, Ready)
  {
    FailedPass(last);
    AfterTick(states, steps, last, false);
    next := Tick(last, Input(false)).db;
  }

  lemma AFails(states: seq<Sched>, steps: seq<Step>, last: Sched) returns (next: Sched)
    requires EndsIn(states, steps, last) && Stage2(last, Ready)
    ensures EndsIn(states + [next], steps + [TickStep(Input(false))], next) && Stage2(next, Failed)
  {
    FailedNode(last);
    AfterTick(states, steps, last, false);
    next := Tick(last, Input(false)).db;
  }

  lemma BComes(states: seq<Sched>, steps: seq<Step>, last: Sched) returns (next: Sched)
    requires EndsIn(states, steps, last) && Stage2(last, Failed)
    ensures EndsIn(states + [next], steps + [ENQUEUE_B], next) && Stage4(next) && Enqueue(last, Request(B), Arrival(0, A)).1.Ok?
  {
    SecondEnqueue(last);
    EnqueueKeepsOk(last, Request(B), Arrival(0, A));
    next := Enqueue(last, Request(B), Arrival(0, A)).0;
    Then(states, steps, last, ENQUEUE_B, next);
  }

  lemma PassBreaks(states: seq<Sched>, steps: seq<Step>, last: Sched) returns (next: Sched)
    requires EndsIn(states, steps, last) && Stage4(last)
    ensures EndsIn(states + [next], steps + [TickStep(Input(true))], next) && SchedOk(next) && Stuck(next) && PassedOn(last, Input(true), T)
  {
    BreakingPass(last);
    AfterTick(states, steps, last, true);
    next := Tick(last, Input(true)).db;
  }

  /**
    Enqueue "a"; the priority pass fails and clears the mark; "a" is dispatched and fails; enqueue
    "b"; the next priority pass succeeds. From then on no tick serves the topic (StuckStays).
   */
  lemma PassCanBreakTopic() returns (states: seq<Sched>, steps: seq<Step>, before: Sched, last: Sched)
    ensures IsRun(states, steps) && |steps| == 5 && states[4] == before && states[5] == last
    ensures steps == [ENQUEUE_A] + [TickStep(Input(false))] + [TickStep(Input(false))] + [ENQUEUE_B] + [TickStep(Input(true))]
    ensures PassedOn(before, Input(true), T) && SchedOk(last) && Stuck(last)
  {
    var s1 := AfterEnqueue();
    var s2 := PassFails([EMPTY, s1], [ENQUEUE_A], s1);
    states, steps := [EMPTY, s1] + [s2], [ENQUEUE_A] + [TickStep(Input(false))];
    var s3 := AFails(states, steps, s2);
    states, steps := states + [s3], steps + [TickStep(Input(false))];
    before := BComes(states, steps, s3);
    states, steps := states + [before], steps + [ENQUEUE_B];
    last := PassBreaks(states, steps, before);
    states, steps := states + [last], steps + [TickStep(Input(true))];
  }
}
