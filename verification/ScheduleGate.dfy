/**
  The re-rank gate over whole runs: between an enqueue and the next business node of its topic
  there is a tick that ran the priority node and cleared the dirty mark, and what that tick did to
  the ranks decides what the topic dispatches next.
 */
module ScheduleGate {
  import opened Prelude
  import opened ScheduleTypes
  import opened ScheduleModel
  import opened ScheduleInvariants
  import opened ScheduleTheorems
  import opened ScheduleRows
  import opened SchedulePriority

  // What a pass does -----------------------------------------------------------------------

  /** The live business nodes carry the ranks and labels of the plan, the others their old rows. */
  ghost predicate RankedBy(db: Sched, db': Sched, t: Id, p: Id, plan: seq<Assignment>) {
    && RanksLiveNodes(db, t, plan)
    && (forall i | 0 <= i < |plan| :: Key(t, plan[i].nodeId) in db'.nodes
          && db'.nodes[Key(t, plan[i].nodeId)].rank == i + 1 && db'.nodes[Key(t, plan[i].nodeId)].tag == plan[i].tag)
    && (forall n | Key(t, n) in db.nodes && n != p && n !in LiveBusinessNodes(db, t) ::
          Key(t, n) in db'.nodes && db'.nodes[Key(t, n)] == db.nodes[Key(t, n)])
  }

  ghost predicate OtherRowsKept(db: Sched, db': Sched, t: Id, p: Id) {
    forall k | k in db.nodes && k != Key(t, p) :: k in db'.nodes && db'.nodes[k] == db.nodes[k]
  }

  lemma PlanRanksPrepared(db: Sched, t: Id, p: Id, r: Reply)
    requires SchedOk(db) && Primed(db, t, p) && r.Answered?
    ensures RanksLiveNodes(db, t, PassPlan(db, t, p))
  {
    SameLiveNodes(db, t, p, r);
    WorkerPlanRanksLiveNodes(MarkNodeRunning(db, t, p), t);
  }

  lemma SucceededPass(db: Sched, t: Id, p: Id, r: Reply)
    requires SchedOk(db) && Primed(db, t, p) && RowsValid(db, t) && r.Answered? && r.succeeded
    ensures var db' := DispatchOne(db, t, p, r).db;
      RankedBy(db, db', t, p, PassPlan(db, t, p)) && t in db'.topics && !db'.topics[t].dirty && db'.topics[t].lastPriorityError.None?
  {
    var db', plan := DispatchOne(db, t, p, r).db, PassPlan(db, t, p);
    PlanRanksPrepared(db, t, p, r);
    forall i | 0 <= i < |plan| ensures Key(t, plan[i].nodeId) in db'.nodes && db'.nodes[Key(t, plan[i].nodeId)].rank == i + 1 && db'.nodes[Key(t, plan[i].nodeId)].tag == plan[i].tag {
      PassRanks(db, t, p, r, i);
    }
    forall n | Key(t, n) in db.nodes && n != p && n !in LiveBusinessNodes(db, t) ensures Key(t, n) in db'.nodes && db'.nodes[Key(t, n)] == db.nodes[Key(t, n)] {
      PassKeepsUnplanned(db, t, p, r, n);
    }
    PassResult(db, t, p, r);
    FinishedRows(db, t, p, r);
    AppliedTopic(Finished(db, t, p, r), t, plan, r.at);
  }

  lemma RefusedPass(db: Sched, t: Id, p: Id, r: Reply)
    requires SchedOk(db) && Primed(db, t, p) && r.Answered? && !r.succeeded
    ensures var db' := DispatchOne(db, t, p, r).db;
      OtherRowsKept(db, db', t, p) && t in db'.topics && !db'.topics[t].dirty && db'.topics[t].lastPriorityError == Some(PassError(r.error))
  {
    FinishedRows(db, t, p, r);
  }

  /** Without an answer from the worker the mark stays. */
  lemma UnansweredPass(db: Sched, t: Id, p: Id, r: Reply)
    requires Primed(db, t, p) && !r.Answered?
    ensures IsDirty(DispatchOne(db, t, p, r).db, t)
  {
  }

  // From a dispatch to its tick ------------------------------------------------------------

  /** db' is what a tick made of the tables that the dispatch of its only node left. */
  ghost predicate TickedFrom(d: Sched, db': Sched, t: Id) {
    t in d.topics && SamePlanning(d, db', t) && db'.nodes == d.nodes
  }

  /** A tick that plans one node leaves what its dispatch left, but for level and service time. */
  lemma WorkOnOne(db: Sched, t: Id, input: TickInput, n: Id)
    requires t in db.topics && input.limit > 0 && PlannedFor(db, t, input.limit) == [n]
    ensures var d := DispatchOne(db, t, n, input.replies(0));
      TickedFrom(d.db, Work(db, t, input).db, t) && Work(db, t, input).planned == [n] && Work(db, t, input).selected == Some(t)
  {
    DispatchOneKeepsPriorityNode(db, t, n, input.replies(0));
    OneDispatch(db, t, n, input.replies);
    var d := DispatchOne(db, t, n, input.replies(0)).db;
    ServeKeepsPlanning(d, t, HasRunnable(d, t), input.servedAt);
  }

  lemma ServeKeepsPlanning(db: Sched, t: Id, runnable: bool, at: int)
    requires t in db.topics
    ensures TickedFrom(db, db, t) && TickedFrom(db, Serve(db, t, runnable, at), t)
  {
  }

  lemma OneDispatch(db: Sched, t: Id, n: Id, replies: nat -> Reply)
    ensures DispatchAll(db, t, [n], replies) == DispatchOne(db, t, n, replies(0))
  {
    assert [n][..0] == [];
    assert DispatchAll(db, t, [], replies) == Dispatched(db, true);
  }

  lemma PreparedRows(db: Sched, input: TickInput, t: Id)
    requires SchedOk(db) && IsDirty(db, t) && PreparedFor(db, input, t).Some?
    ensures var at := PreparedFor(db, input, t).value;
      t in at.topics && at.topics[t].priorityNodeId.Some? && OtherRowsKept(db, at, t, at.topics[t].priorityNodeId.value)
  {
  }

  lemma WorkingTick(db: Sched, input: TickInput, t: Id) returns (aged: Sched, at: Sched)
    requires SchedOk(db) && input.limit > 0 && Tick(db, input).selected == Some(t) && Tick(db, input).planned != []
    ensures aged == PromoteAgedTopics(db, input.promoteAt, input.agingThreshold) && SchedOk(aged) && t in aged.topics
    ensures Prepare(aged, t, input) == Some(at) && SchedOk(at) && t in at.topics && Tick(db, input) == Work(at, t, input)
  {
    var prepared;
    aged, prepared := TickShape(db, input);
    at := prepared.value;
  }

  lemma PassPrepared(db: Sched, input: TickInput, t: Id) returns (at: Sched, p: Id)
    requires SchedOk(db) && input.limit > 0 && IsDirty(db, t) && Tick(db, input).selected == Some(t) && Tick(db, input).planned != []
    ensures PreparedFor(db, input, t) == Some(at) && SchedOk(at) && Primed(at, t, p)
    ensures Tick(db, input) == Work(at, t, input)
  {
    var aged;
    aged, at := WorkingTick(db, input, t);
    AgedStaysDirty(db, input, t);
    PrepareDirty(aged, t, input);
    p := at.topics[t].priorityNodeId.value;
  }

  lemma AgedStaysDirty(db: Sched, input: TickInput, t: Id)
    requires IsDirty(db, t)
    ensures IsDirty(PromoteAgedTopics(db, input.promoteAt, input.agingThreshold), t)
  {
  }

  lemma PrimedWork(at: Sched, t: Id, p: Id, input: TickInput)
    requires SchedOk(at) && Primed(at, t, p) && input.limit > 0 && Work(at, t, input).planned != []
    ensures RowsValid(at, t) && PlannedFor(at, t, input.limit) == [p]
  {
    WorkKeepsPriorityNode(at, t, input);
    PrimedPlan(at, t, p, input.limit);
    ValidIsRows(at, t);
  }

  /** The tick of a priority pass, opened up. */
  lemma PassShape(db: Sched, input: TickInput, t: Id) returns (at: Sched, p: Id)
    requires SchedOk(db) && input.limit > 0 && IsDirty(db, t) && Tick(db, input).selected == Some(t) && Tick(db, input).planned != []
    ensures PreparedFor(db, input, t) == Some(at) && SchedOk(at) && Primed(at, t, p) && RowsValid(at, t) && OtherRowsKept(db, at, t, p)
    ensures TickedFrom(DispatchOne(at, t, p, input.replies(0)).db, Tick(db, input).db, t) && Tick(db, input).planned == [p]
  {
    at, p := PassPrepared(db, input, t);
    PreparedRows(db, input, t);
    PrimedWork(at, t, p, input);
    WorkOnOne(at, t, input, p);
  }

  // The gate -------------------------------------------------------------------------------

  /** What a clearing tick did: the worker answered, and ranked the nodes or left them with an error. */
  ghost predicate PassDid(db: Sched, input: TickInput, db': Sched, t: Id) {
    var prepared := PreparedFor(db, input, t);
    && prepared.Some? && t in prepared.value.topics && prepared.value.topics[t].priorityNodeId.Some? && t in db'.topics
    && var at, r := prepared.value, input.replies(0);
       var p := at.topics[t].priorityNodeId.value;
       && OtherRowsKept(db, at, t, p) && r.Answered?
       && (r.succeeded ==> RankedBy(at, db', t, p, PassPlan(at, t, p)) && db'.topics[t].lastPriorityError.None?)
       && (!r.succeeded ==> OtherRowsKept(at, db', t, p) && db'.topics[t].lastPriorityError == Some(PassError(r.error)))
  }

  lemma DispatchDid(at: Sched, t: Id, p: Id, r: Reply, db': Sched)
    requires SchedOk(at) && Primed(at, t, p) && RowsValid(at, t)
    requires TickedFrom(DispatchOne(at, t, p, r).db, db', t) && !IsDirty(db', t)
    ensures r.Answered?
    ensures r.succeeded ==> RankedBy(at, db', t, p, PassPlan(at, t, p)) && db'.topics[t].lastPriorityError.None?
    ensures !r.succeeded ==> OtherRowsKept(at, db', t, p) && db'.topics[t].lastPriorityError == Some(PassError(r.error))
  {
    var d := DispatchOne(at, t, p, r).db;
    assert !IsDirty(d, t);
    if !r.Answered? {
      UnansweredPass(at, t, p, r);
    } else if r.succeeded {
      SucceededPass(at, t, p, r);
    } else {
      RefusedPass(at, t, p, r);
    }
  }

  lemma ClearingPassDid(db: Sched, input: TickInput, t: Id)
    requires SchedOk(db) && input.limit > 0 && Clears(db, TickStep(input), Tick(db, input).db, t)
    ensures PassDid(db, input, Tick(db, input).db, t)
  {
    var at, p := PassShape(db, input, t);
    DispatchDid(at, t, p, input.replies(0), Tick(db, input).db);
  }

  /** Step k runs the priority node of t and takes its dirty mark away. */
  ghost predicate ClearsAt(states: seq<Sched>, steps: seq<Step>, k: nat, t: Id)
    requires k < |steps| < |states|
  {
    Clears(states[k], steps[k], states[k + 1], t)
  }

  lemma ClearingStepDid(states: seq<Sched>, steps: seq<Step>, k: nat, t: Id)
    requires IsRun(states, steps) && k < |steps| && ClearsAt(states, steps, k, t)
    ensures PassDid(states[k], steps[k].input, states[k + 1], t)
  {
    EveryStateOk(states, steps, k);
    RunStep(states, steps, k);
    ClearingPassDid(states[k], steps[k].input, t);
  }

  /** The step is an accepted enqueue on topic t. */
  ghost predicate AcceptsFor(db: Sched, step: Step, t: Id) {
    step.EnqueueStep? && step.request.topicId == t && Enqueue(db, step.request, step.arrival).1.Ok?
  }

  /** The step is a tick that hands node n of topic t to dispatch. */
  ghost predicate Plans(db: Sched, step: Step, t: Id, n: Id) {
    step.TickStep? && step.input.limit > 0 && Tick(db, step.input).selected == Some(t) && n in Tick(db, step.input).planned
  }

  ghost predicate IsPriorityNode(db: Sched, t: Id, n: Id) {
    t in db.topics && db.topics[t].priorityNodeId == Some(n)
  }

  lemma SomeTickClears(states: seq<Sched>, steps: seq<Step>, i: nat, j: nat, t: Id, n: Id)
    requires IsRun(states, steps) && i < j < |steps|
    requires AcceptsFor(states[i], steps[i], t) && Plans(states[j], steps[j], t, n) && !IsPriorityNode(states[j + 1], t, n)
    ensures exists k :: i < k < j && ClearsAt(states, steps, k, t)
  {
    if forall k | i < k < j :: !ClearsAt(states, steps, k, t) {
      forall k | i < k < j ensures !Clears(states[k], steps[k], states[k + 1], t) {
        assert !ClearsAt(states, steps, k, t);
      }
      DirtyAfterEnqueue(states, steps, i, j, t);
      TickWhileDirty(states, steps, j, t, n);
    }
  }

  /**
    After an accepted enqueue, a business node of the topic is dispatched only after a tick k that
    ran the priority node and cleared the mark. That tick had the worker's answer: a success
    ranked every live business node by the worker's plan; a failure left every rank as it was and
    recorded the error.
   */
  lemma RerankGate(states: seq<Sched>, steps: seq<Step>, i: nat, j: nat, t: Id, n: Id) returns (k: nat)
    requires IsRun(states, steps) && i < j < |steps|
    requires AcceptsFor(states[i], steps[i], t) && Plans(states[j], steps[j], t, n) && !IsPriorityNode(states[j + 1], t, n)
    ensures i < k < j && ClearsAt(states, steps, k, t) && PassDid(states[k], steps[k].input, states[k + 1], t)
  {
    SomeTickClears(states, steps, i, j, t, n);
    k :| i < k < j && ClearsAt(states, steps, k, t);
    ClearingStepDid(states, steps, k, t);
  }

  // The tick after the pass ----------------------------------------------------------------

  /** No enqueue on t and no tick that selects it. */
  ghost predicate LeavesAlone(db: Sched, step: Step, t: Id) {
    match step
    case EnqueueStep(r, _) => r.topicId != t
    case TickStep(input) => input.limit > 0 && Tick(db, input).selected != Some(t)
  }

  ghost predicate Undisturbed(states: seq<Sched>, steps: seq<Step>, a: nat, b: nat, t: Id) {
    a <= b <= |steps| <= |states| && forall k | a <= k < b :: LeavesAlone(states[k], steps[k], t)
  }

  ghost predicate Selects(db: Sched, step: Step, t: Id) {
    step.TickStep? && step.input.limit > 0 && Tick(db, step.input).selected == Some(t)
  }

  lemma SamePlanningByTopic(db: Sched, db': Sched, t: Id, x: Id)
    requires OnlyTopic(db, db', x) && x != t && t in db.topics
    ensures SamePlanning(db, db', t)
  {
  }

  lemma SamePlanningTransitive(a: Sched, b: Sched, c: Sched, t: Id)
    requires SamePlanning(a, b, t) && SamePlanning(b, c, t)
    ensures SamePlanning(a, c, t)
  {
  }

  lemma AgingKeepsPlanning(db: Sched, now: int, threshold: int, t: Id)
    requires t in db.topics
    ensures SamePlanning(db, PromoteAgedTopics(db, now, threshold), t)
  {
  }

  lemma TickLeavesAlone(db: Sched, input: TickInput, t: Id)
    requires SchedOk(db) && input.limit > 0 && t in db.topics && Tick(db, input).selected != Some(t)
    ensures SamePlanning(db, Tick(db, input).db, t)
  {
    var aged, prepared := TickShape(db, input);
    var selected := Tick(db, input).selected;
    AgingKeepsPlanning(db, input.promoteAt, input.agingThreshold, t);
    if selected.Some? && prepared.Some? {
      WorkKeepsOk(prepared.value, selected.value, input);
      SamePlanningByTopic(aged, prepared.value, t, selected.value);
      SamePlanningByTopic(prepared.value, Work(prepared.value, selected.value, input).db, t, selected.value);
      SamePlanningTransitive(db, aged, prepared.value, t);
      SamePlanningTransitive(db, prepared.value, Work(prepared.value, selected.value, input).db, t);
    }
  }

  lemma StepLeavesAlone(db: Sched, step: Step, t: Id)
    requires SchedOk(db) && (step.TickStep? ==> step.input.limit > 0) && t in db.topics && LeavesAlone(db, step, t)
    ensures SamePlanning(db, Apply(db, step), t)
  {
    match step
    case EnqueueStep(r, arrival) =>
      EnqueueKeepsOk(db, r, arrival);
      SamePlanningByTopic(db, Enqueue(db, r, arrival).0, t, r.topicId);
    case TickStep(input) => TickLeavesAlone(db, input, t);
  }

  lemma {:induction false} RunLeavesAlone(states: seq<Sched>, steps: seq<Step>, t: Id, a: nat, b: nat)
    requires IsRun(states, steps) && a <= b < |states| && t in states[a].topics && Undisturbed(states, steps, a, b, t)
    ensures SamePlanning(states[a], states[b], t)
    decreases b
  {
    if a < b {
      RunLeavesAlone(states, steps, t, a, b - 1);
      EveryStateOk(states, steps, b - 1);
      RunStep(states, steps, b - 1);
      StepLeavesAlone(states[b - 1], steps[b - 1], t);
      SamePlanningTransitive(states[a], states[b - 1], states[b], t);
    }
  }

  /** A tick that selects a topic without the mark plans on it as it is. */
  lemma CleanTickPlans(db: Sched, input: TickInput, t: Id)
    requires SchedOk(db) && input.limit > 0 && t in db.topics && !IsDirty(db, t) && Tick(db, input).selected == Some(t)
    ensures Tick(db, input).planned == PlannedFor(db, t, input.limit)
  {
    var aged, prepared := TickShape(db, input);
    AgingKeepsPlanning(db, input.promoteAt, input.agingThreshold, t);
    assert prepared == Some(aged);
    WorkKeepsPriorityNode(aged, t, input);
    SamePlan(db, aged, t, input.limit);
  }

  /** What the next tick on t plans after a successful pass on the tables at. */
  ghost function NextPlan(at: Sched, t: Id, p: Id): seq<Id> {
    var plan := PassPlan(at, t, p);
    var allBlocked := forall n | n in LiveBusinessNodes(at, t) :: BlocksDispatch(at.nodes[Key(t, n)].status);
    if LabelsFit(at, t) && !allBlocked && plan != [] then [plan[0].nodeId] else []
  }

  /** Topic t has no mark, and a tick with this limit would plan these nodes. */
  ghost predicate ReadyFor(db: Sched, t: Id, limit: nat, ids: seq<Id>) {
    t in db.topics && !IsDirty(db, t) && PlannedFor(db, t, limit) == ids
  }

  /** The tick is a successful priority pass on t. */
  ghost predicate PassedOn(db: Sched, input: TickInput, t: Id) {
    && input.limit > 0 && IsDirty(db, t) && Tick(db, input).selected == Some(t) && Tick(db, input).planned != []
    && input.replies(0).Answered? && input.replies(0).succeeded
  }

  /** What the next tick on t plans after the pass of this tick. */
  ghost function NextPlanAfter(db: Sched, input: TickInput, t: Id): seq<Id>
    requires PreparedFor(db, input, t).Some?
  {
    var at := PreparedFor(db, input, t).value;
    if t in at.topics && at.topics[t].priorityNodeId.Some? then NextPlan(at, t, at.topics[t].priorityNodeId.value) else []
  }

  lemma OutcomeCarries(at: Sched, t: Id, p: Id, d: Sched, db': Sched, limit: nat)
    requires PassOutcome(at, d, t, PassPlan(at, t, p), limit) && TickedFrom(d, db', t)
    ensures ReadyFor(db', t, limit, NextPlan(at, t, p))
  {
    SamePlan(d, db', t, limit);
  }

  lemma PassPlansNext(db: Sched, input: TickInput, t: Id, limit: nat)
    requires SchedOk(db) && limit > 0 && PassedOn(db, input, t)
    ensures PreparedFor(db, input, t).Some? && ReadyFor(Tick(db, input).db, t, limit, NextPlanAfter(db, input, t))
  {
    var at, p := PassShape(db, input, t);
    ValidIsRows(at, t);
    PriorityPassComposition(at, t, p, input.replies(0), limit);
    OutcomeCarries(at, t, p, DispatchOne(at, t, p, input.replies(0)).db, Tick(db, input).db, limit);
  }

  /** Until the next tick on t, nothing changes what it would plan. */
  lemma PlanStays(states: seq<Sched>, steps: seq<Step>, a: nat, j: nat, t: Id, ids: seq<Id>)
    requires IsRun(states, steps) && a <= j < |steps| && Undisturbed(states, steps, a, j, t) && Selects(states[j], steps[j], t)
    requires ReadyFor(states[a], t, steps[j].input.limit, ids)
    ensures Tick(states[j], steps[j].input).planned == ids
  {
    RunLeavesAlone(states, steps, t, a, j);
    EveryStateOk(states, steps, j);
    SamePlan(states[a], states[j], t, steps[j].input.limit);
    CleanTickPlans(states[j], steps[j].input, t);
  }

  /** Step i is a successful priority pass on t. */
  ghost predicate PassedAt(states: seq<Sched>, steps: seq<Step>, i: nat, t: Id)
    requires i < |steps| < |states|
  {
    steps[i].TickStep? && PassedOn(states[i], steps[i].input, t)
  }

  lemma StepPlansNext(states: seq<Sched>, steps: seq<Step>, i: nat, after: nat, t: Id, limit: nat)
    requires IsRun(states, steps) && after == i + 1 <= |steps| && PassedAt(states, steps, i, t) && limit > 0
    ensures PreparedFor(states[i], steps[i].input, t).Some?
    ensures ReadyFor(states[after], t, limit, NextPlanAfter(states[i], steps[i].input, t))
  {
    EveryStateOk(states, steps, i);
    RunStep(states, steps, i);
    PassPlansNext(states[i], steps[i].input, t, limit);
  }

  /**
    After a successful pass, whatever happens to other topics in between, the next tick that
    selects the topic plans exactly the node the worker ranked first, or nothing when all its live
    business nodes are blocked or the labels do not fit.
   */
  lemma NextTickPlansFirst(states: seq<Sched>, steps: seq<Step>, i: nat, after: nat, j: nat, t: Id)
    requires IsRun(states, steps) && after == i + 1 <= j < |steps| && PassedAt(states, steps, i, t)
    requires Undisturbed(states, steps, after, j, t) && Selects(states[j], steps[j], t)
    ensures PreparedFor(states[i], steps[i].input, t).Some?
    ensures Tick(states[j], steps[j].input).planned == NextPlanAfter(states[i], steps[i].input, t)
  {
    StepPlansNext(states, steps, i, after, t, steps[j].input.limit);
    PlanStays(states, steps, after, j, t, NextPlanAfter(states[i], steps[i].input, t));
  }
}
