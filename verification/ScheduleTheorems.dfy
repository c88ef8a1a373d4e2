/**
  Runs of the scheduler: any sequence of Enqueue calls and Ticks. A topic whose nodes were
  enqueued stays dirty, and dispatches nothing but its priority node, until a tick has run that
  node and cleared the mark.
 */
module ScheduleTheorems {
  import opened Prelude
  import opened Sorting
  import opened ScheduleTypes
  import opened SchedulePlanner
  import opened SchedulePlanTheorems
  import opened ScheduleModel
  import opened ScheduleInvariants

  datatype Step = EnqueueStep(request: EnqueueRequest, arrival: Arrival) | TickStep(input: TickInput)

  ghost function Apply(db: Sched, step: Step): Sched
    requires step.TickStep? ==> step.input.limit > 0
  {
    match step
    case EnqueueStep(r, arrival) => Enqueue(db, r, arrival).0
    case TickStep(input) => Tick(db, input).db
  }

  const EMPTY := Sched(map[], map[])

  ghost predicate Follows(states: seq<Sched>, steps: seq<Step>, i: nat)
    requires i < |steps| < |states|
  {
    (steps[i].TickStep? ==> steps[i].input.limit > 0) && states[i + 1] == Apply(states[i], steps[i])
  }

  ghost predicate IsRun(states: seq<Sched>, steps: seq<Step>) {
    && |states| == |steps| + 1 && states[0] == EMPTY
    && forall i | 0 <= i < |steps| :: Follows(states, steps, i)
  }

  lemma RunStep(states: seq<Sched>, steps: seq<Step>, i: nat)
    requires IsRun(states, steps) && i < |steps|
    ensures (steps[i].TickStep? ==> steps[i].input.limit > 0) && states[i + 1] == Apply(states[i], steps[i])
  {
    assert Follows(states, steps, i);
  }

  lemma StepKeepsOk(db: Sched, step: Step)
    requires SchedOk(db) && (step.TickStep? ==> step.input.limit > 0)
    ensures SchedOk(Apply(db, step))
  {
    match step
    case EnqueueStep(r, arrival) => EnqueueKeepsOk(db, r, arrival);
    case TickStep(input) => TickKeepsOk(db, input);
  }

  lemma {:induction false} EveryStateOk(states: seq<Sched>, steps: seq<Step>, i: nat)
    requires IsRun(states, steps) && i < |states|
    ensures SchedOk(states[i])
  {
    if i > 0 {
      EveryStateOk(states, steps, i - 1);
      RunStep(states, steps, i - 1);
      StepKeepsOk(states[i - 1], steps[i - 1]);
    }
  }

  // A running node is never planned ------------------------------------------------------

  lemma SnapshotNode(db: Sched, t: Id, i: nat)
    requires t in db.topics && i < |BuildTopicSnapshot(db, t).nodes|
    ensures var n := BuildTopicSnapshot(db, t).nodes[i];
      Key(t, n.nodeId) in db.nodes && n == NodeView(db, t, n.nodeId)
  {
    var ids := ListOf(NodesOf(db, t));
    assert ids[i] in NodesOf(db, t);
  }

  lemma SnapshotHasNode(db: Sched, t: Id, n: Id) returns (i: nat)
    requires t in db.topics && Key(t, n) in db.nodes
    ensures i < |BuildTopicSnapshot(db, t).nodes| && BuildTopicSnapshot(db, t).nodes[i] == NodeView(db, t, n)
  {
    var ids := ListOf(NodesOf(db, t));
    assert n in NodesOf(db, t);
    i :| 0 <= i < |ids| && ids[i] == n;
  }

  /** The planner does not test for status running; the listed ids stand in for it. */
  lemma PlannedNodesAreIdle(db: Sched, t: Id, limit: nat, n: Id)
    requires SchedOk(db) && t in db.topics && n in PlannedFor(db, t, limit)
    ensures Key(t, n) in db.nodes && db.nodes[Key(t, n)].status != Running
  {
    var s := BuildTopicSnapshot(db, t);
    PlanExact(s, limit);
    var i :| 0 <= i < |s.nodes| && s.nodes[i].nodeId == n && n !in s.runtime.runningNodeIds;
    SnapshotNode(db, t, i);
    assert NodeOk(db, Key(t, n));
  }

  /** The tables a tick on topic t plans on. */
  ghost function PreparedFor(db: Sched, input: TickInput, t: Id): Option<Sched> {
    var aged := PromoteAgedTopics(db, input.promoteAt, input.agingThreshold);
    if t in aged.topics then Prepare(aged, t, input) else None
  }

  /** On the tables the tick planned on, node n of the selected topic was not running. */
  ghost predicate WasIdle(db: Sched, input: TickInput, t: Id, n: Id) {
    && PreparedFor(db, input, t).Some? && Key(t, n) in PreparedFor(db, input, t).value.nodes
    && PreparedFor(db, input, t).value.nodes[Key(t, n)].status != Running
  }

  lemma PlannedWasIdle(db: Sched, input: TickInput, n: Id)
    requires SchedOk(db) && input.limit > 0 && n in Tick(db, input).planned
    ensures Tick(db, input).selected.Some? && WasIdle(db, input, Tick(db, input).selected.value, n)
  {
    var aged, prepared := TickShape(db, input);
    PlannedNodesAreIdle(prepared.value, Tick(db, input).selected.value, input.limit, n);
  }

  /** In every run, what a tick hands to dispatch is not running when it is planned. */
  lemma RunningNeverPlanned(states: seq<Sched>, steps: seq<Step>, i: nat, n: Id)
    requires IsRun(states, steps) && i < |steps| && steps[i].TickStep? && steps[i].input.limit > 0
    requires n in Tick(states[i], steps[i].input).planned
    ensures var t := Tick(states[i], steps[i].input).selected; t.Some? && WasIdle(states[i], steps[i].input, t.value, n)
  {
    EveryStateOk(states, steps, i);
    PlannedWasIdle(states[i], steps[i].input, n);
  }

  // The re-rank gate ---------------------------------------------------------------------

  /** A topic right before its priority pass: the priority node alone at rank 0. */
  ghost predicate Primed(db: Sched, t: Id, p: Id) {
    && t in db.topics && db.topics[t].running == {} && db.topics[t].dirty
    && db.topics[t].priorityNodeId == Some(p) && Key(t, p) in db.nodes
    && db.nodes[Key(t, p)].isPriority && db.nodes[Key(t, p)].rank == 0 && db.nodes[Key(t, p)].status == Ready
  }

  lemma PrepareDirty(db: Sched, t: Id, input: TickInput)
    requires SchedOk(db) && t in db.topics && db.topics[t].dirty && Prepare(db, t, input).Some?
    ensures var db' := Prepare(db, t, input).value; db'.topics[t].priorityNodeId.Some? && Primed(db', t, db'.topics[t].priorityNodeId.value)
  {
    assert TopicOk(db, t);
  }

  lemma PrimedDispatchable(db: Sched, t: Id, p: Id)
    requires SchedOk(db) && Primed(db, t, p)
    ensures Dispatchable(BuildTopicSnapshot(db, t)) == {p}
  {
    var s := BuildTopicSnapshot(db, t);
    var at := SnapshotHasNode(db, t, p);
    forall i | 0 <= i < |s.nodes| ensures if s.nodes[i].nodeId == p then i == at else s.nodes[i].priority.rank >= 1 {
      SnapshotNode(db, t, i);
      assert NodeOk(db, Key(t, s.nodes[i].nodeId));
    }
    assert forall i | 0 <= i < |s.nodes| :: InTopLayer(s, i) <==> i == at;
  }

  lemma PrimedPlan(db: Sched, t: Id, p: Id, limit: nat)
    requires SchedOk(db) && Primed(db, t, p) && limit > 0
    ensures PlannedFor(db, t, limit) == [] || PlannedFor(db, t, limit) == [p]
  {
    PrimedDispatchable(db, t, p);
    OneDispatchable(BuildTopicSnapshot(db, t), p, limit);
  }

  lemma OneDispatchable(s: TopicSnapshot, p: Id, limit: nat)
    requires Dispatchable(s) == {p} && limit > 0
    ensures ValidSnapshot(s) ==> PlanTopicDispatch(s, limit).Ok? && PlanTopicDispatch(s, limit).value.dispatch == [p]
  {
    if ValidSnapshot(s) {
      PlanExact(s, limit);
      var d := PlanTopicDispatch(s, limit).value.dispatch;
      assert d[0] in Dispatchable(s);
    }
  }

  ghost predicate IsDirty(db: Sched, t: Id) {
    t in db.topics && db.topics[t].dirty
  }

  /** The priority node of a topic, once set, stays. */
  ghost predicate SamePriorityNode(db: Sched, db': Sched, t: Id) {
    t in db.topics && t in db'.topics && db'.topics[t].priorityNodeId == db.topics[t].priorityNodeId
  }

  lemma FinishKeepsPriorityNode(db: Sched, t: Id, n: Id, status: NodeStatus, at: int)
    requires t in db.topics
    ensures SamePriorityNode(db, MarkNodeRunning(db, t, n), t) && SamePriorityNode(db, MarkNodeFinished(db, t, n, status, at), t)
  {
  }

  lemma PlanKeepsPriorityNode(db: Sched, t: Id, plan: seq<Assignment>, at: int, error: string)
    requires t in db.topics
    ensures SamePriorityNode(db, ApplyPriorityPlan(db, t, plan, at), t) && SamePriorityNode(db, ClearPriorityDirty(db, t, error), t)
  {
    AssignAllRows(db, t, plan, at);
  }

  lemma DispatchOneKeepsPriorityNode(db: Sched, t: Id, n: Id, r: Reply)
    requires t in db.topics
    ensures SamePriorityNode(db, DispatchOne(db, t, n, r).db, t)
  {
    if Key(t, n) in db.nodes {
      var isPriority := db.nodes[Key(t, n)].isPriority;
      var running := MarkNodeRunning(db, t, n);
      FinishKeepsPriorityNode(db, t, n, Failed, 0);
      if !r.SessionFailed? {
        var status := if r.WorkerFailed? then Failed else ResolveNodeStatus(isPriority, r);
        FinishKeepsPriorityNode(running, t, n, status, r.at);
        if r.Answered? {
          PlanKeepsPriorityNode(MarkNodeFinished(running, t, n, status, r.at), t,
                                BuildPriorityPlan(LoadPriorityCandidates(running, t)), r.at,
                                PassError(r.error));
        }
      }
    }
  }

  lemma {:induction false} DispatchAllKeepsPriorityNode(db: Sched, t: Id, ids: seq<Id>, replies: nat -> Reply)
    requires t in db.topics
    ensures SamePriorityNode(db, DispatchAll(db, t, ids, replies).db, t)
    decreases |ids|
  {
    if ids != [] {
      DispatchAllKeepsPriorityNode(db, t, ids[..|ids| - 1], replies);
      var before := DispatchAll(db, t, ids[..|ids| - 1], replies);
      DispatchOneKeepsPriorityNode(before.db, t, ids[|ids| - 1], replies(|ids| - 1));
    }
  }

  lemma WorkKeepsPriorityNode(db: Sched, t: Id, input: TickInput)
    requires t in db.topics && input.limit > 0
    ensures SamePriorityNode(db, Work(db, t, input).db, t)
    ensures Work(db, t, input).planned == PlannedFor(db, t, input.limit)
    ensures PlannedFor(db, t, input.limit) == [] ==> Work(db, t, input).db == db
  {
    DispatchAllKeepsPriorityNode(db, t, PlannedFor(db, t, input.limit), input.replies);
  }

  /** A tick on a dirty topic dispatches nothing, or exactly the topic's priority node. */
  lemma DirtyTopicDispatchesPriorityOnly(db: Sched, input: TickInput)
    requires SchedOk(db) && input.limit > 0
    requires Tick(db, input).selected.Some? && IsDirty(db, Tick(db, input).selected.value)
    ensures var r := Tick(db, input); var t := r.selected.value;
      if r.planned == [] then IsDirty(r.db, t)
      else t in r.db.topics && r.db.topics[t].priorityNodeId.Some? && r.planned == [r.db.topics[t].priorityNodeId.value]
  {
    var aged, prepared := TickShape(db, input);
    var t := Tick(db, input).selected.value;
    assert IsDirty(aged, t);
    if prepared.Some? {
      PrepareDirty(aged, t, input);
      PrimedPlan(prepared.value, t, prepared.value.topics[t].priorityNodeId.value, input.limit);
      WorkKeepsPriorityNode(prepared.value, t, input);
    }
  }

  // Between an enqueue and the priority pass ---------------------------------------------

  /** The tick that runs the priority node of t. */
  ghost predicate PriorityPass(db: Sched, step: Step, t: Id) {
    && step.TickStep? && step.input.limit > 0
    && var r := Tick(db, step.input);
       r.selected == Some(t) && t in r.db.topics && r.db.topics[t].priorityNodeId.Some? && r.planned == [r.db.topics[t].priorityNodeId.value]
  }

  lemma EnqueueKeepsDirty(db: Sched, r: EnqueueRequest, arrival: Arrival, t: Id)
    requires SchedOk(db) && IsDirty(db, t)
    ensures IsDirty(Enqueue(db, r, arrival).0, t)
  {
    EnqueueKeepsOk(db, r, arrival);
  }

  /** A tick leaves every topic but the selected one alone, except for its level. */
  lemma TickKeepsOtherDirty(db: Sched, input: TickInput, t: Id)
    requires SchedOk(db) && IsDirty(db, t) && input.limit > 0 && Tick(db, input).selected != Some(t)
    ensures IsDirty(Tick(db, input).db, t)
  {
    var aged, prepared := TickShape(db, input);
    var selected := Tick(db, input).selected;
    assert IsDirty(aged, t);
    if selected.Some? && prepared.Some? {
      WorkKeepsOk(prepared.value, selected.value, input);
    }
  }

  lemma TickKeepsDirty(db: Sched, step: Step, t: Id)
    requires SchedOk(db) && IsDirty(db, t) && step.TickStep? && step.input.limit > 0 && !PriorityPass(db, step, t)
    ensures IsDirty(Tick(db, step.input).db, t)
  {
    if Tick(db, step.input).selected == Some(t) {
      DirtyTopicDispatchesPriorityOnly(db, step.input);
    } else {
      TickKeepsOtherDirty(db, step.input, t);
    }
  }

  /** A tick that runs the priority node of t and takes its dirty mark away. */
  ghost predicate Clears(db: Sched, step: Step, db': Sched, t: Id) {
    PriorityPass(db, step, t) && IsDirty(db, t) && !IsDirty(db', t)
  }

  lemma StepKeepsDirty(db: Sched, step: Step, t: Id)
    requires SchedOk(db) && IsDirty(db, t) && (step.TickStep? ==> step.input.limit > 0) && !PriorityPass(db, step, t)
    ensures IsDirty(Apply(db, step), t)
  {
    match step
    case EnqueueStep(r, arrival) => EnqueueKeepsDirty(db, r, arrival, t);
    case TickStep(_) => TickKeepsDirty(db, step, t);
  }

  /** The mark survives everything but a clearing pass, failed attempts at one included. */
  lemma {:induction false} DirtyUntilCleared(states: seq<Sched>, steps: seq<Step>, t: Id, i: nat, j: nat)
    requires IsRun(states, steps) && i <= j < |states| && IsDirty(states[i], t)
    requires forall k | i <= k < j :: !Clears(states[k], steps[k], states[k + 1], t)
    ensures IsDirty(states[j], t)
    decreases j
  {
    if i < j {
      DirtyUntilCleared(states, steps, t, i, j - 1);
      EveryStateOk(states, steps, j - 1);
      RunStep(states, steps, j - 1);
      assert !Clears(states[j - 1], steps[j - 1], states[j], t);
      if !PriorityPass(states[j - 1], steps[j - 1], t) {
        StepKeepsDirty(states[j - 1], steps[j - 1], t);
      }
    }
  }

  lemma AcceptedEnqueueMarksDirty(db: Sched, r: EnqueueRequest, arrival: Arrival)
    requires Enqueue(db, r, arrival).1.Ok?
    ensures IsDirty(Enqueue(db, r, arrival).0, r.topicId)
  {
  }

  lemma DispatchedWhileDirty(db: Sched, input: TickInput, t: Id, n: Id)
    requires SchedOk(db) && input.limit > 0 && IsDirty(db, t) && Tick(db, input).selected == Some(t) && n in Tick(db, input).planned
    ensures t in Tick(db, input).db.topics && Tick(db, input).db.topics[t].priorityNodeId == Some(n)
  {
    DirtyTopicDispatchesPriorityOnly(db, input);
  }

  lemma TickWhileDirty(states: seq<Sched>, steps: seq<Step>, j: nat, t: Id, n: Id)
    requires IsRun(states, steps) && j < |steps| && IsDirty(states[j], t)
    requires steps[j].TickStep? && steps[j].input.limit > 0 && Tick(states[j], steps[j].input).selected == Some(t) && n in Tick(states[j], steps[j].input).planned
    ensures t in states[j + 1].topics && states[j + 1].topics[t].priorityNodeId == Some(n)
  {
    EveryStateOk(states, steps, j);
    RunStep(states, steps, j);
    DispatchedWhileDirty(states[j], steps[j].input, t, n);
  }

  lemma DirtyAfterEnqueue(states: seq<Sched>, steps: seq<Step>, i: nat, j: nat, t: Id)
    requires IsRun(states, steps) && i < j < |steps|
    requires steps[i].EnqueueStep? && steps[i].request.topicId == t && Enqueue(states[i], steps[i].request, steps[i].arrival).1.Ok?
    requires forall k | i < k < j :: !Clears(states[k], steps[k], states[k + 1], t)
    ensures IsDirty(states[j], t)
  {
    RunStep(states, steps, i);
    AcceptedEnqueueMarksDirty(states[i], steps[i].request, steps[i].arrival);
    DirtyUntilCleared(states, steps, t, i + 1, j);
  }
}
