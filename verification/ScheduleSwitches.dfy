/**
  The switch count of a topic. Finishing a node compares it with the current node, but marking it
  running has made it the current one already: no dispatch is ever counted as a switch.
 */
module ScheduleSwitches {
  import opened Prelude
  import opened ScheduleTypes
  import opened ScheduleModel
  import opened ScheduleInvariants
  import opened ScheduleTheorems

  ghost predicate NoSwitches(db: Sched) {
    forall t | t in db.topics :: db.topics[t].switchCount == 0
  }

  /** Finishing a node adds one to the count exactly when another node, or none, was current. */
  lemma FinishCounts(db: Sched, t: Id, n: Id, status: NodeStatus, at: int)
    requires t in db.topics
    ensures var db' := MarkNodeFinished(db, t, n, status, at);
      && t in db'.topics && db'.topics[t].currentNodeId == Some(n)
      && db'.topics[t].switchCount == db.topics[t].switchCount + (if db.topics[t].currentNodeId == Some(n) then 0 else 1)
      && (NoSwitches(db) && db.topics[t].currentNodeId == Some(n) ==> NoSwitches(db'))
  {
  }

  lemma RunningIsCurrent(db: Sched, t: Id, n: Id)
    requires t in db.topics && NoSwitches(db)
    ensures var db' := MarkNodeRunning(db, t, n); t in db'.topics && db'.topics[t].currentNodeId == Some(n) && NoSwitches(db')
  {
  }

  lemma PassCountsNothing(db: Sched, t: Id, plan: seq<Assignment>, at: int, error: string)
    requires t in db.topics && NoSwitches(db)
    ensures t in ApplyPriorityPlan(db, t, plan, at).topics && NoSwitches(ApplyPriorityPlan(db, t, plan, at))
    ensures t in ClearPriorityDirty(db, t, error).topics && NoSwitches(ClearPriorityDirty(db, t, error))
  {
    AssignAllRows(db, t, plan, at);
  }

  lemma DispatchCountsNothing(db: Sched, t: Id, n: Id, r: Reply)
    requires t in db.topics && NoSwitches(db)
    ensures t in DispatchOne(db, t, n, r).db.topics && NoSwitches(DispatchOne(db, t, n, r).db)
  {
    if Key(t, n) in db.nodes {
      var isPriority := db.nodes[Key(t, n)].isPriority;
      var running := MarkNodeRunning(db, t, n);
      RunningIsCurrent(db, t, n);
      if !r.SessionFailed? {
        var status := if r.WorkerFailed? then Failed else ResolveNodeStatus(isPriority, r);
        FinishCounts(running, t, n, status, r.at);
        if r.Answered? {
          PassCountsNothing(MarkNodeFinished(running, t, n, status, r.at), t, BuildPriorityPlan(LoadPriorityCandidates(running, t)), r.at, PassError(r.error));
        }
      }
    }
  }

  lemma {:induction false} DispatchesCountNothing(db: Sched, t: Id, ids: seq<Id>, replies: nat -> Reply)
    requires t in db.topics && NoSwitches(db)
    ensures t in DispatchAll(db, t, ids, replies).db.topics && NoSwitches(DispatchAll(db, t, ids, replies).db)
    decreases |ids|
  {
    if ids != [] {
      DispatchesCountNothing(db, t, ids[..|ids| - 1], replies);
      DispatchCountsNothing(DispatchAll(db, t, ids[..|ids| - 1], replies).db, t, ids[|ids| - 1], replies(|ids| - 1));
    }
  }

  lemma PreparingCountsNothing(db: Sched, t: Id, input: TickInput)
    requires t in db.topics && NoSwitches(db) && Prepare(db, t, input).Some?
    ensures NoSwitches(Prepare(db, t, input).value)
  {
  }

  lemma WorkCountsNothing(db: Sched, t: Id, input: TickInput)
    requires t in db.topics && NoSwitches(db) && input.limit > 0
    ensures NoSwitches(Work(db, t, input).db)
  {
    DispatchesCountNothing(db, t, PlannedFor(db, t, input.limit), input.replies);
  }

  lemma EnqueueCountsNothing(db: Sched, r: EnqueueRequest, arrival: Arrival)
    requires NoSwitches(db)
    ensures NoSwitches(Enqueue(db, r, arrival).0)
  {
  }

  lemma SelectedCountsNothing(aged: Sched, t: Id, input: TickInput)
    requires t in aged.topics && NoSwitches(aged) && input.limit > 0
    requires Prepare(aged, t, input).Some? && t in Prepare(aged, t, input).value.topics
    ensures NoSwitches(Work(Prepare(aged, t, input).value, t, input).db)
  {
    PreparingCountsNothing(aged, t, input);
    WorkCountsNothing(Prepare(aged, t, input).value, t, input);
  }

  lemma TickCountsNothing(db: Sched, input: TickInput)
    requires NoSwitches(db) && input.limit > 0
    ensures NoSwitches(Tick(db, input).db)
  {
    var aged := PromoteAgedTopics(db, input.promoteAt, input.agingThreshold);
    var selected := SelectTopic(aged);
    if selected.Some? {
      var prepared := Prepare(aged, selected.value, input);
      if prepared.Some? && selected.value in prepared.value.topics {
        SelectedCountsNothing(aged, selected.value, input);
      }
    }
  }

  lemma StepCountsNothing(db: Sched, step: Step)
    requires NoSwitches(db) && (step.TickStep? ==> step.input.limit > 0)
    ensures NoSwitches(Apply(db, step))
  {
    match step
    case EnqueueStep(r, arrival) => EnqueueCountsNothing(db, r, arrival);
    case TickStep(input) => TickCountsNothing(db, input);
  }

  /** In every reachable state the switch count of every topic is zero. */
  lemma {:induction false} NoRunCountsSwitches(states: seq<Sched>, steps: seq<Step>, i: nat)
    requires IsRun(states, steps) && i < |states|
    ensures NoSwitches(states[i])
  {
    if i > 0 {
      NoRunCountsSwitches(states, steps, i - 1);
      RunStep(states, steps, i - 1);
      StepCountsNothing(states[i - 1], steps[i - 1]);
    }
  }
}
