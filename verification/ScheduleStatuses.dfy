/**
  The status that a worker's answer leaves on the node it was about and on no other, in one
  dispatch and in a whole tick, with every status spelled out.
 */
module ScheduleStatuses {
  import opened Prelude
  import opened Sorting
  import opened ScheduleTypes
  import opened SchedulePlanner
  import opened SchedulePlanTheorems
  import opened ScheduleModel
  import opened ScheduleInvariants
  import opened ScheduleTheorems
  import opened ScheduleRows
  import opened SchedulePriority
  import opened ScheduleGate

  // The status after a dispatch --------------------------------------------------------------

  /** The status that reply r leaves on the dispatched node. */
  ghost predicate StatusAfter(isPriority: bool, r: Reply, status: NodeStatus) {
    match r
    case SessionFailed => status == Running
    case WorkerFailed(_) => status == Failed
    case Answered(succeeded, nextStatus, retryable, _, _, _) =>
      if isPriority then
        && (succeeded ==> status == Succeeded)
        && (!succeeded && nextStatus.None? ==> status == Failed)
        && (!succeeded && nextStatus.Some? ==> status == nextStatus.value)
      else
        && (nextStatus.Some? ==> status == nextStatus.value)
        && (nextStatus.None? && succeeded ==> status == Ready)
        && (nextStatus.None? && !succeeded && retryable ==> status == RetryCooldown)
        && (nextStatus.None? && !succeeded && !retryable ==> status == Failed)
  }

  /** Every node but the given one keeps its status, and none is added or lost. */
  ghost predicate OtherStatusesKept(db: Sched, db': Sched, key: Key) {
    && db'.nodes.Keys == db.nodes.Keys
    && (forall k | k in db.nodes && k != key :: db'.nodes[k].status == db.nodes[k].status)
    && (forall k | k in db.nodes :: db'.nodes[k].isPriority == db.nodes[k].isPriority)
  }

  lemma RunningStatuses(db: Sched, t: Id, n: Id)
    requires Key(t, n) in db.nodes
    ensures OtherStatusesKept(db, MarkNodeRunning(db, t, n), Key(t, n)) && MarkNodeRunning(db, t, n).nodes[Key(t, n)].status == Running
  {
  }

  lemma FinishedStatuses(db: Sched, t: Id, n: Id, status: NodeStatus, at: int)
    requires t in db.topics && Key(t, n) in db.nodes
    ensures var f := MarkNodeFinished(db, t, n, status, at); OtherStatusesKept(db, f, Key(t, n)) && f.nodes[Key(t, n)].status == status
  {
  }

  lemma PlanStatuses(db: Sched, t: Id, n: Id, plan: seq<Assignment>, at: int, error: string)
    requires t in db.topics && Key(t, n) in db.nodes && db.topics[t].priorityNodeId == Some(n)
    ensures var d := ApplyPriorityPlan(db, t, plan, at); OtherStatusesKept(db, d, Key(t, n)) && d.nodes[Key(t, n)].status == Succeeded
    ensures ClearPriorityDirty(db, t, error).nodes == db.nodes
  {
    AssignAllRows(db, t, plan, at);
  }

  lemma KeptTransitive(a: Sched, b: Sched, c: Sched, key: Key)
    requires OtherStatusesKept(a, b, key) && OtherStatusesKept(b, c, key)
    ensures OtherStatusesKept(a, c, key)
  {
  }

  /** A dispatch stores the status its reply calls for, and touches no other node's status. */
  lemma DispatchStores(db: Sched, t: Id, n: Id, r: Reply)
    requires SchedOk(db) && t in db.topics && Key(t, n) in db.nodes
    ensures var d := DispatchOne(db, t, n, r).db;
      OtherStatusesKept(db, d, Key(t, n)) && StatusAfter(db.nodes[Key(t, n)].isPriority, r, d.nodes[Key(t, n)].status)
    ensures DispatchOne(db, t, n, r).ok <==> r.Answered? && r.recorded
  {
    var isPriority := db.nodes[Key(t, n)].isPriority;
    var running := MarkNodeRunning(db, t, n);
    RunningStatuses(db, t, n);
    if r.WorkerFailed? {
      FinishedStatuses(running, t, n, Failed, r.at);
      KeptTransitive(db, running, MarkNodeFinished(running, t, n, Failed, r.at), Key(t, n));
    } else if r.Answered? {
      AnsweredStores(db, t, n, r);
    }
  }

  lemma AnsweredStores(db: Sched, t: Id, n: Id, r: Reply)
    requires SchedOk(db) && t in db.topics && Key(t, n) in db.nodes && r.Answered?
    ensures var d := DispatchOne(db, t, n, r).db;
      OtherStatusesKept(db, d, Key(t, n)) && StatusAfter(db.nodes[Key(t, n)].isPriority, r, d.nodes[Key(t, n)].status)
  {
    var isPriority := db.nodes[Key(t, n)].isPriority;
    var running := MarkNodeRunning(db, t, n);
    RunningStatuses(db, t, n);
    var finished := MarkNodeFinished(running, t, n, ResolveNodeStatus(isPriority, r), r.at);
    FinishedStatuses(running, t, n, ResolveNodeStatus(isPriority, r), r.at);
    KeptTransitive(db, running, finished, Key(t, n));
    if isPriority {
      assert NodeOk(db, Key(t, n));
      FinishKeepsPriorityNode(db, t, n, Failed, 0);
      FinishKeepsPriorityNode(running, t, n, ResolveNodeStatus(isPriority, r), r.at);
      PlanStatuses(finished, t, n, BuildPriorityPlan(LoadPriorityCandidates(running, t)), r.at, PassError(r.error));
      if r.succeeded {
        KeptTransitive(db, finished, DispatchOne(db, t, n, r).db, Key(t, n));
      }
    }
  }

  /** The topic remembers what it worked on last, and lists exactly its running nodes. */
  lemma DispatchRemembers(db: Sched, t: Id, n: Id, r: Reply)
    requires t in db.topics && Key(t, n) in db.nodes && !db.nodes[Key(t, n)].isPriority
    ensures var d := DispatchOne(db, t, n, r).db;
      && t in d.topics && d.topics[t].currentNodeId == Some(n)
      && d.topics[t].lastWorkedNodeId == (if r.SessionFailed? then db.topics[t].lastWorkedNodeId else Some(n))
      && (forall m :: m in d.topics[t].running <==> Key(t, m) in d.nodes && d.nodes[Key(t, m)].status == Running)
      && (!r.SessionFailed? ==> Key(t, n) in d.nodes && d.nodes[Key(t, n)].lastWorkedAt == Some(r.at))
  {
    var d := DispatchOne(db, t, n, r).db;
    forall m ensures m in RunningNodes(d, t) <==> Key(t, m) in d.nodes && d.nodes[Key(t, m)].status == Running {
    }
    assert RunningNodes(d, t) == d.topics[t].running;
  }

  // What a pass records ----------------------------------------------------------------------

  ghost predicate Names(plan: seq<Assignment>, n: Id) {
    exists i :: 0 <= i < |plan| && plan[i].nodeId == n
  }

  lemma {:induction false} AssignStamps(db: Sched, t: Id, plan: seq<Assignment>, now: int, n: Id)
    requires n != "" && Key(t, n) in db.nodes && !db.nodes[Key(t, n)].isPriority && Names(plan, n)
    ensures var r := AssignAll(db, t, plan, now); Key(t, n) in r.nodes && r.nodes[Key(t, n)].enteredAt == now
    decreases |plan|
  {
    var m := |plan| - 1;
    AssignAllRows(db, t, plan[..m], now);
    if plan[m].nodeId != n {
      var i :| 0 <= i < |plan| && plan[i].nodeId == n;
      assert plan[..m][i].nodeId == n;
      AssignStamps(db, t, plan[..m], now, n);
    }
  }

  lemma PlanNames(db: Sched, t: Id, plan: seq<Assignment>, n: Id)
    requires RanksLiveNodes(db, t, plan) && n in LiveBusinessNodes(db, t)
    ensures Names(plan, n)
  {
  }

  /** A successful pass counts a new plan, forgets the last error and dates every ranked node. */
  lemma PassStamps(db: Sched, t: Id, p: Id, r: Reply, n: Id)
    requires SchedOk(db) && Primed(db, t, p) && RowsValid(db, t) && r.Answered? && r.succeeded && n in LiveBusinessNodes(db, t)
    ensures var d := DispatchOne(db, t, p, r).db;
      && t in d.topics && d.topics[t].planVersion == db.topics[t].planVersion + 1 && d.topics[t].lastPriorityError == None
      && Key(t, n) in d.nodes && d.nodes[Key(t, n)].enteredAt == r.at
      && d.nodes[Key(t, n)].name == db.nodes[Key(t, n)].name && d.nodes[Key(t, n)].lastWorkedAt == db.nodes[Key(t, n)].lastWorkedAt
  {
    var f, plan := Finished(db, t, p, r), PassPlan(db, t, p);
    PassResult(db, t, p, r);
    FinishedRows(db, t, p, r);
    SameLiveNodes(db, t, p, r);
    PlanRanksPrepared(db, t, p, r);
    PlanNames(db, t, plan, n);
    AssignStamps(f, t, plan, r.at, n);
    AssignAllRows(f, t, plan, r.at);
  }

  /** A refused pass keeps the plan's number and records the worker's error, or a standing text for an empty one. */
  lemma PassRecordsError(db: Sched, t: Id, p: Id, r: Reply)
    requires SchedOk(db) && Primed(db, t, p) && r.Answered? && !r.succeeded
    ensures var d := DispatchOne(db, t, p, r).db;
      && t in d.topics && !d.topics[t].dirty && d.topics[t].planVersion == db.topics[t].planVersion
      && (r.error != "" ==> d.topics[t].lastPriorityError == Some(r.error))
      && (r.error == "" ==> d.topics[t].lastPriorityError == Some("priority node execution failed"))
  {
    RefusedPass(db, t, p, r);
  }

  // The statuses after a tick ----------------------------------------------------------------

  /** The k-th planned node is reached: all before it were answered and recorded. */
  ghost predicate IsReached(replies: nat -> Reply, k: nat) {
    forall j: nat | j < k :: replies(j).Answered? && replies(j).recorded
  }

  /** The status of node n after the planned ids were dispatched in turn. */
  ghost predicate StoredAll(db: Sched, db': Sched, t: Id, ids: seq<Id>, replies: nat -> Reply) {
    && db'.nodes.Keys == db.nodes.Keys
    && (forall k | k in db.nodes :: db'.nodes[k].isPriority == db.nodes[k].isPriority)
    && (forall k | k in db.nodes && !(k.topic == t && k.node in ids) :: db'.nodes[k].status == db.nodes[k].status)
    && (forall i | 0 <= i < |ids| && Key(t, ids[i]) in db.nodes ::
          if IsReached(replies, i) then StatusAfter(db.nodes[Key(t, ids[i])].isPriority, replies(i), db'.nodes[Key(t, ids[i])].status)
          else db'.nodes[Key(t, ids[i])].status == db.nodes[Key(t, ids[i])].status)
  }

  lemma ReachedOneMore(replies: nat -> Reply, n: nat)
    ensures IsReached(replies, n + 1) <==> IsReached(replies, n) && replies(n).Answered? && replies(n).recorded
  {
  }

  /** The last of the planned nodes, once the others were dispatched. */
  lemma LastStores(db: Sched, before: Dispatched, after: Dispatched, t: Id, ids: seq<Id>, n: nat, replies: nat -> Reply)
    requires |ids| == n + 1 && NoRepeats(ids) && SchedOk(before.db) && t in before.db.topics && Key(t, ids[n]) in db.nodes
    requires StoredAll(db, before.db, t, ids[..n], replies) && (before.ok <==> IsReached(replies, n))
    requires after == if before.ok then DispatchOne(before.db, t, ids[n], replies(n)) else before
    ensures StoredAll(db, after.db, t, ids, replies) && (after.ok <==> IsReached(replies, |ids|))
  {
    ReachedOneMore(replies, n);
    if before.ok {
      DispatchStores(before.db, t, ids[n], replies(n));
    }
    StoredOneMore(db, before.db, after.db, t, ids, replies, before.ok);
  }

  lemma {:induction false} DispatchAllStores(db: Sched, t: Id, ids: seq<Id>, replies: nat -> Reply)
    requires SchedOk(db) && t in db.topics && NoRepeats(ids) && forall i | 0 <= i < |ids| :: Key(t, ids[i]) in db.nodes
    ensures StoredAll(db, DispatchAll(db, t, ids, replies).db, t, ids, replies)
    ensures DispatchAll(db, t, ids, replies).ok <==> IsReached(replies, |ids|)
    decreases |ids|
  {
    if ids != [] {
      var n := |ids| - 1;
      DispatchAllStores(db, t, ids[..n], replies);
      DispatchAllKeepsOk(db, t, ids[..n], replies);
      LastStores(db, DispatchAll(db, t, ids[..n], replies), DispatchAll(db, t, ids, replies), t, ids, n, replies);
    }
  }

  lemma StoredOneMore(db: Sched, before: Sched, after: Sched, t: Id, ids: seq<Id>, replies: nat -> Reply, ok: bool)
    requires ids != [] && NoRepeats(ids) && StoredAll(db, before, t, ids[..|ids| - 1], replies) && (ok <==> IsReached(replies, |ids| - 1))
    requires Key(t, ids[|ids| - 1]) in before.nodes
    requires if ok then OtherStatusesKept(before, after, Key(t, ids[|ids| - 1]))
                        && StatusAfter(before.nodes[Key(t, ids[|ids| - 1])].isPriority, replies(|ids| - 1), after.nodes[Key(t, ids[|ids| - 1])].status)
             else after == before
    ensures StoredAll(db, after, t, ids, replies)
  {
    var n := |ids| - 1;
    assert ids == ids[..n] + [ids[n]];
    forall i | 0 <= i < |ids| && Key(t, ids[i]) in db.nodes
      ensures if IsReached(replies, i) then StatusAfter(db.nodes[Key(t, ids[i])].isPriority, replies(i), after.nodes[Key(t, ids[i])].status)
              else after.nodes[Key(t, ids[i])].status == db.nodes[Key(t, ids[i])].status
    {
      if i < n {
        assert ids[..n][i] == ids[i] && ids[i] != ids[n];
      } else {
        assert Key(t, ids[n]).node !in ids[..n];
      }
    }
  }

  lemma PlannedAreRows(db: Sched, t: Id, limit: nat)
    requires t in db.topics
    ensures NoRepeats(PlannedFor(db, t, limit)) && forall i | 0 <= i < |PlannedFor(db, t, limit)| :: Key(t, PlannedFor(db, t, limit)[i]) in db.nodes
  {
    var s := BuildTopicSnapshot(db, t);
    if ValidSnapshot(s) {
      PlanExact(s, limit);
      var d := PlanTopicDispatch(s, limit).value.dispatch;
      forall i | 0 <= i < |d| ensures Key(t, d[i]) in db.nodes {
        assert d[i] in d;
        DispatchableIsCanGo(db, t, d[i]);
      }
    }
  }

  /** A tick stores, on the tables it planned on, the statuses its replies call for, and serves iff all were recorded. */
  lemma TickStores(db: Sched, input: TickInput, t: Id)
    requires SchedOk(db) && input.limit > 0 && Tick(db, input).selected == Some(t) && Tick(db, input).planned != []
    ensures PreparedFor(db, input, t).Some?
    ensures StoredAll(PreparedFor(db, input, t).value, Tick(db, input).db, t, Tick(db, input).planned, input.replies)
    ensures Tick(db, input).served <==> IsReached(input.replies, |Tick(db, input).planned|)
  {
    var aged, at := WorkingTick(db, input, t);
    WorkStores(at, t, input);
  }

  lemma WorkStores(at: Sched, t: Id, input: TickInput)
    requires SchedOk(at) && t in at.topics && input.limit > 0 && Work(at, t, input).planned != []
    ensures StoredAll(at, Work(at, t, input).db, t, Work(at, t, input).planned, input.replies)
    ensures Work(at, t, input).served <==> IsReached(input.replies, |Work(at, t, input).planned|)
  {
    var planned := PlannedFor(at, t, input.limit);
    PlannedAreRows(at, t, input.limit);
    DispatchAllStores(at, t, planned, input.replies);
    DispatchAllKeepsPriorityNode(at, t, planned, input.replies);
  }
}
