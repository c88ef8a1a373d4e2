/** What Enqueue and Tick keep in the scheduler's tables, whatever the workers answer. */
module ScheduleInvariants {
  import opened Prelude
  import opened ScheduleTypes
  import opened ScheduleModel

  ghost predicate NodeOk(db: Sched, k: Key)
    requires k in db.nodes
  {
    && k.topic in db.topics
    && (db.nodes[k].status == Running ==> k.node in db.topics[k.topic].running)
    && (db.nodes[k].isPriority ==> db.topics[k.topic].priorityNodeId == Some(k.node))
    && (!db.nodes[k].isPriority ==> db.nodes[k].rank >= 1)
  }

  ghost predicate TopicOk(db: Sched, t: Id)
    requires t in db.topics
  {
    var row := db.topics[t];
    && (row.priorityNodeId.Some? ==> Key(t, row.priorityNodeId.value) in db.nodes && db.nodes[Key(t, row.priorityNodeId.value)].isPriority)
    && (row.lastServedAt.None? ==> row.level == L0)
  }

  ghost predicate SchedOk(db: Sched) {
    && (forall k | k in db.nodes :: NodeOk(db, k))
    && (forall t | t in db.topics :: TopicOk(db, t))
  }

  /** Only topic t and its nodes changed. */
  ghost predicate OnlyTopic(db: Sched, db': Sched, t: Id) {
    && db.topics.Keys <= db'.topics.Keys <= db.topics.Keys + {t}
    && (forall x | x in db.topics && x != t :: db'.topics[x] == db.topics[x])
    && (forall k | k in db.nodes && k.topic != t :: k in db'.nodes && db'.nodes[k] == db.nodes[k])
    && (forall k | k in db'.nodes && k.topic != t :: k in db.nodes)
  }

  /** Local reasoning: checking one topic is enough when only that topic changed. */
  lemma OkByTopic(db: Sched, db': Sched, t: Id)
    requires SchedOk(db) && OnlyTopic(db, db', t)
    requires t in db'.topics ==> TopicOk(db', t)
    requires forall k | k in db'.nodes && k.topic == t :: NodeOk(db', k)
    ensures SchedOk(db')
  {
    forall k | k in db'.nodes ensures NodeOk(db', k) {
      if k.topic != t { assert NodeOk(db, k); }
    }
    forall x | x in db'.topics ensures TopicOk(db', x) {
      if x != t { assert TopicOk(db, x); }
    }
  }

  lemma EnqueuedNodeOk(db: Sched, r: EnqueueRequest, arrival: Arrival, k: Key)
    requires SchedOk(db) && r.priority.rank >= 1 && k in UpsertCompleteNode(db, r, arrival).0.nodes && k.topic == r.topicId
    ensures NodeOk(UpsertCompleteNode(db, r, arrival).0, k)
  {
    if k in db.nodes { assert NodeOk(db, k); }
  }

  /** The topic row is the old or a new one, perhaps marked; nodes keep their kind. */
  lemma EnqueuedTopicRow(db: Sched, r: EnqueueRequest, arrival: Arrival)
    ensures var db' := UpsertCompleteNode(db, r, arrival).0; var before := if r.topicId in db.topics then db.topics[r.topicId] else NEW_TOPIC;
      && r.topicId in db'.topics && db'.topics[r.topicId] == before.(dirty := db'.topics[r.topicId].dirty)
      && (forall k | k in db.nodes :: k in db'.nodes && db'.nodes[k].isPriority == db.nodes[k].isPriority)
  {
  }

  lemma EnqueuedTopicOk(db: Sched, r: EnqueueRequest, arrival: Arrival)
    requires SchedOk(db)
    ensures var db' := UpsertCompleteNode(db, r, arrival).0; r.topicId in db'.topics && TopicOk(db', r.topicId)
  {
    EnqueuedTopicRow(db, r, arrival);
    TopicRowOk(db, UpsertCompleteNode(db, r, arrival).0, r.topicId);
  }

  lemma TopicRowOk(db: Sched, db': Sched, t: Id)
    requires SchedOk(db) && t in db'.topics
    requires db'.topics[t] == (if t in db.topics then db.topics[t] else NEW_TOPIC).(dirty := db'.topics[t].dirty)
    requires forall k | k in db.nodes :: k in db'.nodes && db'.nodes[k].isPriority == db.nodes[k].isPriority
    ensures TopicOk(db', t)
  {
    if t in db.topics { assert TopicOk(db, t); }
  }

  lemma EnqueuedOnlyTopic(db: Sched, r: EnqueueRequest, arrival: Arrival)
    ensures OnlyTopic(db, UpsertCompleteNode(db, r, arrival).0, r.topicId)
  {
  }

  lemma UpsertEnqueueKeepsOk(db: Sched, r: EnqueueRequest, arrival: Arrival)
    requires SchedOk(db) && r.priority.rank >= 1
    ensures SchedOk(UpsertEnqueueNode(db, r, arrival).0) && OnlyTopic(db, UpsertEnqueueNode(db, r, arrival).0, r.topicId)
  {
    var db' := UpsertCompleteNode(db, r, arrival).0;
    EnqueuedTopicOk(db, r, arrival);
    EnqueuedOnlyTopic(db, r, arrival);
    forall k | k in db'.nodes && k.topic == r.topicId ensures NodeOk(db', k) {
      EnqueuedNodeOk(db, r, arrival, k);
    }
    OkByTopic(db, db', r.topicId);
  }

  lemma EnqueueKeepsOk(db: Sched, r: EnqueueRequest, arrival: Arrival)
    requires SchedOk(db)
    ensures SchedOk(Enqueue(db, r, arrival).0) && OnlyTopic(db, Enqueue(db, r, arrival).0, r.topicId)
  {
    var n := NormalizeBusiness(r);
    if n.Ok? {
      UpsertEnqueueKeepsOk(db, n.value, arrival);
    }
  }

  lemma UpsertPriorityKeepsOk(db: Sched, t: Id, n: Id, now: int)
    requires SchedOk(db) && t in db.topics && db.topics[t].priorityNodeId.None?
    ensures SchedOk(UpsertPriorityNode(db, t, n, now)) && OnlyTopic(db, UpsertPriorityNode(db, t, n, now), t)
  {
    var db' := UpsertPriorityNode(db, t, n, now);
    assert TopicOk(db, t);
    forall k | k in db'.nodes && k.topic == t ensures NodeOk(db', k) {
      if k in db.nodes { assert NodeOk(db, k); }
    }
    OkByTopic(db, db', t);
  }

  lemma MarkReadyKeepsOk(db: Sched, t: Id, now: int)
    requires SchedOk(db) && t in db.topics
    ensures SchedOk(MarkPriorityNodeReady(db, t, now)) && OnlyTopic(db, MarkPriorityNodeReady(db, t, now), t)
  {
    var db' := MarkPriorityNodeReady(db, t, now);
    assert TopicOk(db, t);
    forall k | k in db'.nodes && k.topic == t ensures NodeOk(db', k) {
      assert NodeOk(db, k);
    }
    OkByTopic(db, db', t);
  }

  lemma MarkRunningKeepsOk(db: Sched, t: Id, n: Id)
    requires SchedOk(db) && t in db.topics
    ensures SchedOk(MarkNodeRunning(db, t, n)) && OnlyTopic(db, MarkNodeRunning(db, t, n), t)
  {
    var db' := MarkNodeRunning(db, t, n);
    assert TopicOk(db, t);
    forall k | k in db'.nodes && k.topic == t ensures NodeOk(db', k) {
      assert NodeOk(db, k);
      assert k.node in RunningNodes(SetStatus(db, t, n, Running), t) || db'.nodes[k].status != Running;
    }
    OkByTopic(db, db', t);
  }

  lemma FinishedNodeOk(db: Sched, t: Id, n: Id, status: NodeStatus, at: int, k: Key)
    requires SchedOk(db) && t in db.topics && k in db.nodes && k.topic == t
    ensures k in MarkNodeFinished(db, t, n, status, at).nodes && NodeOk(MarkNodeFinished(db, t, n, status, at), k)
  {
    assert NodeOk(db, k);
  }

  lemma FinishedTopicOk(db: Sched, t: Id, n: Id, status: NodeStatus, at: int)
    requires SchedOk(db) && t in db.topics
    ensures var db' := MarkNodeFinished(db, t, n, status, at);
      t in db'.topics && TopicOk(db', t) && OnlyTopic(db, db', t) && db'.nodes.Keys == db.nodes.Keys
  {
    assert TopicOk(db, t);
  }

  lemma MarkFinishedKeepsOk(db: Sched, t: Id, n: Id, status: NodeStatus, at: int)
    requires SchedOk(db) && t in db.topics
    ensures SchedOk(MarkNodeFinished(db, t, n, status, at)) && OnlyTopic(db, MarkNodeFinished(db, t, n, status, at), t)
  {
    var db' := MarkNodeFinished(db, t, n, status, at);
    FinishedTopicOk(db, t, n, status, at);
    forall k | k in db'.nodes && k.topic == t ensures NodeOk(db', k) {
      FinishedNodeOk(db, t, n, status, at, k);
    }
    OkByTopic(db, db', t);
  }

  /** A plan changes labels, ranks and entry times of business nodes and nothing else. */
  ghost predicate Relabelled(before: NodeRow, after: NodeRow) {
    after == before.(tag := after.tag, rank := after.rank, enteredAt := after.enteredAt)
  }

  lemma {:induction false} AssignAllRows(db: Sched, t: Id, plan: seq<Assignment>, now: int)
    ensures var r := AssignAll(db, t, plan, now);
      && r.topics == db.topics && r.nodes.Keys == db.nodes.Keys
      && (forall k | k in db.nodes :: Relabelled(db.nodes[k], r.nodes[k]))
      && (forall k | k in db.nodes && (k.topic != t || db.nodes[k].isPriority) :: r.nodes[k] == db.nodes[k])
      && (forall k | k in db.nodes && r.nodes[k] != db.nodes[k] :: exists i :: 0 <= i < |plan| && k.node == plan[i].nodeId && r.nodes[k].rank == plan[i].rank)
    decreases |plan|
  {
    if plan != [] {
      var n := |plan| - 1;
      AssignAllRows(db, t, plan[..n], now);
      var before, r := AssignAll(db, t, plan[..n], now), AssignAll(db, t, plan, now);
      forall k | k in db.nodes && r.nodes[k] != db.nodes[k]
        ensures exists i :: 0 <= i < |plan| && k.node == plan[i].nodeId && r.nodes[k].rank == plan[i].rank
      {
        if r.nodes[k] == before.nodes[k] {
          var i :| 0 <= i < n && k.node == plan[..n][i].nodeId && before.nodes[k].rank == plan[..n][i].rank;
          assert k.node == plan[i].nodeId;
        } else {
          assert k.node == plan[n].nodeId;
        }
      }
    }
  }

  lemma ApplyPlanKeepsOk(db: Sched, t: Id, plan: seq<Assignment>, at: int)
    requires SchedOk(db) && t in db.topics
    requires forall i | 0 <= i < |plan| :: plan[i].rank >= 1
    ensures SchedOk(ApplyPriorityPlan(db, t, plan, at)) && OnlyTopic(db, ApplyPriorityPlan(db, t, plan, at), t)
  {
    AssignAllRows(db, t, plan, at);
    var db' := ApplyPriorityPlan(db, t, plan, at);
    assert TopicOk(db, t);
    forall k | k in db'.nodes && k.topic == t ensures NodeOk(db', k) {
      assert NodeOk(db, k);
    }
    OkByTopic(db, db', t);
  }

  lemma ClearKeepsOk(db: Sched, t: Id, error: string)
    requires SchedOk(db) && t in db.topics
    ensures SchedOk(ClearPriorityDirty(db, t, error)) && OnlyTopic(db, ClearPriorityDirty(db, t, error), t)
  {
    var db' := ClearPriorityDirty(db, t, error);
    assert TopicOk(db, t);
    forall k | k in db'.nodes && k.topic == t ensures NodeOk(db', k) {
      assert NodeOk(db, k);
    }
    OkByTopic(db, db', t);
  }

  lemma OnlyTopicTransitive(a: Sched, b: Sched, c: Sched, t: Id)
    requires OnlyTopic(a, b, t) && OnlyTopic(b, c, t)
    ensures OnlyTopic(a, c, t)
  {
  }

  lemma DispatchOneKeepsOk(db: Sched, t: Id, n: Id, r: Reply)
    requires SchedOk(db) && t in db.topics
    ensures SchedOk(DispatchOne(db, t, n, r).db) && OnlyTopic(db, DispatchOne(db, t, n, r).db, t)
  {
    if Key(t, n) in db.nodes {
      var isPriority := db.nodes[Key(t, n)].isPriority;
      var running := MarkNodeRunning(db, t, n);
      MarkRunningKeepsOk(db, t, n);
      if !r.SessionFailed? {
        var status := if r.WorkerFailed? then Failed else ResolveNodeStatus(isPriority, r);
        var finished := MarkNodeFinished(running, t, n, status, r.at);
        MarkFinishedKeepsOk(running, t, n, status, r.at);
        OnlyTopicTransitive(db, running, finished, t);
        if r.Answered? && isPriority {
          if r.succeeded {
            ApplyPlanKeepsOk(finished, t, BuildPriorityPlan(LoadPriorityCandidates(running, t)), r.at);
          } else {
            ClearKeepsOk(finished, t, PassError(r.error));
          }
          OnlyTopicTransitive(db, finished, DispatchOne(db, t, n, r).db, t);
        }
      }
    }
  }

  lemma {:induction false} DispatchAllKeepsOk(db: Sched, t: Id, ids: seq<Id>, replies: nat -> Reply)
    requires SchedOk(db) && t in db.topics
    ensures SchedOk(DispatchAll(db, t, ids, replies).db) && OnlyTopic(db, DispatchAll(db, t, ids, replies).db, t)
    decreases |ids|
  {
    if ids != [] {
      var before := DispatchAll(db, t, ids[..|ids| - 1], replies);
      DispatchAllKeepsOk(db, t, ids[..|ids| - 1], replies);
      if before.ok {
        DispatchOneKeepsOk(before.db, t, ids[|ids| - 1], replies(|ids| - 1));
        OnlyTopicTransitive(db, before.db, DispatchAll(db, t, ids, replies).db, t);
      }
    }
  }

  lemma PromoteKeepsOk(db: Sched, now: int, threshold: int)
    requires SchedOk(db)
    ensures SchedOk(PromoteAgedTopics(db, now, threshold))
  {
    var db' := PromoteAgedTopics(db, now, threshold);
    forall k | k in db'.nodes ensures NodeOk(db', k) {
      assert NodeOk(db, k);
    }
    forall t | t in db'.topics ensures TopicOk(db', t) {
      assert TopicOk(db, t);
    }
  }

  lemma PrepareKeepsOk(db: Sched, t: Id, input: TickInput)
    requires SchedOk(db) && t in db.topics
    ensures Prepare(db, t, input).Some? ==> SchedOk(Prepare(db, t, input).value) && OnlyTopic(db, Prepare(db, t, input).value, t)
  {
    if db.topics[t].dirty && db.topics[t].running == {} {
      var ensured := EnsurePriorityNode(db, t, input.vosPriorityId, input.readyAt);
      if ensured.Some? {
        if db.topics[t].priorityNodeId.None? {
          UpsertPriorityKeepsOk(db, t, input.vosPriorityId.value, input.readyAt);
        }
        MarkReadyKeepsOk(ensured.value, t, input.readyAt);
        OnlyTopicTransitive(db, ensured.value, Prepare(db, t, input).value, t);
      }
    }
  }

  lemma ServeKeepsOk(db: Sched, t: Id, runnable: bool, at: int)
    requires SchedOk(db) && t in db.topics
    ensures SchedOk(Serve(db, t, runnable, at)) && OnlyTopic(db, Serve(db, t, runnable, at), t)
  {
    var db' := Serve(db, t, runnable, at);
    assert TopicOk(db, t);
    forall k | k in db'.nodes && k.topic == t ensures NodeOk(db', k) {
      assert NodeOk(db, k);
    }
    OkByTopic(db, db', t);
  }

  lemma WorkKeepsOk(db: Sched, t: Id, input: TickInput)
    requires SchedOk(db) && t in db.topics && input.limit > 0
    ensures SchedOk(Work(db, t, input).db) && OnlyTopic(db, Work(db, t, input).db, t)
  {
    var planned := PlannedFor(db, t, input.limit);
    var d := DispatchAll(db, t, planned, input.replies);
    DispatchAllKeepsOk(db, t, planned, input.replies);
    if d.ok && t in d.db.topics {
      ServeKeepsOk(d.db, t, HasRunnable(d.db, t), input.servedAt);
      OnlyTopicTransitive(db, d.db, Serve(d.db, t, HasRunnable(d.db, t), input.servedAt), t);
    }
  }

  /** The tables the planner works on, and how the tick goes on from there. */
  lemma TickShape(db: Sched, input: TickInput) returns (aged: Sched, prepared: Option<Sched>)
    requires SchedOk(db) && input.limit > 0
    ensures aged == PromoteAgedTopics(db, input.promoteAt, input.agingThreshold) && SchedOk(aged)
    ensures var selected := Tick(db, input).selected;
      && selected == SelectTopic(aged)
      && (selected.None? ==> Tick(db, input).db == aged && Tick(db, input).planned == [])
      && (selected.Some? ==>
            && prepared == Prepare(aged, selected.value, input)
            && (if prepared.None? then Tick(db, input).db == aged && Tick(db, input).planned == [] && !Tick(db, input).served
                else SchedOk(prepared.value) && OnlyTopic(aged, prepared.value, selected.value)
                     && Tick(db, input) == Work(prepared.value, selected.value, input)))
  {
    aged := PromoteAgedTopics(db, input.promoteAt, input.agingThreshold);
    PromoteKeepsOk(db, input.promoteAt, input.agingThreshold);
    var selected := SelectTopic(aged);
    prepared := None;
    if selected.Some? {
      prepared := Prepare(aged, selected.value, input);
      PrepareKeepsOk(aged, selected.value, input);
    }
  }

  lemma TickKeepsOk(db: Sched, input: TickInput)
    requires SchedOk(db) && input.limit > 0
    ensures SchedOk(Tick(db, input).db)
  {
    var aged, prepared := TickShape(db, input);
    var selected := Tick(db, input).selected;
    if selected.Some? && prepared.Some? {
      WorkKeepsOk(prepared.value, selected.value, input);
    }
  }
}
