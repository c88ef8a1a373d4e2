/**
  internal/schedule/runtime_store.go: the two tables, updated in place. Every method is proved
  to do what its function in ScheduleModel says; rows are visited in whatever order the
  database lists them.
 */
module ScheduleStore {
  import opened Prelude
  import opened Sorting
  import opened ScheduleTypes
  import opened ScheduleModel
  import opened ScheduleOrder
  import Model = ScheduleModel

  /** The rows already read, while the query is still running. */
  ghost predicate Read(db: Sched, t: Id, left: set<Key>, nodes: seq<TopicNode>) {
    && NoRepeats(nodes)
    && (forall n | n in nodes :: Key(t, n.nodeId) in db.nodes && Key(t, n.nodeId) !in left && n == NodeView(db, t, n.nodeId))
    && (forall k | k in db.nodes && k.topic == t && k !in left :: NodeView(db, t, k.node) in nodes)
  }

  lemma ReadOneMore(db: Sched, t: Id, left: set<Key>, nodes: seq<TopicNode>, k: Key)
    requires Read(db, t, left, nodes) && k in left && k in db.nodes
    ensures Read(db, t, left - {k}, if k.topic == t then nodes + [NodeView(db, t, k.node)] else nodes)
  {
    if k.topic == t {
      assert Key(t, k.node) == k;
    }
  }

  ghost predicate CandidatesRead(db: Sched, t: Id, left: set<Key>, c: seq<Candidate>) {
    && NoRepeats(c)
    && (forall x | x in c :: x.nodeId in LiveBusinessNodes(db, t) && Key(t, x.nodeId) !in left && x == CandidateOf(db, t, x.nodeId))
    && (forall n | n in LiveBusinessNodes(db, t) && Key(t, n) !in left :: CandidateOf(db, t, n) in c)
  }

  lemma CandidateReadOneMore(db: Sched, t: Id, left: set<Key>, c: seq<Candidate>, k: Key)
    requires CandidatesRead(db, t, left, c) && k in left && k in db.nodes
    ensures var live := k.topic == t && !db.nodes[k].isPriority && !IsTerminal(db.nodes[k].status);
      CandidatesRead(db, t, left - {k}, if live then c + [CandidateOf(db, t, k.node)] else c)
  {
    if k.topic == t {
      assert Key(t, k.node) == k;
      if !db.nodes[k].isPriority && !IsTerminal(db.nodes[k].status) {
        assert k.node in LiveBusinessNodes(db, t);
      }
    }
  }

  /** The topics already visited carry their aged row, the others their old one. */
  ghost predicate Ageing(before: Sched, topics: map<Id, TopicRow>, left: set<Id>, now: int, threshold: int) {
    && topics.Keys == before.topics.Keys
    && (forall t | t in left && t in topics :: topics[t] == before.topics[t])
    && (forall t | t in topics && t !in left ::
          topics[t] == if Aged(before.topics[t], now, threshold) then before.topics[t].(level := PromoteLevel(before.topics[t].level)) else before.topics[t])
  }

  class RuntimeStore {
    var topics: map<Id, TopicRow>
    var nodes: map<Key, NodeRow>

    function Tables(): Sched
      reads this
    {
      Sched(topics, nodes)
    }

    constructor ()
      ensures Tables() == Sched(map[], map[])
    {
      topics, nodes := map[], map[];
    }

    method EnsureTopic(t: Id) returns (ok: bool)
      modifies this
      ensures ok <==> t != ""
      ensures Tables() == if ok then Model.EnsureTopic(old(Tables()), t) else old(Tables())
    {
      ok := t != "";
      if !ok {
        return;
      }
      if t !in topics {
        topics := topics[t := NEW_TOPIC];
      }
    }

    /** The row of this rank that the database shows first, if there is one. */
    method ProbeRank(t: Id, n: Id, rank: int) returns (probe: Option<Id>)
      ensures probe.None? <==> OthersAtRank(Tables(), t, n, rank) == {}
      ensures probe.Some? ==> probe.value in OthersAtRank(Tables(), t, n, rank)
    {
      var left := nodes.Keys;
      while left != {}
        invariant left <= nodes.Keys
        invariant forall k | k in nodes && k !in left :: !(k.topic == t && k.node != n && nodes[k].rank == rank)
        decreases left
      {
        var k :| k in left;
        if k.topic == t && k.node != n && nodes[k].rank == rank {
          assert k.node in OthersAtRank(Tables(), t, n, rank);
          return Some(k.node);
        }
        left := left - {k};
      }
      return None;
    }

    /** The arrival records what the database showed to the rank query. */
    method UpsertEnqueueNode(r: EnqueueRequest, now: int) returns (created: Result<bool, string>, ghost arrival: Arrival)
      modifies this
      ensures arrival.now == now && (Tables(), created) == Model.UpsertEnqueueNode(old(Tables()), r, arrival)
    {
      arrival := Arrival(now, "");
      if !CompleteRequest(r) {
        return Err("incomplete request"), arrival;
      }
      var topicOk := EnsureTopic(r.topicId);
      var probe := ProbeRank(r.topicId, r.nodeId, r.priority.rank);
      if probe.Some? {
        arrival := Arrival(now, probe.value);
        if nodes[Key(r.topicId, probe.value)].tag != r.priority.tag {
          return Err("priority rank already mapped to another label"), arrival;
        }
      }
      var key := Key(r.topicId, r.nodeId);
      created := Ok(key !in nodes);
      if key in nodes {
        nodes := nodes[key := nodes[key].(name := r.nodeName, tag := r.priority.tag, rank := r.priority.rank, enteredAt := now, status := Ready)];
      } else {
        nodes := nodes[key := NodeRow(r.nodeName, false, r.priority.tag, r.priority.rank, Ready, now, None)];
      }
      topics := topics[r.topicId := topics[r.topicId].(dirty := true)];
    }

    method UpsertPriorityNode(t: Id, n: Id, now: int) returns (ok: bool)
      modifies this
      ensures ok <==> t != "" && n != ""
      ensures Tables() == if ok then Model.UpsertPriorityNode(old(Tables()), t, n, now) else old(Tables())
    {
      if t == "" || n == "" {
        return false;
      }
      ok := EnsureTopic(t);
      var key := Key(t, n);
      if key in nodes {
        nodes := nodes[key := nodes[key].(name := PRIORITY_NODE_NAME, isPriority := true, tag := PRIORITY_TAG, rank := 0)];
      } else {
        nodes := nodes[key := NodeRow(PRIORITY_NODE_NAME, true, PRIORITY_TAG, 0, Ready, now, None)];
      }
      topics := topics[t := topics[t].(priorityNodeId := Some(n))];
    }

    /** An unknown topic, or one without a priority node, is an error. */
    method MarkPriorityNodeReady(t: Id, now: int) returns (ok: bool)
      modifies this
      ensures ok <==> t in old(topics) && old(topics)[t].priorityNodeId.Some?
      ensures Tables() == Model.MarkPriorityNodeReady(old(Tables()), t, now)
    {
      ok := t in topics && topics[t].priorityNodeId.Some?;
      if t in topics && topics[t].priorityNodeId.Some? {
        var key := Key(t, topics[t].priorityNodeId.value);
        if key in nodes {
          nodes := nodes[key := nodes[key].(status := Ready, rank := 0, tag := PRIORITY_TAG, enteredAt := now)];
        }
      }
    }

    method ClearPriorityDirty(t: Id, error: string)
      modifies this
      ensures Tables() == Model.ClearPriorityDirty(old(Tables()), t, error)
    {
      if t in topics {
        topics := topics[t := topics[t].(dirty := false, lastPriorityError := Some(error))];
      }
    }

    method SetStatus(t: Id, n: Id, status: NodeStatus)
      modifies this
      ensures Tables() == Model.SetStatus(old(Tables()), t, n, status)
    {
      if Key(t, n) in nodes {
        nodes := nodes[Key(t, n) := nodes[Key(t, n)].(status := status)];
      }
    }

    /** One transaction: a topic that does not exist rolls the assignments back. */
    method ApplyPriorityPlan(t: Id, plan: seq<Assignment>, now: int)
      modifies this
      ensures Tables() == Model.ApplyPriorityPlan(old(Tables()), t, plan, now)
    {
      var rollback := nodes;
      for i := 0 to |plan|
        invariant Tables() == AssignAll(old(Tables()), t, plan[..i], now)
        invariant topics == old(topics)
      {
        assert plan[..i + 1][..i] == plan[..i];
        var key := Key(t, plan[i].nodeId);
        if plan[i].nodeId != "" && key in nodes && !nodes[key].isPriority {
          nodes := nodes[key := nodes[key].(tag := plan[i].tag, rank := plan[i].rank, enteredAt := now)];
        }
      }
      assert plan[..|plan|] == plan;
      if t !in topics {
        nodes := rollback;
        return;
      }
      topics := topics[t := topics[t].(dirty := false, lastPriorityError := None, planVersion := topics[t].planVersion + 1)];
      if topics[t].priorityNodeId.Some? {
        SetStatus(t, topics[t].priorityNodeId.value, Succeeded);
      }
    }

    method SyncTopicRunningNodeIds(t: Id, current: Option<Id>)
      modifies this
      ensures Tables() == SyncRunning(old(Tables()), t, current)
    {
      var running: set<Id> := {};
      var left := nodes.Keys;
      while left != {}
        invariant left <= nodes.Keys && Tables() == old(Tables())
        invariant running == set k | k in nodes && k !in left && k.topic == t && nodes[k].status == Running :: k.node
        decreases left
      {
        var k :| k in left;
        if k.topic == t && nodes[k].status == Running {
          running := running + {k.node};
        }
        left := left - {k};
      }
      assert running == RunningNodes(Tables(), t);
      if t in topics {
        topics := topics[t := topics[t].(running := running, currentNodeId := if current.Some? then current else topics[t].currentNodeId)];
      }
    }

    method MarkNodeRunning(t: Id, n: Id)
      modifies this
      ensures Tables() == Model.MarkNodeRunning(old(Tables()), t, n)
    {
      SetStatus(t, n, Running);
      SyncTopicRunningNodeIds(t, Some(n));
    }

    method MarkNodeFinished(t: Id, n: Id, status: NodeStatus, at: int)
      modifies this
      ensures Tables() == Model.MarkNodeFinished(old(Tables()), t, n, status, at)
    {
      if t !in topics {
        return;
      }
      if Key(t, n) in nodes {
        nodes := nodes[Key(t, n) := nodes[Key(t, n)].(status := status, lastWorkedAt := Some(at))];
      }
      SyncTopicRunningNodeIds(t, None);
      var row := topics[t];
      topics := topics[t := row.(lastWorkedNodeId := Some(n), currentNodeId := Some(n),
                                 switchCount := row.switchCount + if row.currentNodeId == Some(n) then 0 else 1)];
    }

    method HasRunnableNodes(t: Id) returns (runnable: bool)
      ensures runnable <==> HasRunnable(Tables(), t)
    {
      var count, left := 0, nodes.Keys;
      while left != {}
        invariant left <= nodes.Keys && count >= 0
        invariant count > 0 ==> HasRunnable(Tables(), t)
        invariant count == 0 ==> forall k | k in nodes && k.topic == t && k !in left :: IsTerminal(nodes[k].status) || BlocksDispatch(nodes[k].status)
        decreases left
      {
        var k :| k in left;
        if k.topic == t && !IsTerminal(nodes[k].status) && !BlocksDispatch(nodes[k].status) {
          assert Key(t, k.node) == k;
          count := count + 1;
        }
        left := left - {k};
      }
      return count > 0;
    }

    method SetTopicQueueLevel(t: Id, level: Level)
      modifies this
      ensures nodes == old(nodes) && topics == if t in old(topics) then old(topics)[t := old(topics)[t].(level := level)] else old(topics)
    {
      if t in topics {
        topics := topics[t := topics[t].(level := level)];
      }
    }

    method PromoteAgedTopics(now: int, threshold: int)
      modifies this
      ensures Tables() == Model.PromoteAgedTopics(old(Tables()), now, threshold)
    {
      if threshold <= 0 {
        return;
      }
      var rows, left := topics, topics.Keys;
      while left != {}
        invariant left <= rows.Keys && rows == old(topics) && nodes == old(nodes)
        invariant Ageing(old(Tables()), topics, left, now, threshold)
        decreases left
      {
        var t :| t in left;
        left := left - {t};
        if rows[t].lastServedAt.Some? && now - rows[t].lastServedAt.value >= threshold {
          if PromoteLevel(topics[t].level) != topics[t].level {
            SetTopicQueueLevel(t, PromoteLevel(topics[t].level));
          }
        }
      }
    }

    /** TouchTopicServed, then DemoteTopic when something is left to run. */
    method TouchAndDemote(t: Id, at: int)
      requires t in topics
      modifies this
      ensures Tables() == Serve(old(Tables()), t, HasRunnable(old(Tables()), t), at)
    {
      topics := topics[t := topics[t].(lastServedAt := Some(at))];
      var runnable := HasRunnableNodes(t);
      assert HasRunnable(Tables(), t) == HasRunnable(old(Tables()), t);
      if runnable && DemoteLevel(topics[t].level) != topics[t].level {
        SetTopicQueueLevel(t, DemoteLevel(topics[t].level));
      }
    }

    method ListNodes(t: Id) returns (views: seq<TopicNode>)
      ensures NodesListed(Tables(), t, views)
    {
      views := [];
      var left := nodes.Keys;
      while left != {}
        invariant left <= nodes.Keys && Read(Tables(), t, left, views)
        decreases left
      {
        var k :| k in left;
        ReadOneMore(Tables(), t, left, views, k);
        if k.topic == t {
          views := views + [NodeView(Tables(), t, k.node)];
        }
        left := left - {k};
      }
    }

    method ListRunning(t: Id) returns (ids: seq<Id>)
      requires t in topics
      ensures NoRepeats(ids) && forall n :: n in ids <==> n in topics[t].running
    {
      ids := [];
      var left := topics[t].running;
      while left != {}
        invariant NoRepeats(ids) && forall n :: n in ids <==> n in topics[t].running && n !in left
        invariant left <= topics[t].running
        decreases left
      {
        var n :| n in left;
        ids := ids + [n];
        left := left - {n};
      }
    }

    method BuildTopicSnapshot(t: Id) returns (s: Option<TopicSnapshot>)
      requires t in topics
      ensures s.Some? ==> SnapshotOf(Tables(), t, s.value) && ValidSnapshot(s.value)
      ensures s.Some? <==> ValidSnapshot(Model.BuildTopicSnapshot(Tables(), t))
    {
      var views := ListNodes(t);
      var running := ListRunning(t);
      var row := topics[t];
      var listed := TopicSnapshot(t, row.level, views, TopicRuntime(t, PresentId(row.currentNodeId), running, PresentId(row.lastWorkedNodeId), row.switchCount));
      var ok := Validate(listed);
      SameVerdict(Tables(), t, listed);
      return if ok then Some(listed) else None;
    }

    /** loadPriorityCandidates reads the live business nodes. */
    method LoadPriorityCandidates(t: Id) returns (c: seq<Candidate>)
      ensures CandidatesListed(Tables(), t, c)
    {
      c := [];
      var left := nodes.Keys;
      while left != {}
        invariant left <= nodes.Keys && CandidatesRead(Tables(), t, left, c)
        decreases left
      {
        var k :| k in left;
        CandidateReadOneMore(Tables(), t, left, c, k);
        if k.topic == t && !nodes[k].isPriority && !IsTerminal(nodes[k].status) {
          c := c + [CandidateOf(Tables(), t, k.node)];
        }
        left := left - {k};
      }
    }
  }
}
