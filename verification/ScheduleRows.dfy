/**
  Snapshots in terms of the tables they show: when a snapshot validates, which nodes can be
  dispatched, and which changes to the tables the planner does not notice.
 */
module ScheduleRows {
  import opened Prelude
  import opened Sorting
  import opened ScheduleTypes
  import opened SchedulePlanner
  import opened SchedulePlanTheorems
  import opened ScheduleModel
  import opened ScheduleTheorems

  // Validation -----------------------------------------------------------------------------

  predicate RowOk(n: Id, row: NodeRow) {
    n != "" && row.name != "" && row.tag != "" && row.rank >= 0 && !NormalStatus(row.status).Unknown?
  }

  /** Every node of the topic is complete, and nodes of one rank carry one label. */
  ghost predicate NodeRowsValid(db: Sched, t: Id) {
    && (forall k | k in db.nodes && k.topic == t :: RowOk(k.node, db.nodes[k]))
    && (forall k, l | k in db.nodes && l in db.nodes && k.topic == t && l.topic == t && db.nodes[k].rank == db.nodes[l].rank ::
          db.nodes[k].tag == db.nodes[l].tag)
  }

  ghost predicate Known(db: Sched, t: Id, reference: Option<Id>) {
    reference.Some? ==> Key(t, reference.value) in db.nodes
  }

  ghost predicate TopicRowValid(db: Sched, t: Id)
    requires t in db.topics
  {
    var row := db.topics[t];
    && t != "" && row.switchCount >= 0
    && Known(db, t, PresentId(row.currentNodeId)) && Known(db, t, PresentId(row.lastWorkedNodeId))
    && (forall n | n in row.running :: n != "" && Key(t, n) in db.nodes)
  }

  ghost predicate RowsValid(db: Sched, t: Id) {
    t in db.topics && TopicRowValid(db, t) && NodeRowsValid(db, t)
  }

  lemma IdsAreKeys(db: Sched, t: Id, n: Id)
    requires t in db.topics
    ensures n in NodeIds(BuildTopicSnapshot(db, t).nodes) <==> Key(t, n) in db.nodes
  {
    var nodes := BuildTopicSnapshot(db, t).nodes;
    if n in NodeIds(nodes) {
      var i :| 0 <= i < |nodes| && nodes[i].nodeId == n;
      SnapshotNode(db, t, i);
    }
    if Key(t, n) in db.nodes {
      var i := SnapshotHasNode(db, t, n);
    }
  }

  lemma SnapshotDistinct(db: Sched, t: Id)
    requires t in db.topics
    ensures DistinctNodes(BuildTopicSnapshot(db, t).nodes)
  {
    var nodes, ids := BuildTopicSnapshot(db, t).nodes, ListOf(NodesOf(db, t));
    forall i, j | 0 <= i < j < |nodes| ensures nodes[i].nodeId != nodes[j].nodeId {
      assert ids[i] in ids && ids[j] in ids;
    }
  }

  lemma NodesValidIsRows(db: Sched, t: Id)
    requires t in db.topics
    ensures ValidNodes(BuildTopicSnapshot(db, t).nodes) <==> NodeRowsValid(db, t)
  {
    var nodes := BuildTopicSnapshot(db, t).nodes;
    if ValidNodes(nodes) {
      NodesValidOnlyIf(db, t, nodes);
    }
    if NodeRowsValid(db, t) {
      SnapshotDistinct(db, t);
      forall i | 0 <= i < |nodes| ensures ValidNode(nodes[i]) { SnapshotNode(db, t, i); }
      forall i, j | 0 <= i < j < |nodes| && nodes[i].priority.rank == nodes[j].priority.rank
        ensures nodes[i].priority.tag == nodes[j].priority.tag
      {
        SnapshotNode(db, t, i);
        SnapshotNode(db, t, j);
      }
    }
  }

  lemma NodesValidOnlyIf(db: Sched, t: Id, nodes: seq<TopicNode>)
    requires t in db.topics && nodes == BuildTopicSnapshot(db, t).nodes && ValidNodes(nodes)
    ensures NodeRowsValid(db, t)
  {
    forall k | k in db.nodes && k.topic == t ensures RowOk(k.node, db.nodes[k]) {
      var i := SnapshotHasNode(db, t, k.node);
      assert ValidNode(nodes[i]) && Key(t, k.node) == k;
    }
    forall k, l | k in db.nodes && l in db.nodes && k.topic == t && l.topic == t && db.nodes[k].rank == db.nodes[l].rank
      ensures db.nodes[k].tag == db.nodes[l].tag
    {
      var i := SnapshotHasNode(db, t, k.node);
      var j := SnapshotHasNode(db, t, l.node);
      assert Key(t, k.node) == k && Key(t, l.node) == l;
      SameRankSameTag(nodes, i, j);
    }
  }

  lemma SameRankSameTag(nodes: seq<TopicNode>, i: nat, j: nat)
    requires OneLabelPerRank(nodes) && i < |nodes| && j < |nodes| && nodes[i].priority.rank == nodes[j].priority.rank
    ensures nodes[i].priority.tag == nodes[j].priority.tag
  {
    if i < j {
      assert nodes[i].priority.tag == nodes[j].priority.tag;
    }
  }

  /** The checks of a snapshot besides those of its nodes. */
  ghost predicate RestValid(s: TopicSnapshot) {
    && s.topicId != "" && ValidRuntime(s.runtime) && s.runtime.topicId == s.topicId
    && Listed(NodeIds(s.nodes), s.runtime.currentNodeId) && Listed(NodeIds(s.nodes), s.runtime.lastWorkedNodeId)
    && (forall i | 0 <= i < |s.runtime.runningNodeIds| :: s.runtime.runningNodeIds[i] in NodeIds(s.nodes))
  }

  lemma RunningListed(db: Sched, t: Id, running: seq<Id>, ids: set<Id>)
    requires t in db.topics && NoRepeats(running) && forall n :: n in running <==> n in db.topics[t].running
    requires forall n :: n in ids <==> Key(t, n) in db.nodes
    ensures (forall i | 0 <= i < |running| :: running[i] != "" && running[i] in ids) <==>
            (forall n | n in db.topics[t].running :: n != "" && Key(t, n) in db.nodes)
  {
    if forall i | 0 <= i < |running| :: running[i] != "" && running[i] in ids {
      forall n | n in db.topics[t].running ensures n != "" && Key(t, n) in db.nodes {
        assert n in running;
      }
    }
    forall i | 0 <= i < |running| ensures running[i] in db.topics[t].running {
      assert running[i] in running;
    }
  }

  lemma RestValidIsRow(db: Sched, t: Id)
    requires t in db.topics
    ensures RestValid(BuildTopicSnapshot(db, t)) <==> TopicRowValid(db, t)
  {
    var s := BuildTopicSnapshot(db, t);
    forall n ensures n in NodeIds(s.nodes) <==> Key(t, n) in db.nodes { IdsAreKeys(db, t, n); }
    RunningListed(db, t, s.runtime.runningNodeIds, NodeIds(s.nodes));
    RestFromParts(db, t, s, NodeIds(s.nodes));
  }

  lemma RestFromParts(db: Sched, t: Id, s: TopicSnapshot, ids: set<Id>)
    requires t in db.topics && ids == NodeIds(s.nodes) && (forall n :: n in ids <==> Key(t, n) in db.nodes)
    requires s.topicId == t && NoRepeats(s.runtime.runningNodeIds)
    requires var row := db.topics[t];
      s.runtime == TopicRuntime(t, PresentId(row.currentNodeId), s.runtime.runningNodeIds, PresentId(row.lastWorkedNodeId), row.switchCount)
    requires (forall i | 0 <= i < |s.runtime.runningNodeIds| :: s.runtime.runningNodeIds[i] != "" && s.runtime.runningNodeIds[i] in ids) <==>
             (forall n | n in db.topics[t].running :: n != "" && Key(t, n) in db.nodes)
    ensures RestValid(s) <==> TopicRowValid(db, t)
  {
  }

  /** A snapshot validates exactly when the rows it shows are in order. */
  lemma ValidIsRows(db: Sched, t: Id)
    requires t in db.topics
    ensures ValidSnapshot(BuildTopicSnapshot(db, t)) <==> RowsValid(db, t)
  {
    NodesValidIsRows(db, t);
    RestValidIsRow(db, t);
  }

  // Dispatching ----------------------------------------------------------------------------

  /** Node n is live, at the lowest rank of the live nodes, unblocked and not listed as running. */
  ghost predicate CanGo(db: Sched, t: Id, n: Id) {
    && t in db.topics && Key(t, n) in db.nodes && !IsTerminal(db.nodes[Key(t, n)].status) && !BlocksDispatch(db.nodes[Key(t, n)].status)
    && n !in db.topics[t].running
    && (forall k | k in db.nodes && k.topic == t && !IsTerminal(db.nodes[k].status) :: db.nodes[Key(t, n)].rank <= db.nodes[k].rank)
  }

  lemma DispatchableIsCanGo(db: Sched, t: Id, n: Id)
    requires t in db.topics
    ensures n in Dispatchable(BuildTopicSnapshot(db, t)) <==> CanGo(db, t, n)
  {
    var s := BuildTopicSnapshot(db, t);
    if n in Dispatchable(s) {
      var i :| 0 <= i < |s.nodes| && InTopLayer(s, i) && Unblocked(s.nodes[i]) && s.nodes[i].nodeId == n && n !in s.runtime.runningNodeIds;
      TopLayerCanGo(db, t, i);
    }
    if CanGo(db, t, n) {
      CanGoInTopLayer(db, t, n);
    }
  }

  lemma TopLayerCanGo(db: Sched, t: Id, i: nat)
    requires t in db.topics && i < |BuildTopicSnapshot(db, t).nodes|
    requires var s := BuildTopicSnapshot(db, t);
      InTopLayer(s, i) && Unblocked(s.nodes[i]) && s.nodes[i].nodeId !in s.runtime.runningNodeIds
    ensures CanGo(db, t, BuildTopicSnapshot(db, t).nodes[i].nodeId)
  {
    var s := BuildTopicSnapshot(db, t);
    SnapshotNode(db, t, i);
    forall k | k in db.nodes && k.topic == t && !IsTerminal(db.nodes[k].status) ensures s.nodes[i].priority.rank <= db.nodes[k].rank {
      var j := SnapshotHasNode(db, t, k.node);
      assert Key(t, k.node) == k && NonTerminal(s.nodes[j]);
    }
  }

  lemma CanGoInTopLayer(db: Sched, t: Id, n: Id)
    requires CanGo(db, t, n)
    ensures n in Dispatchable(BuildTopicSnapshot(db, t))
  {
    var s := BuildTopicSnapshot(db, t);
    var i := SnapshotHasNode(db, t, n);
    forall j | 0 <= j < |s.nodes| && NonTerminal(s.nodes[j]) ensures s.nodes[i].priority.rank <= s.nodes[j].priority.rank {
      SnapshotNode(db, t, j);
    }
    assert InTopLayer(s, i);
  }

  /** With valid rows and one node that can go, that node is the plan. */
  lemma OnlyOneCanGo(db: Sched, t: Id, n: Id, limit: nat)
    requires RowsValid(db, t) && limit > 0 && CanGo(db, t, n) && forall m | CanGo(db, t, m) :: m == n
    ensures PlannedFor(db, t, limit) == [n]
  {
    var s := BuildTopicSnapshot(db, t);
    forall m ensures m in Dispatchable(s) <==> m == n { DispatchableIsCanGo(db, t, m); }
    assert Dispatchable(s) == {n};
    ValidIsRows(db, t);
    OneDispatchable(s, n, limit);
  }

  // What the planner does not notice --------------------------------------------------------

  /** The topic's nodes are the same, and of its row only level and service time may differ. */
  ghost predicate SamePlanning(db: Sched, db': Sched, t: Id) {
    && t in db.topics && t in db'.topics
    && db'.topics[t] == db.topics[t].(level := db'.topics[t].level, lastServedAt := db'.topics[t].lastServedAt)
    && (forall k | k in db.nodes && k.topic == t :: k in db'.nodes && db'.nodes[k] == db.nodes[k])
    && (forall k | k in db'.nodes && k.topic == t :: k in db.nodes)
  }

  lemma SameNodeIds(db: Sched, db': Sched, t: Id)
    requires SamePlanning(db, db', t)
    ensures NodesOf(db', t) == NodesOf(db, t)
  {
    forall n ensures n in NodesOf(db', t) <==> n in NodesOf(db, t) {
      if n in NodesOf(db', t) { assert Key(t, n) in db'.nodes; }
      if n in NodesOf(db, t) { assert Key(t, n) in db.nodes; }
    }
  }

  lemma SameViews(db: Sched, db': Sched, t: Id, ids: seq<Id>)
    requires forall n | n in ids :: Key(t, n) in db.nodes && Key(t, n) in db'.nodes && db'.nodes[Key(t, n)] == db.nodes[Key(t, n)]
    ensures NodeViews(db', t, ids) == NodeViews(db, t, ids)
  {
    var a, b := NodeViews(db, t, ids), NodeViews(db', t, ids);
    forall i | 0 <= i < |ids| ensures a[i] == b[i] {
      assert ids[i] in ids;
    }
  }

  lemma SameSnapshot(db: Sched, db': Sched, t: Id)
    requires SamePlanning(db, db', t)
    ensures BuildTopicSnapshot(db', t) == BuildTopicSnapshot(db, t).(level := db'.topics[t].level)
  {
    SameNodeIds(db, db', t);
    var ids := ListOf(NodesOf(db, t));
    forall n | n in ids ensures Key(t, n) in db.nodes && Key(t, n) in db'.nodes && db'.nodes[Key(t, n)] == db.nodes[Key(t, n)] {
      assert n in NodesOf(db, t);
    }
    SameViews(db, db', t, ids);
  }

  lemma LevelDoesNotMatter(s: TopicSnapshot, level: Level, slots: nat)
    ensures PlanTopicDispatch(s.(level := level), slots) == PlanTopicDispatch(s, slots)
    ensures ValidSnapshot(s.(level := level)) <==> ValidSnapshot(s)
  {
  }

  lemma SamePlan(db: Sched, db': Sched, t: Id, limit: nat)
    requires SamePlanning(db, db', t)
    ensures PlannedFor(db', t, limit) == PlannedFor(db, t, limit)
  {
    SameSnapshot(db, db', t);
    LevelDoesNotMatter(BuildTopicSnapshot(db, t), db'.topics[t].level, limit);
  }
}
