/**
  The store lists rows in no particular order. Whatever order it picks, the engine accepts the
  same snapshots, plans the same dispatch and gets the same priority plan from the worker.
 */
module ScheduleOrder {
  import opened Prelude
  import opened Sorting
  import opened ScheduleTypes
  import opened SchedulePlanner
  import opened SchedulePlanTheorems
  import opened ScheduleModel
  import opened ScheduleTheorems
  import opened SchedulePriority

  /** s shows the rows of topic t, each once, in some order. */
  ghost predicate SnapshotOf(db: Sched, t: Id, s: TopicSnapshot) {
    && t in db.topics && s.topicId == t && s.level == db.topics[t].level
    && RuntimeOf(db.topics[t], t, s.runtime)
    && NodesListed(db, t, s.nodes)
  }

  ghost predicate RuntimeOf(row: TopicRow, t: Id, r: TopicRuntime) {
    && r == TopicRuntime(t, PresentId(row.currentNodeId), r.runningNodeIds, PresentId(row.lastWorkedNodeId), row.switchCount)
    && NoRepeats(r.runningNodeIds) && (forall n :: n in r.runningNodeIds <==> n in row.running)
  }

  ghost predicate NodesListed(db: Sched, t: Id, nodes: seq<TopicNode>) {
    && NoRepeats(nodes)
    && (forall n | n in nodes :: Key(t, n.nodeId) in db.nodes && n == NodeView(db, t, n.nodeId))
    && (forall k | k in db.nodes && k.topic == t :: NodeView(db, t, k.node) in nodes)
  }

  lemma CanonicalSnapshot(db: Sched, t: Id)
    requires t in db.topics
    ensures SnapshotOf(db, t, BuildTopicSnapshot(db, t))
  {
    var nodes := BuildTopicSnapshot(db, t).nodes;
    var ids := ListOf(NodesOf(db, t));
    forall n | n in nodes ensures Key(t, n.nodeId) in db.nodes && n == NodeView(db, t, n.nodeId) {
      var i :| 0 <= i < |nodes| && nodes[i] == n;
      SnapshotNode(db, t, i);
    }
    forall k | k in db.nodes && k.topic == t ensures NodeView(db, t, k.node) in nodes {
      var i := SnapshotHasNode(db, t, k.node);
    }
    forall i, j | 0 <= i < j < |nodes| ensures nodes[i] != nodes[j] {
      assert ids[i] != ids[j];
      assert ids[i] in ids && ids[j] in ids;
    }
  }

  lemma ListingsPermute(db: Sched, t: Id, a: seq<TopicNode>, b: seq<TopicNode>)
    requires NodesListed(db, t, a) && NodesListed(db, t, b)
    ensures multiset(a) == multiset(b)
  {
    forall n ensures n in a <==> n in b {
      if n in a { assert Key(t, n.nodeId) in db.nodes; }
      if n in b { assert Key(t, n.nodeId) in db.nodes; }
    }
    SameMembersPermute(a, b);
  }

  // Validation -----------------------------------------------------------------------------

  lemma ValidNodesPermute(a: seq<TopicNode>, b: seq<TopicNode>)
    requires multiset(a) == multiset(b) && ValidNodes(a) && NoRepeats(b)
    ensures ValidNodes(b) && NodeIds(a) == NodeIds(b)
  {
    MembersAgree(a, b);
    forall j | 0 <= j < |b| ensures exists i :: 0 <= i < |a| && a[i] == b[j] {
      assert b[j] in a;
    }
    forall i | 0 <= i < |a| ensures a[i].nodeId in NodeIds(b) {
      assert a[i] in b;
    }
    forall j | 0 <= j < |b| ensures ValidNode(b[j]) && b[j].nodeId in NodeIds(a) {
      var i :| 0 <= i < |a| && a[i] == b[j];
    }
    forall i, j | 0 <= i < j < |b|
      ensures b[i].nodeId != b[j].nodeId && (b[i].priority.rank == b[j].priority.rank ==> b[i].priority.tag == b[j].priority.tag)
    {
      var x :| 0 <= x < |a| && a[x] == b[i];
      var y :| 0 <= y < |a| && a[y] == b[j];
      assert x != y;
    }
  }

  lemma ValidRuntimePermutes(row: TopicRow, t: Id, a: TopicRuntime, b: TopicRuntime, ids: set<Id>)
    requires RuntimeOf(row, t, a) && RuntimeOf(row, t, b) && ValidRuntime(a)
    requires forall i | 0 <= i < |a.runningNodeIds| :: a.runningNodeIds[i] in ids
    ensures ValidRuntime(b) && forall i | 0 <= i < |b.runningNodeIds| :: b.runningNodeIds[i] in ids
  {
    forall j | 0 <= j < |b.runningNodeIds| ensures b.runningNodeIds[j] != "" && b.runningNodeIds[j] in ids {
      assert b.runningNodeIds[j] in a.runningNodeIds;
    }
  }

  lemma ValidPermutes(db: Sched, t: Id, a: TopicSnapshot, b: TopicSnapshot)
    requires SnapshotOf(db, t, a) && SnapshotOf(db, t, b) && ValidSnapshot(a)
    ensures ValidSnapshot(b)
  {
    ListingsPermute(db, t, a.nodes, b.nodes);
    ValidNodesPermute(a.nodes, b.nodes);
    ValidRuntimePermutes(db.topics[t], t, a.runtime, b.runtime, NodeIds(a.nodes));
  }

  lemma SameVerdict(db: Sched, t: Id, s: TopicSnapshot)
    requires SnapshotOf(db, t, s)
    ensures ValidSnapshot(s) <==> ValidSnapshot(BuildTopicSnapshot(db, t))
  {
    CanonicalSnapshot(db, t);
    if ValidSnapshot(s) {
      ValidPermutes(db, t, s, BuildTopicSnapshot(db, t));
    } else if ValidSnapshot(BuildTopicSnapshot(db, t)) {
      ValidPermutes(db, t, BuildTopicSnapshot(db, t), s);
    }
  }

  // Planning -------------------------------------------------------------------------------

  lemma {:induction false} FillSlotsByMembers(taken: seq<Id>, ids: seq<Id>, current: Id, a: seq<Id>, b: seq<Id>, slots: nat)
    requires forall n :: n in a <==> n in b
    ensures FillSlots(taken, ids, current, a, slots) == FillSlots(taken, ids, current, b, slots)
    decreases |ids|
  {
    if ids != [] && |taken| < slots {
      FillSlotsByMembers(if ids[0] == current || ids[0] in a then taken else taken + [ids[0]], ids[1..], current, a, b, slots);
    }
  }

  lemma DispatchByMembers(ids: seq<Id>, current: Id, a: seq<Id>, b: seq<Id>, slots: nat)
    requires forall n :: n in a <==> n in b
    ensures DispatchIds(ids, current, a, slots) == DispatchIds(ids, current, b, slots)
  {
    FillSlotsByMembers(if slots > 0 && current !in a then [current] else [], ids, current, a, b, slots);
  }

  /** Only membership in the running list counts. */
  lemma PlanByRunningMembers(s: TopicSnapshot, running': seq<Id>, slots: nat)
    requires forall n :: n in running' <==> n in s.runtime.runningNodeIds
    ensures PlanTopicDispatch(s.(runtime := s.runtime.(runningNodeIds := running')), slots) == PlanTopicDispatch(s, slots)
  {
    if Filter(NonTerminal, s.nodes) != [] && OrderedCandidates(s.nodes) != [] {
      var ordered := OrderedCandidates(s.nodes);
      CurrentIsCandidate(ordered, s.runtime);
      DispatchByMembers(Ids(ordered), ChooseCurrent(ordered, s.runtime).value, running', s.runtime.runningNodeIds, slots);
    }
  }

  /** The tick's plan is the same for every order of the rows. */
  lemma PlanFromAnyListing(db: Sched, t: Id, s: TopicSnapshot, limit: nat)
    requires SnapshotOf(db, t, s)
    ensures PlannedFor(db, t, limit) == if ValidSnapshot(s) then PlanTopicDispatch(s, limit).value.dispatch else []
  {
    var c := BuildTopicSnapshot(db, t);
    CanonicalSnapshot(db, t);
    if ValidSnapshot(s) {
      ValidPermutes(db, t, s, c);
      ListingsPermute(db, t, s.nodes, c.nodes);
      PlanPermutation(c, s.nodes, limit);
      PlanByRunningMembers(c.(nodes := s.nodes), s.runtime.runningNodeIds, limit);
      assert s == c.(nodes := s.nodes, runtime := c.runtime.(runningNodeIds := s.runtime.runningNodeIds));
    } else if ValidSnapshot(c) {
      ValidPermutes(db, t, c, s);
    }
  }

  // The worker's plan ----------------------------------------------------------------------

  ghost predicate CandidatesListed(db: Sched, t: Id, c: seq<Candidate>) {
    && NoRepeats(c)
    && (forall x | x in c :: x.nodeId in LiveBusinessNodes(db, t) && x == CandidateOf(db, t, x.nodeId))
    && (forall n | n in LiveBusinessNodes(db, t) :: CandidateOf(db, t, n) in c)
  }

  lemma LoadedNoRepeats(db: Sched, t: Id)
    ensures NoRepeats(LoadPriorityCandidates(db, t))
  {
    var c, ids := LoadPriorityCandidates(db, t), ListOf(LiveBusinessNodes(db, t));
    forall i, j | 0 <= i < j < |c| ensures c[i] != c[j] {
      assert ids[i] != ids[j];
    }
  }

  lemma PriorityPlanFromAnyListing(db: Sched, t: Id, c: seq<Candidate>)
    requires CandidatesListed(db, t, c)
    ensures BuildPriorityPlan(c) == BuildPriorityPlan(LoadPriorityCandidates(db, t))
  {
    var d := LoadPriorityCandidates(db, t);
    LoadedNoRepeats(db, t);
    forall x ensures x in c <==> x in d {
      if x in d { CandidateIsLive(db, t, x); }
      if x in c { LiveIsCandidate(db, t, x.nodeId); }
    }
    SameMembersPermute(c, d);
    CandidateBeforeIsStrictOrder();
    CandidatesTotal(db, t);
    SortPermutation(CandidateBefore, d, c);
  }
}
