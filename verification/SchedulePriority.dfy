/**
  The priority pass across worker, store and planner: right after the worker's plan is applied,
  the planner dispatches the node the worker ranked first.
 */
module SchedulePriority {
  import opened Prelude
  import opened Sorting
  import opened ScheduleTypes
  import opened SchedulePlanner
  import opened SchedulePlanTheorems
  import opened ScheduleModel
  import opened ScheduleInvariants
  import opened ScheduleTheorems
  import opened ScheduleRows

  lemma CandidateBeforeIsStrictOrder()
    ensures StrictOrder(CandidateBefore)
  {
    StrLessIsStrictOrder();
  }

  lemma CandidatesTotal(db: Sched, t: Id)
    ensures TotalOn(CandidateBefore, LoadPriorityCandidates(db, t))
  {
    var c := LoadPriorityCandidates(db, t);
    forall i, j | 0 <= i < j < |c| ensures CandidateBefore(c[i], c[j]) || CandidateBefore(c[j], c[i]) {
      StrLessTotal(c[i].nodeId, c[j].nodeId);
    }
  }

  lemma CandidateIsLive(db: Sched, t: Id, c: Candidate)
    requires c in LoadPriorityCandidates(db, t)
    ensures c.nodeId in LiveBusinessNodes(db, t) && c == CandidateOf(db, t, c.nodeId)
  {
    var ids := ListOf(LiveBusinessNodes(db, t));
    var i :| 0 <= i < |ids| && LoadPriorityCandidates(db, t)[i] == c;
    assert ids[i] in LiveBusinessNodes(db, t);
  }

  lemma LiveIsCandidate(db: Sched, t: Id, n: Id)
    requires n in LiveBusinessNodes(db, t)
    ensures CandidateOf(db, t, n) in LoadPriorityCandidates(db, t)
  {
    var ids := ListOf(LiveBusinessNodes(db, t));
    var i :| 0 <= i < |ids| && ids[i] == n;
    assert LoadPriorityCandidates(db, t)[i] == CandidateOf(db, t, n);
  }

  /** The plan ranks every live business node once, and in the worker's order. */
  ghost predicate RanksLiveNodes(db: Sched, t: Id, plan: seq<Assignment>) {
    && (forall i | 0 <= i < |plan| :: plan[i].nodeId in LiveBusinessNodes(db, t) && plan[i].rank == i + 1)
    && (forall i | 0 <= i < |plan| :: plan[i].tag == if i < 2 then "now" else "next")
    && (forall n | n in LiveBusinessNodes(db, t) :: exists i :: 0 <= i < |plan| && plan[i].nodeId == n)
    && (forall i, j | 0 <= i < j < |plan| :: plan[i].nodeId != plan[j].nodeId
          && CandidateBefore(CandidateOf(db, t, plan[i].nodeId), CandidateOf(db, t, plan[j].nodeId)))
  }

  lemma PlanEntry(db: Sched, t: Id, i: nat)
    requires i < |LoadPriorityCandidates(db, t)|
    ensures var candidates := LoadPriorityCandidates(db, t); var n := BuildPriorityPlan(candidates)[i].nodeId;
      n in LiveBusinessNodes(db, t) && SortBy(CandidateBefore, candidates)[i] == CandidateOf(db, t, n)
  {
    var candidates := LoadPriorityCandidates(db, t);
    var ordered := SortBy(CandidateBefore, candidates);
    MembersAgree(ordered, candidates);
    assert ordered[i] in candidates;
    CandidateIsLive(db, t, ordered[i]);
  }

  lemma PlanCovers(db: Sched, t: Id, n: Id) returns (i: nat)
    requires n in LiveBusinessNodes(db, t)
    ensures i < |LoadPriorityCandidates(db, t)| && BuildPriorityPlan(LoadPriorityCandidates(db, t))[i].nodeId == n
  {
    var candidates := LoadPriorityCandidates(db, t);
    var ordered := SortBy(CandidateBefore, candidates);
    LiveIsCandidate(db, t, n);
    MembersAgree(ordered, candidates);
    i :| 0 <= i < |ordered| && ordered[i] == CandidateOf(db, t, n);
  }

  lemma PlanInOrder(db: Sched, t: Id, i: nat, j: nat)
    requires i < j < |LoadPriorityCandidates(db, t)|
    ensures var plan := BuildPriorityPlan(LoadPriorityCandidates(db, t));
      && plan[i].nodeId in LiveBusinessNodes(db, t) && plan[j].nodeId in LiveBusinessNodes(db, t)
      && plan[i].nodeId != plan[j].nodeId
      && CandidateBefore(CandidateOf(db, t, plan[i].nodeId), CandidateOf(db, t, plan[j].nodeId))
  {
    var candidates := LoadPriorityCandidates(db, t);
    CandidateBeforeIsStrictOrder();
    CandidatesTotal(db, t);
    SortSorts(CandidateBefore, candidates);
    PlanEntry(db, t, i);
    PlanEntry(db, t, j);
    assert !CandidateBefore(SortBy(CandidateBefore, candidates)[i], SortBy(CandidateBefore, candidates)[i]);
  }

  lemma WorkerPlanRanksLiveNodes(db: Sched, t: Id)
    ensures RanksLiveNodes(db, t, BuildPriorityPlan(LoadPriorityCandidates(db, t)))
  {
    var plan := BuildPriorityPlan(LoadPriorityCandidates(db, t));
    forall i | 0 <= i < |plan| ensures plan[i].nodeId in LiveBusinessNodes(db, t) {
      PlanEntry(db, t, i);
    }
    forall n | n in LiveBusinessNodes(db, t) ensures exists i :: 0 <= i < |plan| && plan[i].nodeId == n {
      var i := PlanCovers(db, t, n);
    }
    forall i, j | 0 <= i < j < |plan|
      ensures plan[i].nodeId != plan[j].nodeId && CandidateBefore(CandidateOf(db, t, plan[i].nodeId), CandidateOf(db, t, plan[j].nodeId)) {
      PlanInOrder(db, t, i, j);
    }
  }

  /** Applying a plan without repeated nodes gives each node its own assignment. */
  lemma {:induction false} AssignAllRanks(db: Sched, t: Id, plan: seq<Assignment>, now: int, i: nat)
    requires forall a, b | 0 <= a < b < |plan| :: plan[a].nodeId != plan[b].nodeId
    requires i < |plan| && plan[i].nodeId != "" && Key(t, plan[i].nodeId) in db.nodes && !db.nodes[Key(t, plan[i].nodeId)].isPriority
    ensures var r := AssignAll(db, t, plan, now); var k := Key(t, plan[i].nodeId);
      k in r.nodes && r.nodes[k] == db.nodes[k].(tag := plan[i].tag, rank := plan[i].rank, enteredAt := now)
    decreases |plan|
  {
    var n := |plan| - 1;
    var k := Key(t, plan[i].nodeId);
    var before := AssignAll(db, t, plan[..n], now);
    AssignAllRows(db, t, plan[..n], now);
    if i < n {
      AssignAllRanks(db, t, plan[..n], now, i);
    } else {
      assert forall j | 0 <= j < n :: plan[..n][j].nodeId != k.node;
      assert before.nodes[k] == db.nodes[k];
    }
  }

  // The pass -----------------------------------------------------------------------------

  /** A topic just after its priority node p was re-ranked over the plan. */
  ghost predicate Reranked(db: Sched, t: Id, p: Id, plan: seq<Assignment>) {
    && t in db.topics
    && RankedAsPlanned(db, t, plan)
    && (forall k | k in db.nodes && k.topic == t && db.nodes[k].isPriority :: IsTerminal(db.nodes[k].status))
    && (forall i | 0 <= i < |plan| :: plan[i].nodeId !in db.topics[t].running)
  }

  /** Ranks as stored: position in the plan, plus one. */
  ghost predicate RankedAsPlanned(db: Sched, t: Id, plan: seq<Assignment>) {
    && (forall i | 0 <= i < |plan| :: plan[i].nodeId in LiveBusinessNodes(db, t) && db.nodes[Key(t, plan[i].nodeId)].rank == i + 1)
    && (forall n | n in LiveBusinessNodes(db, t) :: exists i :: 0 <= i < |plan| && plan[i].nodeId == n)
  }

  lemma FirstIsTopLayer(db: Sched, t: Id, p: Id, plan: seq<Assignment>)
    requires Reranked(db, t, p, plan) && plan != []
    ensures var s := BuildTopicSnapshot(db, t);
      forall i | 0 <= i < |s.nodes| :: InTopLayer(s, i) <==> s.nodes[i].nodeId == plan[0].nodeId
  {
    var s := BuildTopicSnapshot(db, t);
    var first := plan[0].nodeId;
    var at := SnapshotHasNode(db, t, first);
    forall i | 0 <= i < |s.nodes| && NonTerminal(s.nodes[i])
      ensures s.nodes[i].priority.rank >= 1 && (s.nodes[i].nodeId != first ==> s.nodes[i].priority.rank >= 2)
    {
      SnapshotNode(db, t, i);
      var n := s.nodes[i].nodeId;
      assert n in LiveBusinessNodes(db, t);
      var j :| 0 <= j < |plan| && plan[j].nodeId == n;
    }
    forall i | 0 <= i < |s.nodes| && s.nodes[i].nodeId == first ensures NonTerminal(s.nodes[i]) && s.nodes[i].priority.rank == 1 {
      SnapshotNode(db, t, i);
    }
    assert InTopLayer(s, at) && s.nodes[at].nodeId == first;
  }

  lemma RerankedDispatchable(db: Sched, t: Id, p: Id, plan: seq<Assignment>)
    requires Reranked(db, t, p, plan) && plan != []
    ensures Dispatchable(BuildTopicSnapshot(db, t)) ==
      if BlocksDispatch(db.nodes[Key(t, plan[0].nodeId)].status) then {} else {plan[0].nodeId}
  {
    var s := BuildTopicSnapshot(db, t);
    var first := plan[0].nodeId;
    FirstIsTopLayer(db, t, p, plan);
    var at := SnapshotHasNode(db, t, first);
    forall i | 0 <= i < |s.nodes| && s.nodes[i].nodeId == first ensures Unblocked(s.nodes[i]) <==> !BlocksDispatch(db.nodes[Key(t, first)].status) {
      SnapshotNode(db, t, i);
    }
    assert first !in s.runtime.runningNodeIds;
  }

  lemma NothingDispatchable(s: TopicSnapshot, slots: nat)
    requires ValidSnapshot(s) && Dispatchable(s) == {}
    ensures PlanTopicDispatch(s, slots).Ok? && PlanTopicDispatch(s, slots).value.dispatch == []
  {
    PlanExact(s, slots);
  }

  /** The top layer is the first node alone, so it is blocked as that node is. */
  lemma TopLayerAsFirst(db: Sched, t: Id, p: Id, plan: seq<Assignment>, i: nat)
    requires Reranked(db, t, p, plan) && plan != [] && i < |BuildTopicSnapshot(db, t).nodes| && InTopLayer(BuildTopicSnapshot(db, t), i)
    ensures Unblocked(BuildTopicSnapshot(db, t).nodes[i]) <==> !BlocksDispatch(db.nodes[Key(t, plan[0].nodeId)].status)
  {
    FirstIsTopLayer(db, t, p, plan);
    SnapshotNode(db, t, i);
  }

  lemma RerankedStall(db: Sched, t: Id, p: Id, plan: seq<Assignment>, slots: nat)
    requires Reranked(db, t, p, plan) && plan != []
    ensures var r := PlanTopicDispatch(BuildTopicSnapshot(db, t), slots);
      r.Ok? && (r.value.stalled <==> BlocksDispatch(db.nodes[Key(t, plan[0].nodeId)].status))
  {
    var s := BuildTopicSnapshot(db, t);
    FirstIsTopLayer(db, t, p, plan);
    var at := SnapshotHasNode(db, t, plan[0].nodeId);
    forall i | 0 <= i < |s.nodes| && InTopLayer(s, i)
      ensures Unblocked(s.nodes[i]) <==> !BlocksDispatch(db.nodes[Key(t, plan[0].nodeId)].status) {
      TopLayerAsFirst(db, t, p, plan, i);
    }
    StalledBy(s, slots, at);
  }

  lemma RerankedPlan(db: Sched, t: Id, p: Id, plan: seq<Assignment>, slots: nat)
    requires Reranked(db, t, p, plan) && plan != [] && slots >= 1 && ValidSnapshot(BuildTopicSnapshot(db, t))
    ensures var r := PlanTopicDispatch(BuildTopicSnapshot(db, t), slots);
      r.Ok? && r.value.dispatch == if BlocksDispatch(db.nodes[Key(t, plan[0].nodeId)].status) then [] else [plan[0].nodeId]
  {
    var s := BuildTopicSnapshot(db, t);
    RerankedDispatchable(db, t, p, plan);
    if Dispatchable(s) == {} {
      NothingDispatchable(s, slots);
    } else {
      OneDispatchable(s, plan[0].nodeId, slots);
    }
  }

  // From the pass to the re-ranked topic -------------------------------------------------

  /** The tables after the worker answered, before its plan is applied. */
  ghost function Finished(db: Sched, t: Id, p: Id, r: Reply): Sched
    requires r.Answered?
  {
    MarkNodeFinished(MarkNodeRunning(db, t, p), t, p, ResolveNodeStatus(true, r), r.at)
  }

  /** What the worker answers when the priority node p runs. */
  ghost function PassPlan(db: Sched, t: Id, p: Id): seq<Assignment> {
    BuildPriorityPlan(LoadPriorityCandidates(MarkNodeRunning(db, t, p), t))
  }

  lemma FinishedRows(db: Sched, t: Id, p: Id, r: Reply)
    requires SchedOk(db) && Primed(db, t, p) && r.Answered?
    ensures var f := Finished(db, t, p, r);
      && f.nodes.Keys == db.nodes.Keys
      && (forall k | k in db.nodes && k != Key(t, p) :: f.nodes[k] == db.nodes[k])
      && f.nodes[Key(t, p)].isPriority
      && t in f.topics && f.topics[t].priorityNodeId == Some(p)
      && f.topics[t].running <= {p}
  {
    forall k | k in db.nodes && k.topic == t ensures db.nodes[k].status != Running {
      assert NodeOk(db, k);
    }
  }

  lemma SameLiveNodes(db: Sched, t: Id, p: Id, r: Reply)
    requires SchedOk(db) && Primed(db, t, p) && r.Answered?
    ensures LiveBusinessNodes(MarkNodeRunning(db, t, p), t) == LiveBusinessNodes(db, t)
    ensures LiveBusinessNodes(Finished(db, t, p, r), t) == LiveBusinessNodes(db, t)
    ensures forall n | n in LiveBusinessNodes(db, t) :: n != p && CandidateOf(MarkNodeRunning(db, t, p), t, n) == CandidateOf(db, t, n)
  {
    FinishedRows(db, t, p, r);
  }

  lemma PassResult(db: Sched, t: Id, p: Id, r: Reply)
    requires Primed(db, t, p) && r.Answered? && r.succeeded
    ensures DispatchOne(db, t, p, r) ==
      Dispatched(ApplyPriorityPlan(Finished(db, t, p, r), t, PassPlan(db, t, p), r.at), r.recorded)
  {
  }

  /** Applying any plan: the priority node succeeds, the rest is only relabelled. */
  lemma AppliedRows(f: Sched, t: Id, p: Id, plan: seq<Assignment>, at: int)
    requires t in f.topics && f.topics[t].priorityNodeId == Some(p) && Key(t, p) in f.nodes && f.nodes[Key(t, p)].isPriority
    ensures var db' := ApplyPriorityPlan(f, t, plan, at);
      && t in db'.topics && db'.topics[t].running == f.topics[t].running
      && db'.nodes.Keys == f.nodes.Keys && db'.nodes[Key(t, p)] == f.nodes[Key(t, p)].(status := Succeeded)
      && (forall k | k in f.nodes && k != Key(t, p) :: Relabelled(f.nodes[k], db'.nodes[k]))
      && LiveBusinessNodes(db', t) == LiveBusinessNodes(f, t)
  {
    AssignAllRows(f, t, plan, at);
  }

  lemma AppliedRank(f: Sched, t: Id, p: Id, plan: seq<Assignment>, at: int, i: nat)
    requires t in f.topics && f.topics[t].priorityNodeId == Some(p)
    requires forall a, b | 0 <= a < b < |plan| :: plan[a].nodeId != plan[b].nodeId
    requires i < |plan| && plan[i].nodeId != "" && plan[i].nodeId != p && Key(t, plan[i].nodeId) in f.nodes && !f.nodes[Key(t, plan[i].nodeId)].isPriority
    ensures var db' := ApplyPriorityPlan(f, t, plan, at); var k := Key(t, plan[i].nodeId);
      k in db'.nodes && db'.nodes[k].rank == plan[i].rank && db'.nodes[k].tag == plan[i].tag
  {
    AssignAllRows(f, t, plan, at);
    AssignAllRanks(f, t, plan, at, i);
  }

  lemma PassRanks(db: Sched, t: Id, p: Id, r: Reply, i: nat)
    requires SchedOk(db) && Primed(db, t, p) && r.Answered? && r.succeeded
    requires RowsValid(db, t)
    requires i < |LoadPriorityCandidates(MarkNodeRunning(db, t, p), t)|
    ensures var plan := PassPlan(db, t, p); var k := Key(t, plan[i].nodeId);
      var nodes := DispatchOne(db, t, p, r).db.nodes;
      plan[i].nodeId in LiveBusinessNodes(db, t) && k in nodes && nodes[k].rank == i + 1 && nodes[k].tag == plan[i].tag
  {
    var f := Finished(db, t, p, r);
    var plan := PassPlan(db, t, p);
    PassResult(db, t, p, r);
    FinishedRows(db, t, p, r);
    SameLiveNodes(db, t, p, r);
    AppliedRows(f, t, p, plan, r.at);
    WorkerPlanRanksLiveNodes(MarkNodeRunning(db, t, p), t);
    assert RowOk(plan[i].nodeId, db.nodes[Key(t, plan[i].nodeId)]);
    AppliedRank(f, t, p, plan, r.at, i);
  }

  lemma PassRest(db: Sched, t: Id, p: Id, r: Reply)
    requires SchedOk(db) && Primed(db, t, p) && r.Answered? && r.succeeded
    ensures var db' := DispatchOne(db, t, p, r).db;
      && t in db'.topics && db'.topics[t].running <= {p}
      && LiveBusinessNodes(db', t) == LiveBusinessNodes(db, t)
      && (forall k | k in db'.nodes && k.topic == t && db'.nodes[k].isPriority :: IsTerminal(db'.nodes[k].status))
  {
    var f := Finished(db, t, p, r);
    PassResult(db, t, p, r);
    FinishedRows(db, t, p, r);
    SameLiveNodes(db, t, p, r);
    AppliedRows(f, t, p, PassPlan(db, t, p), r.at);
    forall k | k in db.nodes && k.topic == t && db.nodes[k].isPriority ensures k.node == p {
      assert NodeOk(db, k);
    }
  }

  /** After a successful priority dispatch the live nodes carry the ranks of the worker's plan. */
  lemma PassReranks(db: Sched, t: Id, p: Id, r: Reply)
    requires SchedOk(db) && Primed(db, t, p) && r.Answered? && r.succeeded
    requires RowsValid(db, t)
    ensures Reranked(DispatchOne(db, t, p, r).db, t, p, PassPlan(db, t, p))
  {
    var plan := PassPlan(db, t, p);
    var db' := DispatchOne(db, t, p, r).db;
    PassRest(db, t, p, r);
    SameLiveNodes(db, t, p, r);
    WorkerPlanRanksLiveNodes(MarkNodeRunning(db, t, p), t);
    forall i | 0 <= i < |plan| ensures Key(t, plan[i].nodeId) in db'.nodes && db'.nodes[Key(t, plan[i].nodeId)].rank == i + 1 {
      PassRanks(db, t, p, r, i);
    }
    RerankedFrom(db', t, p, plan, LiveBusinessNodes(db, t));
  }

  lemma RerankedFrom(db: Sched, t: Id, p: Id, plan: seq<Assignment>, live: set<Id>)
    requires t in db.topics && db.topics[t].running <= {p} && LiveBusinessNodes(db, t) == live && p !in live
    requires forall i | 0 <= i < |plan| :: plan[i].nodeId in live && Key(t, plan[i].nodeId) in db.nodes && db.nodes[Key(t, plan[i].nodeId)].rank == i + 1
    requires forall n | n in live :: exists i :: 0 <= i < |plan| && plan[i].nodeId == n
    requires forall k | k in db.nodes && k.topic == t && db.nodes[k].isPriority :: IsTerminal(db.nodes[k].status)
    ensures Reranked(db, t, p, plan)
  {
  }

  /** What the planner makes of the re-ranked topic. */
  lemma PlanAfterRerank(db: Sched, t: Id, p: Id, plan: seq<Assignment>, slots: nat)
    requires Reranked(db, t, p, plan) && slots >= 1 && ValidSnapshot(BuildTopicSnapshot(db, t))
    ensures var next := PlanTopicDispatch(BuildTopicSnapshot(db, t), slots);
      && next.Ok?
      && (plan == [] ==> next.value.dispatch == [])
      && (plan != [] ==>
            var blocked := BlocksDispatch(db.nodes[Key(t, plan[0].nodeId)].status);
            next.value.stalled == blocked && next.value.dispatch == if blocked then [] else [plan[0].nodeId])
      && (plan == [] ==> !next.value.stalled)
  {
    if plan == [] {
      NoLiveNodes(db, t, p, plan, slots);
    } else {
      RerankedPlan(db, t, p, plan, slots);
      RerankedStall(db, t, p, plan, slots);
    }
  }

  /** The node ranked first is blocked exactly when all live business nodes were. */
  lemma FirstDecides(db: Sched, t: Id, p: Id, r: Reply, plan: seq<Assignment>)
    requires SchedOk(db) && Primed(db, t, p) && r.Answered? && r.succeeded && plan != []
    requires plan == PassPlan(db, t, p)
    ensures plan[0].nodeId in LiveBusinessNodes(db, t) && Key(t, plan[0].nodeId) in DispatchOne(db, t, p, r).db.nodes
    ensures BlocksDispatch(DispatchOne(db, t, p, r).db.nodes[Key(t, plan[0].nodeId)].status) <==>
      forall n | n in LiveBusinessNodes(db, t) :: BlocksDispatch(db.nodes[Key(t, n)].status)
  {
    SameLiveNodes(db, t, p, r);
    WorkerPlanRanksLiveNodes(MarkNodeRunning(db, t, p), t);
    FirstBlockedMeansAll(MarkNodeRunning(db, t, p), t, plan);
    FirstKeepsStatus(db, t, p, r, plan[0].nodeId);
  }

  // When the re-ranked topic validates -----------------------------------------------------

  function PlanTag(rank: int): string {
    if rank <= 2 then "now" else "next"
  }

  /** No finished business node sits, under another label, at a rank that the plan will use. */
  ghost predicate LabelsFit(db: Sched, t: Id) {
    forall k | k in db.nodes && k.topic == t && !db.nodes[k].isPriority && IsTerminal(db.nodes[k].status)
               && 1 <= db.nodes[k].rank <= |LiveBusinessNodes(db, t)| :: db.nodes[k].tag == PlanTag(db.nodes[k].rank)
  }

  /** The rows of the topic after a successful pass, node by node. */
  ghost predicate PassedRow(db: Sched, db': Sched, t: Id, p: Id, n: Id)
    requires Key(t, n) in db.nodes
  {
    var k := Key(t, n);
    && k in db'.nodes
    && (n == p ==> db'.nodes[k].status == Succeeded && db'.nodes[k].rank == db.nodes[k].rank && db'.nodes[k].tag == db.nodes[k].tag
                   && db'.nodes[k].name == db.nodes[k].name)
    && (n != p ==> Relabelled(db.nodes[k], db'.nodes[k]))
    && (n != p && n !in LiveBusinessNodes(db, t) ==> db'.nodes[k] == db.nodes[k])
    && (n in LiveBusinessNodes(db, t) ==> n != p && 1 <= db'.nodes[k].rank <= |LiveBusinessNodes(db, t)| && db'.nodes[k].tag == PlanTag(db'.nodes[k].rank))
  }

  lemma PassKeepsPriorityRow(db: Sched, t: Id, p: Id, r: Reply)
    requires SchedOk(db) && Primed(db, t, p) && r.Answered? && r.succeeded
    ensures var db' := DispatchOne(db, t, p, r).db; var k := Key(t, p);
      && db'.nodes.Keys == db.nodes.Keys && db'.nodes[k].status == Succeeded
      && db'.nodes[k].rank == db.nodes[k].rank && db'.nodes[k].tag == db.nodes[k].tag && db'.nodes[k].name == db.nodes[k].name
  {
    PassResult(db, t, p, r);
    FinishedRows(db, t, p, r);
    FinishedPriorityRow(db, t, p, r);
    AppliedRows(Finished(db, t, p, r), t, p, PassPlan(db, t, p), r.at);
  }

  lemma PassRelabels(db: Sched, t: Id, p: Id, r: Reply, n: Id)
    requires SchedOk(db) && Primed(db, t, p) && r.Answered? && r.succeeded && Key(t, n) in db.nodes && n != p
    ensures var db' := DispatchOne(db, t, p, r).db; var k := Key(t, n);
      k in db'.nodes && Relabelled(db.nodes[k], db'.nodes[k])
  {
    PassResult(db, t, p, r);
    FinishedRows(db, t, p, r);
    AppliedRows(Finished(db, t, p, r), t, p, PassPlan(db, t, p), r.at);
  }

  lemma FinishedPriorityRow(db: Sched, t: Id, p: Id, r: Reply)
    requires Primed(db, t, p) && r.Answered?
    ensures var f := Finished(db, t, p, r); var k := Key(t, p);
      k in f.nodes && f.nodes[k] == db.nodes[k].(status := f.nodes[k].status, lastWorkedAt := f.nodes[k].lastWorkedAt)
  {
  }

  lemma AppliedUnnamed(f: Sched, t: Id, p: Id, plan: seq<Assignment>, at: int, n: Id)
    requires t in f.topics && f.topics[t].priorityNodeId == Some(p) && n != p && Key(t, n) in f.nodes
    requires forall i | 0 <= i < |plan| :: plan[i].nodeId != n
    ensures Key(t, n) in ApplyPriorityPlan(f, t, plan, at).nodes && ApplyPriorityPlan(f, t, plan, at).nodes[Key(t, n)] == f.nodes[Key(t, n)]
  {
    AssignAllRows(f, t, plan, at);
  }

  lemma PlanNamesLive(db: Sched, t: Id, p: Id, r: Reply, i: nat)
    requires SchedOk(db) && Primed(db, t, p) && r.Answered? && i < |PassPlan(db, t, p)|
    ensures PassPlan(db, t, p)[i].nodeId in LiveBusinessNodes(db, t)
  {
    SameLiveNodes(db, t, p, r);
    PlanEntry(MarkNodeRunning(db, t, p), t, i);
  }

  /** A node the plan does not name keeps its row. */
  lemma PassKeepsUnplanned(db: Sched, t: Id, p: Id, r: Reply, n: Id)
    requires SchedOk(db) && Primed(db, t, p) && r.Answered? && r.succeeded && Key(t, n) in db.nodes && n != p && n !in LiveBusinessNodes(db, t)
    ensures Key(t, n) in DispatchOne(db, t, p, r).db.nodes && DispatchOne(db, t, p, r).db.nodes[Key(t, n)] == db.nodes[Key(t, n)]
  {
    var plan := PassPlan(db, t, p);
    PassResult(db, t, p, r);
    FinishedRows(db, t, p, r);
    forall i | 0 <= i < |plan| ensures plan[i].nodeId != n { PlanNamesLive(db, t, p, r, i); }
    AppliedUnnamed(Finished(db, t, p, r), t, p, plan, r.at, n);
  }

  lemma PassRow(db: Sched, t: Id, p: Id, r: Reply, n: Id)
    requires SchedOk(db) && Primed(db, t, p) && r.Answered? && r.succeeded && RowsValid(db, t) && Key(t, n) in db.nodes
    ensures PassedRow(db, DispatchOne(db, t, p, r).db, t, p, n)
  {
    SameLiveNodes(db, t, p, r);
    if n == p {
      PassKeepsPriorityRow(db, t, p, r);
    } else {
      PassRelabels(db, t, p, r, n);
    }
    if n in LiveBusinessNodes(db, t) {
      var i := PlanCovers(MarkNodeRunning(db, t, p), t, n);
      PassRanks(db, t, p, r, i);
    } else if n != p {
      PassKeepsUnplanned(db, t, p, r, n);
    }
  }

  lemma PassRuntime(db: Sched, t: Id, p: Id, r: Reply)
    requires SchedOk(db) && Primed(db, t, p) && r.Answered? && r.succeeded && RowsValid(db, t)
    ensures var db' := DispatchOne(db, t, p, r).db; t in db'.topics && TopicRowValid(db', t)
  {
    var f := Finished(db, t, p, r);
    PassResult(db, t, p, r);
    FinishedRows(db, t, p, r);
    AppliedRows(f, t, p, PassPlan(db, t, p), r.at);
    AppliedTopic(f, t, PassPlan(db, t, p), r.at);
    assert RowOk(p, db.nodes[Key(t, p)]);
  }

  lemma AppliedTopic(f: Sched, t: Id, plan: seq<Assignment>, at: int)
    requires t in f.topics
    ensures var row := ApplyPriorityPlan(f, t, plan, at).topics;
      t in row && row[t] == f.topics[t].(dirty := false, lastPriorityError := None, planVersion := f.topics[t].planVersion + 1)
  {
    AssignAllRows(f, t, plan, at);
  }

  /** The first rank's node, for every rank that the plan uses. */
  lemma RankIsTaken(db: Sched, t: Id, p: Id, r: Reply, rank: int) returns (n: Id)
    requires SchedOk(db) && Primed(db, t, p) && r.Answered? && r.succeeded && RowsValid(db, t) && 1 <= rank <= |LiveBusinessNodes(db, t)|
    ensures n in LiveBusinessNodes(db, t) && Key(t, n) in DispatchOne(db, t, p, r).db.nodes
    ensures DispatchOne(db, t, p, r).db.nodes[Key(t, n)].rank == rank && DispatchOne(db, t, p, r).db.nodes[Key(t, n)].tag == PlanTag(rank)
  {
    SameLiveNodes(db, t, p, r);
    PassRanks(db, t, p, r, rank - 1);
    n := PassPlan(db, t, p)[rank - 1].nodeId;
  }

  /** Where the labels fit, the rows that come out of a pass are in order. */
  lemma PassedRowsValid(db: Sched, db': Sched, t: Id, p: Id)
    requires SchedOk(db) && Primed(db, t, p) && RowsValid(db, t) && db'.nodes.Keys == db.nodes.Keys
    requires forall n | Key(t, n) in db.nodes :: PassedRow(db, db', t, p, n)
    requires LabelsFit(db, t)
    ensures NodeRowsValid(db', t)
  {
    forall k | k in db'.nodes && k.topic == t ensures RowOk(k.node, db'.nodes[k]) {
      PassedRowOk(db, db', t, p, k.node);
    }
    forall k, l | k in db'.nodes && l in db'.nodes && k.topic == t && l.topic == t && db'.nodes[k].rank == db'.nodes[l].rank
      ensures db'.nodes[k].tag == db'.nodes[l].tag
    {
      PassedTagsAgree(db, db', t, p, k.node, l.node);
    }
  }

  lemma PassedRowOk(db: Sched, db': Sched, t: Id, p: Id, n: Id)
    requires RowsValid(db, t) && Key(t, n) in db.nodes && PassedRow(db, db', t, p, n)
    ensures RowOk(n, db'.nodes[Key(t, n)])
  {
    assert RowOk(n, db.nodes[Key(t, n)]);
  }

  /** Where a row's label comes from: the plan, or the row before. */
  lemma PassedTag(db: Sched, db': Sched, t: Id, p: Id, n: Id)
    requires SchedOk(db) && Primed(db, t, p) && LabelsFit(db, t) && Key(t, n) in db.nodes && PassedRow(db, db', t, p, n)
    ensures var row := db'.nodes[Key(t, n)];
      if 1 <= row.rank <= |LiveBusinessNodes(db, t)| then row.tag == PlanTag(row.rank)
      else row.rank == db.nodes[Key(t, n)].rank && row.tag == db.nodes[Key(t, n)].tag
  {
    assert NodeOk(db, Key(t, n));
  }

  lemma PassedTagsAgree(db: Sched, db': Sched, t: Id, p: Id, n: Id, m: Id)
    requires SchedOk(db) && Primed(db, t, p) && RowsValid(db, t) && LabelsFit(db, t)
    requires Key(t, n) in db.nodes && PassedRow(db, db', t, p, n) && Key(t, m) in db.nodes && PassedRow(db, db', t, p, m)
    requires db'.nodes[Key(t, n)].rank == db'.nodes[Key(t, m)].rank
    ensures db'.nodes[Key(t, n)].tag == db'.nodes[Key(t, m)].tag
  {
    PassedTag(db, db', t, p, n);
    PassedTag(db, db', t, p, m);
  }

  lemma MisfitIsInvalid(db: Sched, t: Id, p: Id, r: Reply)
    requires SchedOk(db) && Primed(db, t, p) && r.Answered? && r.succeeded && RowsValid(db, t) && !LabelsFit(db, t)
    ensures !NodeRowsValid(DispatchOne(db, t, p, r).db, t)
  {
    var k :| k in db.nodes && k.topic == t && !db.nodes[k].isPriority && IsTerminal(db.nodes[k].status)
             && 1 <= db.nodes[k].rank <= |LiveBusinessNodes(db, t)| && db.nodes[k].tag != PlanTag(db.nodes[k].rank);
    assert Key(t, k.node) == k;
    PassRow(db, t, p, r, k.node);
    var n := RankIsTaken(db, t, p, r, db.nodes[k].rank);
  }

  /**
    The snapshot after a successful pass validates exactly when the labels fit: a finished
    business node at a rank that the plan uses must already carry the plan's label.
   */
  lemma PassValidExactly(db: Sched, t: Id, p: Id, r: Reply)
    requires SchedOk(db) && Primed(db, t, p) && r.Answered? && r.succeeded && RowsValid(db, t)
    ensures RowsValid(DispatchOne(db, t, p, r).db, t) <==> LabelsFit(db, t)
  {
    var db' := DispatchOne(db, t, p, r).db;
    PassRuntime(db, t, p, r);
    if LabelsFit(db, t) {
      PassKeepsPriorityRow(db, t, p, r);
      forall n | Key(t, n) in db.nodes ensures PassedRow(db, db', t, p, n) { PassRow(db, t, p, r, n); }
      PassedRowsValid(db, db', t, p);
    } else {
      MisfitIsInvalid(db, t, p, r);
    }
  }

  /** What a pass over the plan makes of the topic: db before it, db' after it. */
  ghost predicate PassOutcome(db: Sched, db': Sched, t: Id, plan: seq<Assignment>, slots: nat) {
    var allBlocked := forall n | n in LiveBusinessNodes(db, t) :: BlocksDispatch(db.nodes[Key(t, n)].status);
    && t in db'.topics && !db'.topics[t].dirty
    && (plan == [] <==> LiveBusinessNodes(db, t) == {})
    && (ValidSnapshot(BuildTopicSnapshot(db', t)) <==> LabelsFit(db, t))
    && PlannedFor(db', t, slots) == (if LabelsFit(db, t) && !allBlocked && plan != [] then [plan[0].nodeId] else [])
    && (LabelsFit(db, t) ==>
          var next := PlanTopicDispatch(BuildTopicSnapshot(db', t), slots);
          next.Ok? && (next.value.stalled <==> plan != [] && allBlocked))
  }

  /**
    Right after a successful priority pass on a valid topic: if the labels fit, the planner
    dispatches exactly the node the worker ranked first, and stalls exactly when every live
    business node is blocked; if they do not, the topic no longer validates and nothing is planned.
   */
  lemma PriorityPassComposition(db: Sched, t: Id, p: Id, r: Reply, slots: nat)
    requires SchedOk(db) && Primed(db, t, p) && r.Answered? && r.succeeded && slots >= 1
    requires ValidSnapshot(BuildTopicSnapshot(db, t))
    ensures PassOutcome(db, DispatchOne(db, t, p, r).db, t, PassPlan(db, t, p), slots)
  {
    var db' := DispatchOne(db, t, p, r).db;
    var plan := PassPlan(db, t, p);
    ValidIsRows(db, t);
    PassValidExactly(db, t, p, r);
    PassClearsDirty(db, t, p, r);
    ValidIsRows(db', t);
    SameLiveNodes(db, t, p, r);
    assert |plan| == |LiveBusinessNodes(db, t)|;
    if LabelsFit(db, t) {
      PassReranks(db, t, p, r);
      PlanAfterRerank(db', t, p, plan, slots);
      if plan != [] {
        FirstDecides(db, t, p, r, plan);
      }
    }
  }

  lemma PassClearsDirty(db: Sched, t: Id, p: Id, r: Reply)
    requires SchedOk(db) && Primed(db, t, p) && r.Answered? && r.succeeded
    ensures t in DispatchOne(db, t, p, r).db.topics && !DispatchOne(db, t, p, r).db.topics[t].dirty
  {
    PassResult(db, t, p, r);
    FinishedRows(db, t, p, r);
    AssignAllRows(Finished(db, t, p, r), t, PassPlan(db, t, p), r.at);
  }

  lemma FirstKeepsStatus(db: Sched, t: Id, p: Id, r: Reply, n: Id)
    requires SchedOk(db) && Primed(db, t, p) && r.Answered? && r.succeeded && n in LiveBusinessNodes(db, t)
    ensures Key(t, n) in DispatchOne(db, t, p, r).db.nodes && DispatchOne(db, t, p, r).db.nodes[Key(t, n)].status == db.nodes[Key(t, n)].status
  {
    var plan := PassPlan(db, t, p);
    PassResult(db, t, p, r);
    FinishedRows(db, t, p, r);
    AppliedRows(Finished(db, t, p, r), t, p, plan, r.at);
  }

  /** The worker puts blocked nodes last, so a blocked first node means all are blocked. */
  lemma FirstBlockedMeansAll(db: Sched, t: Id, plan: seq<Assignment>)
    requires RanksLiveNodes(db, t, plan) && plan != []
    ensures BlocksDispatch(db.nodes[Key(t, plan[0].nodeId)].status) <==>
      forall n | n in LiveBusinessNodes(db, t) :: BlocksDispatch(db.nodes[Key(t, n)].status)
  {
    if BlocksDispatch(db.nodes[Key(t, plan[0].nodeId)].status) {
      forall n | n in LiveBusinessNodes(db, t) ensures BlocksDispatch(db.nodes[Key(t, n)].status) {
        var i :| 0 <= i < |plan| && plan[i].nodeId == n;
        if i > 0 {
          assert CandidateBefore(CandidateOf(db, t, plan[0].nodeId), CandidateOf(db, t, plan[i].nodeId));
        }
      }
    }
  }

  lemma NoLiveNodes(db: Sched, t: Id, p: Id, plan: seq<Assignment>, slots: nat)
    requires Reranked(db, t, p, plan) && plan == [] && ValidSnapshot(BuildTopicSnapshot(db, t))
    ensures PlanTopicDispatch(BuildTopicSnapshot(db, t), slots).Ok? && PlanTopicDispatch(BuildTopicSnapshot(db, t), slots).value.dispatch == []
    ensures !PlanTopicDispatch(BuildTopicSnapshot(db, t), slots).value.stalled
  {
    var s := BuildTopicSnapshot(db, t);
    forall i | 0 <= i < |s.nodes| ensures !NonTerminal(s.nodes[i]) {
      SnapshotNode(db, t, i);
      assert s.nodes[i].nodeId !in LiveBusinessNodes(db, t);
    }
    NothingDispatchable(s, slots);
    StalledExactly(s, slots);
  }

  // Enqueueing after a pass --------------------------------------------------------------

  /** Which label the rank query of an enqueue saw decides; without another row it is accepted. */
  lemma EnqueueByProbe(db: Sched, request: EnqueueRequest, arrival: Arrival)
    ensures var others := OthersAtRank(db, request.topicId, request.nodeId, BUSINESS_RANK); var accepted := Enqueue(db, request, arrival).1.Ok?;
      && (others == {} ==> (accepted <==> NormalizeBusiness(request).Ok?))
      && (arrival.probe in others ==>
            (accepted <==> NormalizeBusiness(request).Ok? && db.nodes[Key(request.topicId, arrival.probe)].tag == BUSINESS_TAG))
  {
    var n := NormalizeBusiness(request);
    if n.Ok? {
      assert n.value.priority == Priority(BUSINESS_TAG, BUSINESS_RANK) && n.value.topicId == request.topicId && n.value.nodeId == request.nodeId;
      assert OthersAtRank(EnsureTopic(db, request.topicId), request.topicId, request.nodeId, BUSINESS_RANK)
          == OthersAtRank(db, request.topicId, request.nodeId, BUSINESS_RANK);
    }
  }

  lemma NowIsNotInteractive()
    ensures PlanTag(BUSINESS_RANK) != BUSINESS_TAG
  {
    assert |PlanTag(BUSINESS_RANK)| == 3 && |BUSINESS_TAG| == 11;
  }

  /** Where rank 1 is labelled by a plan, an enqueue needs rank 1 to itself. */
  lemma EnqueueWhereRankOneIsNow(db: Sched, t: Id, first: Id, request: EnqueueRequest, arrival: Arrival)
    requires RowsValid(db, t) && request.topicId == t
    requires Key(t, first) in db.nodes && db.nodes[Key(t, first)].rank == 1 && db.nodes[Key(t, first)].tag == PlanTag(1)
    ensures Enqueue(db, request, arrival).1.Ok? <==> NormalizeBusiness(request).Ok? && OthersAtRank(db, t, request.nodeId, BUSINESS_RANK) == {}
    ensures request.nodeId != first ==> Enqueue(db, request, arrival).1.Err?
  {
    var others := OthersAtRank(db, t, request.nodeId, BUSINESS_RANK);
    forall o | o in others ensures Key(t, o) in db.nodes && db.nodes[Key(t, o)].tag == PlanTag(1) {
    }
    NowIsNotInteractive();
    if others != {} {
      NowIsNotAccepted(db, request, arrival);
    } else {
      EnqueueByProbe(db, request, arrival);
    }
    if request.nodeId != first {
      assert first in others;
    }
  }

  lemma NowIsNotAccepted(db: Sched, request: EnqueueRequest, arrival: Arrival)
    requires OthersAtRank(db, request.topicId, request.nodeId, BUSINESS_RANK) != {}
    requires forall o | o in OthersAtRank(db, request.topicId, request.nodeId, BUSINESS_RANK) ::
      Key(request.topicId, o) in db.nodes && db.nodes[Key(request.topicId, o)].tag != BUSINESS_TAG
    ensures Enqueue(db, request, arrival).1.Err?
  {
    var n := NormalizeBusiness(request);
    if n.Ok? {
      var ensured := EnsureTopic(db, request.topicId);
      assert OthersAtRank(ensured, request.topicId, request.nodeId, BUSINESS_RANK)
          == OthersAtRank(db, request.topicId, request.nodeId, BUSINESS_RANK);
      assert !LabelAccepted(ensured, n.value.topicId, n.value.nodeId, n.value.priority, arrival.probe);
    }
  }

  /**
    Enqueue fixes rank 1 to the label "interactive", but a pass gives rank 1 the label "now".
    So after a pass an enqueue is decided by the label of the row its rank query sees; where the
    labels fit it is accepted exactly when no other node holds rank 1, and every node but the one
    ranked first is refused.
   */
  lemma EnqueueAfterPass(db: Sched, t: Id, p: Id, r: Reply, request: EnqueueRequest, arrival: Arrival)
    requires SchedOk(db) && Primed(db, t, p) && r.Answered? && r.succeeded && request.topicId == t
    requires ValidSnapshot(BuildTopicSnapshot(db, t)) && LiveBusinessNodes(db, t) != {}
    ensures var db' := DispatchOne(db, t, p, r).db;
      var plan := PassPlan(db, t, p);
      var others := OthersAtRank(db', t, request.nodeId, BUSINESS_RANK);
      var accepted := Enqueue(db', request, arrival).1.Ok?;
      && plan != [] && (request.nodeId != plan[0].nodeId ==> plan[0].nodeId in others)
      && (others == {} ==> (accepted <==> NormalizeBusiness(request).Ok?))
      && (arrival.probe in others ==> (accepted <==> NormalizeBusiness(request).Ok? && db'.nodes[Key(t, arrival.probe)].tag == BUSINESS_TAG))
      && (arrival.probe == plan[0].nodeId != request.nodeId ==> !accepted)
      && (LabelsFit(db, t) ==> (accepted <==> NormalizeBusiness(request).Ok? && others == {}))
      && (LabelsFit(db, t) && request.nodeId != plan[0].nodeId ==> !accepted)
  {
    var db' := DispatchOne(db, t, p, r).db;
    ValidIsRows(db, t);
    FirstIsAtRankOne(db, t, p, r);
    EnqueueByProbe(db', request, arrival);
    NowIsNotInteractive();
    if LabelsFit(db, t) {
      PassValidExactly(db, t, p, r);
      EnqueueWhereRankOneIsNow(db', t, PassPlan(db, t, p)[0].nodeId, request, arrival);
    }
  }

  lemma FirstIsAtRankOne(db: Sched, t: Id, p: Id, r: Reply)
    requires SchedOk(db) && Primed(db, t, p) && r.Answered? && r.succeeded && RowsValid(db, t) && LiveBusinessNodes(db, t) != {}
    ensures PassPlan(db, t, p) != []
    ensures var nodes := DispatchOne(db, t, p, r).db.nodes; var k := Key(t, PassPlan(db, t, p)[0].nodeId);
      k in nodes && nodes[k].rank == BUSINESS_RANK && nodes[k].tag == PlanTag(BUSINESS_RANK)
  {
    SameLiveNodes(db, t, p, r);
    assert |PassPlan(db, t, p)| == |LiveBusinessNodes(db, t)|;
    PassRanks(db, t, p, r, 0);
  }
}
