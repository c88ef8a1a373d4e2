/**
  What enqueues, aging and service write, which topic a tick selects, and in which order the
  worker ranks, with every level, label and status spelled out.
 */
module ScheduleWrites {
  import opened Prelude
  import opened Sorting
  import opened ScheduleTypes
  import opened ScheduleModel
  import opened ScheduleInvariants
  import opened ScheduleTheorems
  import opened SchedulePriority
  import opened ScheduleGate

  // Enqueue --------------------------------------------------------------------------------

  /** A request is in order when it names topic and node, and asks for no priority or for the fixed one. */
  lemma RequestInOrder(r: EnqueueRequest)
    ensures NormalizeBusiness(r).Ok? <==> r.topicId != "" && r.nodeId != "" && (r.priority.tag == "" || r.priority == Priority("interactive", 1))
    ensures NormalizeBusiness(r).Ok? ==>
      NormalizeBusiness(r).value == EnqueueRequest(r.topicId, r.nodeId, if r.nodeName == "" then r.nodeId else r.nodeName, Priority("interactive", 1))
  {
  }

  /** An accepted enqueue stores a ready node at rank 1 and marks the topic, and writes nothing else. */
  lemma EnqueueWrites(db: Sched, r: EnqueueRequest, arrival: Arrival)
    requires Enqueue(db, r, arrival).1.Ok?
    ensures var db' := Enqueue(db, r, arrival).0; var k := Key(r.topicId, r.nodeId);
      && k in db'.nodes && r.topicId in db'.topics
      && (Enqueue(db, r, arrival).1 == Ok(true) <==> k !in db.nodes)
      && db'.nodes[k] == NodeRow(if r.nodeName == "" then r.nodeId else r.nodeName, k in db.nodes && db.nodes[k].isPriority, "interactive", 1,
                                 Ready, arrival.now, if k in db.nodes then db.nodes[k].lastWorkedAt else None)
      && db'.topics[r.topicId] == (if r.topicId in db.topics then db.topics[r.topicId].(dirty := true)
                                   else TopicRow(L0, true, None, 0, None, None, None, None, 0, {}))
      && (forall other | other in db.nodes && other != k :: other in db'.nodes && db'.nodes[other] == db.nodes[other])
      && (forall t | t in db.topics && t != r.topicId :: t in db'.topics && db'.topics[t] == db.topics[t])
  {
    RequestInOrder(r);
  }

  // Aging and service ----------------------------------------------------------------------

  function Number(l: Level): int {
    match l case L0 => 0 case L1 => 1 case L2 => 2 case L3 => 3
  }

  /** The level and service time of a topic after aging: one level up, at most to the top, when it waited long enough. */
  ghost predicate AgedRow(before: TopicRow, after: TopicRow, now: int, threshold: int) {
    && after == before.(level := after.level)
    && Number(after.level) ==
       (if threshold > 0 && before.lastServedAt.Some? && now >= before.lastServedAt.value + threshold && Number(before.level) > 0
        then Number(before.level) - 1 else Number(before.level))
  }

  lemma AgingWrites(db: Sched, now: int, threshold: int)
    ensures var aged := PromoteAgedTopics(db, now, threshold);
      && aged.nodes == db.nodes && aged.topics.Keys == db.topics.Keys
      && (forall t | t in db.topics :: AgedRow(db.topics[t], aged.topics[t], now, threshold))
  {
  }

  /** Some node of the topic is neither over nor held up. */
  ghost predicate HasWork(db: Sched, t: Id) {
    exists n :: Key(t, n) in db.nodes && db.nodes[Key(t, n)].status !in
      {Succeeded, Failed, Cancelled, Blocked, RetryCooldown, WaitingExternal}
  }

  lemma HasWorkIsRunnable(db: Sched, t: Id)
    ensures HasWork(db, t) <==> HasRunnable(db, t)
  {
    if HasWork(db, t) {
      var n :| Key(t, n) in db.nodes && db.nodes[Key(t, n)].status !in {Succeeded, Failed, Cancelled, Blocked, RetryCooldown, WaitingExternal};
      assert !IsTerminal(db.nodes[Key(t, n)].status) && !BlocksDispatch(db.nodes[Key(t, n)].status);
    }
  }

  /** Service stamps the topic, and moves it one level down, at most to the bottom, if there is more to do. */
  ghost predicate ServedRow(before: TopicRow, after: TopicRow, more: bool, at: int) {
    && after.lastServedAt == Some(at)
    && Number(after.level) == if more && Number(before.level) < 3 then Number(before.level) + 1 else Number(before.level)
  }

  lemma ServeWrites(db: Sched, t: Id, at: int)
    requires t in db.topics
    ensures ServedRow(db.topics[t], Serve(db, t, HasRunnable(db, t), at).topics[t], HasWork(Serve(db, t, HasRunnable(db, t), at), t), at)
  {
    var db' := Serve(db, t, HasRunnable(db, t), at);
    HasWorkIsRunnable(db', t);
    HasWorkIsRunnable(db, t);
    assert HasRunnable(db', t) <==> HasRunnable(db, t);
  }

  // Levels through a tick --------------------------------------------------------------------

  ghost predicate SameLevel(db: Sched, db': Sched, t: Id) {
    && t in db.topics && t in db'.topics
    && db'.topics[t].level == db.topics[t].level && db'.topics[t].lastServedAt == db.topics[t].lastServedAt
  }

  lemma FinishKeepsLevel(db: Sched, t: Id, n: Id, status: NodeStatus, at: int)
    requires t in db.topics
    ensures SameLevel(db, MarkNodeRunning(db, t, n), t) && SameLevel(db, MarkNodeFinished(db, t, n, status, at), t)
  {
  }

  lemma PlanKeepsLevel(db: Sched, t: Id, plan: seq<Assignment>, at: int, error: string)
    requires t in db.topics
    ensures SameLevel(db, ApplyPriorityPlan(db, t, plan, at), t) && SameLevel(db, ClearPriorityDirty(db, t, error), t)
  {
    AssignAllRows(db, t, plan, at);
  }

  lemma DispatchKeepsLevel(db: Sched, t: Id, n: Id, r: Reply)
    requires t in db.topics
    ensures SameLevel(db, DispatchOne(db, t, n, r).db, t)
  {
    if Key(t, n) in db.nodes {
      var isPriority := db.nodes[Key(t, n)].isPriority;
      var running := MarkNodeRunning(db, t, n);
      FinishKeepsLevel(db, t, n, Failed, 0);
      if !r.SessionFailed? {
        var status := if r.WorkerFailed? then Failed else ResolveNodeStatus(isPriority, r);
        FinishKeepsLevel(running, t, n, status, r.at);
        if r.Answered? {
          PlanKeepsLevel(MarkNodeFinished(running, t, n, status, r.at), t, BuildPriorityPlan(LoadPriorityCandidates(running, t)), r.at, PassError(r.error));
        }
      }
    }
  }

  lemma {:induction false} DispatchAllKeepsLevel(db: Sched, t: Id, ids: seq<Id>, replies: nat -> Reply)
    requires t in db.topics
    ensures SameLevel(db, DispatchAll(db, t, ids, replies).db, t)
    decreases |ids|
  {
    if ids != [] {
      DispatchAllKeepsLevel(db, t, ids[..|ids| - 1], replies);
      var before := DispatchAll(db, t, ids[..|ids| - 1], replies);
      DispatchKeepsLevel(before.db, t, ids[|ids| - 1], replies(|ids| - 1));
    }
  }

  lemma WorkLevels(db: Sched, t: Id, input: TickInput)
    requires t in db.topics && input.limit > 0
    ensures var r := Work(db, t, input);
      && t in r.db.topics
      && (if r.served then ServedRow(db.topics[t], r.db.topics[t], HasWork(r.db, t), input.servedAt) else SameLevel(db, r.db, t))
  {
    var planned := PlannedFor(db, t, input.limit);
    var d := DispatchAll(db, t, planned, input.replies).db;
    DispatchAllKeepsLevel(db, t, planned, input.replies);
    ServeWrites(d, t, input.servedAt);
  }

  lemma PrepareKeepsLevel(db: Sched, t: Id, input: TickInput)
    requires t in db.topics && Prepare(db, t, input).Some?
    ensures SameLevel(db, Prepare(db, t, input).value, t)
  {
  }

  /** The levels and service times after a tick: aging for all; on top of it, service for the topic that was served. */
  ghost predicate LevelsAfter(db: Sched, input: TickInput, r: Ticked) {
    var aged := PromoteAgedTopics(db, input.promoteAt, input.agingThreshold);
    && r.db.topics.Keys == db.topics.Keys
    && (forall x | x in db.topics :: AgedRow(db.topics[x], aged.topics[x], input.promoteAt, input.agingThreshold))
    && (forall x | x in db.topics && !(r.served && r.selected == Some(x)) :: SameLevel(aged, r.db, x))
    && (r.served ==> r.selected.Some? && r.selected.value in db.topics
                     && ServedRow(aged.topics[r.selected.value], r.db.topics[r.selected.value], HasWork(r.db, r.selected.value), input.servedAt))
  }

  lemma LevelsByTopic(aged: Sched, at: Sched, db': Sched, t: Id, x: Id)
    requires OnlyTopic(aged, at, t) && OnlyTopic(at, db', t) && x != t && x in aged.topics
    ensures SameLevel(aged, db', x)
  {
  }

  lemma SameLevelTransitive(a: Sched, b: Sched, c: Sched, t: Id)
    requires SameLevel(a, b, t) && SameLevel(b, c, t)
    ensures SameLevel(a, c, t)
  {
  }

  lemma LevelsFromParts(db: Sched, input: TickInput, aged: Sched, at: Sched, t: Id, r: Ticked)
    requires aged == PromoteAgedTopics(db, input.promoteAt, input.agingThreshold) && t in aged.topics && r.selected == Some(t)
    requires OnlyTopic(aged, at, t) && OnlyTopic(at, r.db, t) && SameLevel(aged, at, t) && t in r.db.topics
    requires if r.served then ServedRow(at.topics[t], r.db.topics[t], HasWork(r.db, t), input.servedAt) else SameLevel(at, r.db, t)
    ensures LevelsAfter(db, input, r)
  {
    AgingWrites(db, input.promoteAt, input.agingThreshold);
    forall x | x in aged.topics && x != t ensures SameLevel(aged, r.db, x) {
      LevelsByTopic(aged, at, r.db, t, x);
    }
    if !r.served {
      SameLevelTransitive(aged, at, r.db, t);
    }
  }

  lemma TickLevels(db: Sched, input: TickInput)
    requires SchedOk(db) && input.limit > 0
    ensures LevelsAfter(db, input, Tick(db, input))
  {
    var aged, prepared := TickShape(db, input);
    var selected := Tick(db, input).selected;
    if selected.Some? && prepared.Some? {
      WorkKeepsOk(prepared.value, selected.value, input);
      PrepareKeepsLevel(aged, selected.value, input);
      WorkLevels(prepared.value, selected.value, input);
      LevelsFromParts(db, input, aged, prepared.value, selected.value, Tick(db, input));
    } else {
      AgingWrites(db, input.promoteAt, input.agingThreshold);
    }
  }

  // Selection ------------------------------------------------------------------------------

  /** a comes before b: higher level; then never or longer ago served; then by id. */
  ghost predicate ComesFirst(a: Id, x: TopicRow, b: Id, y: TopicRow) {
    || Number(x.level) < Number(y.level)
    || (x.level == y.level && x.lastServedAt.None? && y.lastServedAt.Some?)
    || (x.level == y.level && x.lastServedAt.Some? && y.lastServedAt.Some? && x.lastServedAt.value < y.lastServedAt.value)
    || (x.level == y.level && x.lastServedAt == y.lastServedAt && StrLess(a, b))
  }

  /** A tick selects, after aging, the topic with work that comes before all others with work. */
  lemma SelectedComesFirst(db: Sched, t: Id)
    ensures SelectTopic(db) == Some(t) <==>
      && t in db.topics && HasWork(db, t)
      && forall other | other in db.topics && HasWork(db, other) && other != t :: ComesFirst(t, db.topics[t], other, db.topics[other])
  {
    forall x ensures HasWork(db, x) <==> HasRunnable(db, x) { HasWorkIsRunnable(db, x); }
    assert Selected(db, t) <==>
      && t in db.topics && HasWork(db, t)
      && forall other | other in db.topics && HasWork(db, other) && other != t :: ComesFirst(t, db.topics[t], other, db.topics[other]);
    if Selected(db, t) {
      SelectionUnique(db, t, SelectTopic(db).value);
    }
  }

  // The priority node and the worker's order ---------------------------------------------------

  /** Before a pass the priority node is ready, named, labelled and at rank 0. */
  lemma PriorityRowPrepared(db: Sched, input: TickInput, t: Id)
    requires SchedOk(db) && IsDirty(db, t) && PreparedFor(db, input, t).Some?
    ensures var at := PreparedFor(db, input, t).value;
      && t in at.topics && at.topics[t].priorityNodeId.Some?
      && var p := at.topics[t].priorityNodeId.value;
         && (db.topics[t].priorityNodeId == Some(p) || (db.topics[t].priorityNodeId.None? && input.vosPriorityId == Some(p)))
         && Key(t, p) in at.nodes && at.nodes[Key(t, p)].isPriority && at.nodes[Key(t, p)].tag == "priority" && at.nodes[Key(t, p)].rank == 0
         && at.nodes[Key(t, p)].status == Ready && at.nodes[Key(t, p)].enteredAt == input.readyAt
         && (db.topics[t].priorityNodeId.None? ==> at.nodes[Key(t, p)].name == "__priority__")
  {
    assert TopicOk(db, t);
    var aged := PromoteAgedTopics(db, input.promoteAt, input.agingThreshold);
    AgedStaysDirty(db, input, t);
    PromoteKeepsOk(db, input.promoteAt, input.agingThreshold);
    assert TopicOk(aged, t);
  }

  predicate Held(s: NodeStatus) {
    s == Blocked || s == RetryCooldown || s == WaitingExternal
  }

  predicate Under(s: NodeStatus) {
    s == Ready || s == Running
  }

  /** The worker's order of nodes that are not over: ready and running first, held ones last; then rank, age and id. */
  ghost predicate WorkerFirst(n: Id, x: NodeRow, m: Id, y: NodeRow) {
    || (Under(x.status) && !Under(y.status))
    || (!Held(x.status) && Held(y.status))
    || ((Under(x.status) <==> Under(y.status)) && (Held(x.status) <==> Held(y.status)) &&
        (|| x.rank < y.rank
         || (x.rank == y.rank && x.enteredAt < y.enteredAt)
         || (x.rank == y.rank && x.enteredAt == y.enteredAt && StrLess(n, m))))
  }

  /** The worker ranks each live business node once, from 1, by that order; two get "now", the rest "next". */
  ghost predicate RowsInWorkerOrder(db: Sched, t: Id, n: Id, m: Id) {
    && Key(t, n) in db.nodes && Key(t, m) in db.nodes
    && WorkerFirst(n, db.nodes[Key(t, n)], m, db.nodes[Key(t, m)])
  }

  lemma WorkerRanks(db: Sched, t: Id, plan: seq<Assignment>)
    requires RanksLiveNodes(db, t, plan)
    ensures forall i | 0 <= i < |plan| :: plan[i].rank == i + 1 && plan[i].tag == if i == 0 || i == 1 then "now" else "next"
    ensures forall i, j | 0 <= i < j < |plan| :: RowsInWorkerOrder(db, t, plan[i].nodeId, plan[j].nodeId)
  {
    forall i, j | 0 <= i < j < |plan| ensures RowsInWorkerOrder(db, t, plan[i].nodeId, plan[j].nodeId) {
      assert plan[i].nodeId in LiveBusinessNodes(db, t) && plan[j].nodeId in LiveBusinessNodes(db, t);
      assert CandidateBefore(CandidateOf(db, t, plan[i].nodeId), CandidateOf(db, t, plan[j].nodeId));
    }
  }
}
