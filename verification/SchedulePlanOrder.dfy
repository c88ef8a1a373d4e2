/**
  In which order a plan takes the nodes of the top layer: the current node, else the last worked
  one, else the oldest; then the others, oldest first, as far as the slots go.
 */
module SchedulePlanOrder {
  import opened Prelude
  import opened Sorting
  import opened ScheduleTypes
  import opened SchedulePlanner
  import opened SchedulePlanTheorems
  import opened ScheduleModel
  import opened ScheduleTheorems
  import opened ScheduleRows

  // What the plan is about -----------------------------------------------------------------

  predicate IsOver(s: NodeStatus) {
    s == Succeeded || s == Failed || s == Cancelled
  }

  predicate CanStart(s: NodeStatus) {
    s == Pending || s == Ready || s == Running
  }

  /** Node i could be started, and no node that is not over has a lower rank. */
  ghost predicate IsCandidate(s: TopicSnapshot, i: nat) {
    && i < |s.nodes| && CanStart(s.nodes[i].status)
    && (forall j | 0 <= j < |s.nodes| && !IsOver(s.nodes[j].status) :: s.nodes[i].priority.rank <= s.nodes[j].priority.rank)
  }

  ghost predicate IsCandidateId(s: TopicSnapshot, id: Id) {
    exists i: nat :: IsCandidate(s, i) && s.nodes[i].nodeId == id
  }

  predicate Older(a: TopicNode, b: TopicNode) {
    a.enteredAt < b.enteredAt || (a.enteredAt == b.enteredAt && StrLess(a.nodeId, b.nodeId))
  }

  /** The ids are those of the candidates, and earlier ones entered their priority earlier. */
  ghost predicate ListsByAge(s: TopicSnapshot, ids: seq<Id>) {
    && (forall id :: id in ids <==> IsCandidateId(s, id))
    && (forall a, b, i, j | 0 <= a < b < |ids| && 0 <= i < |s.nodes| && 0 <= j < |s.nodes| && s.nodes[i].nodeId == ids[a] && s.nodes[j].nodeId == ids[b] ::
          Older(s.nodes[i], s.nodes[j]))
  }

  lemma CandidateIsUnblockedTop(s: TopicSnapshot, i: nat)
    requires ValidSnapshot(s) && i < |s.nodes|
    ensures IsCandidate(s, i) <==> InTopLayer(s, i) && Unblocked(s.nodes[i])
  {
    forall j | 0 <= j < |s.nodes| ensures !IsOver(s.nodes[j].status) <==> NonTerminal(s.nodes[j]) {
    }
    assert ValidNode(s.nodes[i]);
  }

  lemma OrderedAreCandidates(s: TopicSnapshot, id: Id)
    requires ValidSnapshot(s) && Filter(NonTerminal, s.nodes) != []
    ensures id in Ids(OrderedCandidates(s.nodes)) <==> IsCandidateId(s, id)
  {
    var ordered := OrderedCandidates(s.nodes);
    if id in Ids(ordered) {
      var k :| 0 <= k < |ordered| && Ids(ordered)[k] == id;
      var i := CandidateIsTopLayer(s, ordered[k]);
      CandidateIsUnblockedTop(s, i);
    }
    if IsCandidateId(s, id) {
      var i: nat :| IsCandidate(s, i) && s.nodes[i].nodeId == id;
      CandidateIsUnblockedTop(s, i);
      TopLayerIsCandidate(s, i);
      InIds(ordered, s.nodes[i]);
    }
  }

  lemma SortedByAge(s: TopicSnapshot)
    requires ValidSnapshot(s) && Filter(NonTerminal, s.nodes) != []
    ensures SortedBy(NodeBefore, OrderedCandidates(s.nodes))
    ensures forall k | 0 <= k < |OrderedCandidates(s.nodes)| :: OrderedCandidates(s.nodes)[k] in s.nodes
  {
    var candidates := Filter(Unblocked, ActiveLayer(s.nodes));
    CandidatesDistinct(s.nodes);
    NodeBeforeIsStrictOrder();
    DistinctNodesTotal(candidates);
    SortSorts(NodeBefore, candidates);
    forall k | 0 <= k < |OrderedCandidates(s.nodes)| ensures OrderedCandidates(s.nodes)[k] in s.nodes {
      var i := CandidateIsTopLayer(s, OrderedCandidates(s.nodes)[k]);
    }
  }

  lemma SameNode(s: TopicSnapshot, n: TopicNode, i: nat)
    requires DistinctNodes(s.nodes) && n in s.nodes && i < |s.nodes| && s.nodes[i].nodeId == n.nodeId
    ensures s.nodes[i] == n
  {
    var j :| 0 <= j < |s.nodes| && s.nodes[j] == n;
    assert i == j;
  }

  lemma CandidatesByAge(s: TopicSnapshot)
    requires ValidSnapshot(s) && Filter(NonTerminal, s.nodes) != []
    ensures ListsByAge(s, Ids(OrderedCandidates(s.nodes)))
  {
    var ordered := OrderedCandidates(s.nodes);
    var ids := Ids(ordered);
    forall id ensures id in ids <==> IsCandidateId(s, id) { OrderedAreCandidates(s, id); }
    SortedByAge(s);
    forall a, b, i, j | 0 <= a < b < |ids| && 0 <= i < |s.nodes| && 0 <= j < |s.nodes| && s.nodes[i].nodeId == ids[a] && s.nodes[j].nodeId == ids[b]
      ensures Older(s.nodes[i], s.nodes[j])
    {
      SameNode(s, ordered[a], i);
      SameNode(s, ordered[b], j);
      assert NodeBefore(ordered[a], ordered[b]);
    }
  }

  lemma NoCandidatesWithoutLive(s: TopicSnapshot)
    requires ValidSnapshot(s) && Filter(NonTerminal, s.nodes) == []
    ensures ListsByAge(s, [])
  {
    NoneLive(s);
    forall id ensures !IsCandidateId(s, id) {
      forall i: nat ensures !IsCandidate(s, i) {
        if i < |s.nodes| { assert !NonTerminal(s.nodes[i]); }
      }
    }
  }

  // Filling the slots ------------------------------------------------------------------------

  /** The ids that are neither the current one nor running, in their order. */
  function FreeIds(ids: seq<Id>, current: Id, running: seq<Id>): seq<Id> {
    if ids == [] then []
    else (if ids[0] == current || ids[0] in running then [] else [ids[0]]) + FreeIds(ids[1..], current, running)
  }

  lemma {:induction false} FillTakesPrefix(taken: seq<Id>, ids: seq<Id>, current: Id, running: seq<Id>, slots: nat)
    requires |taken| <= slots
    ensures var free := FreeIds(ids, current, running); var room := slots - |taken|;
      FillSlots(taken, ids, current, running, slots) == taken + free[..if room < |free| then room else |free|]
    decreases |ids|
  {
    var free, room := FreeIds(ids, current, running), slots - |taken|;
    if ids == [] || room == 0 {
      assert taken + free[..if room < |free| then room else |free|] == taken;
    } else if ids[0] == current || ids[0] in running {
      FillTakesPrefix(taken, ids[1..], current, running, slots);
    } else {
      FillTakesPrefix(taken + [ids[0]], ids[1..], current, running, slots);
      assert free == [ids[0]] + free[1..] && free[1..] == FreeIds(ids[1..], current, running);
    }
  }

  lemma {:induction false} FreeMembers(ids: seq<Id>, current: Id, running: seq<Id>, id: Id)
    ensures id in FreeIds(ids, current, running) <==> id in ids && id != current && id !in running
  {
    if ids != [] {
      assert ids == [ids[0]] + ids[1..];
      FreeMembers(ids[1..], current, running, id);
    }
  }

  /** Later in the free ids is later in the ids. */
  lemma {:induction false} FreeInOrder(ids: seq<Id>, current: Id, running: seq<Id>, a: nat, b: nat) returns (x: nat, y: nat)
    requires a < b < |FreeIds(ids, current, running)|
    ensures x < y < |ids| && ids[x] == FreeIds(ids, current, running)[a] && ids[y] == FreeIds(ids, current, running)[b]
  {
    var skip := ids[0] == current || ids[0] in running;
    var rest := FreeIds(ids[1..], current, running);
    if skip {
      x, y := FreeInOrder(ids[1..], current, running, a, b);
      x, y := x + 1, y + 1;
    } else if a > 0 {
      x, y := FreeInOrder(ids[1..], current, running, a - 1, b - 1);
      x, y := x + 1, y + 1;
    } else {
      FreeMembers(ids[1..], current, running, rest[b - 1]);
      assert rest[b - 1] in rest;
      x := 0;
      y :| 0 <= y < |ids[1..]| && ids[1..][y] == rest[b - 1];
      y := y + 1;
    }
  }

  // The theorem ------------------------------------------------------------------------------

  /** Continuation first: the current node, else the last worked one, else the oldest candidate. */
  ghost predicate CurrentRule(s: TopicSnapshot, candidates: seq<Id>, current: Option<Id>) {
    if s.runtime.currentNodeId.Some? && IsCandidateId(s, s.runtime.currentNodeId.value) then current == s.runtime.currentNodeId
    else if s.runtime.lastWorkedNodeId.Some? && IsCandidateId(s, s.runtime.lastWorkedNodeId.value) then current == s.runtime.lastWorkedNodeId
    else current == if candidates == [] then None else Some(candidates[0])
  }

  /** The ids in rest come in the order of the candidates, and none before them was passed over. */
  ghost predicate TakesInOrder(candidates: seq<Id>, current: Id, running: seq<Id>, rest: seq<Id>) {
    && (forall id | id in rest :: id in candidates && id != current && id !in running)
    && (forall a, b | 0 <= a < b < |rest| :: exists x, y :: 0 <= x < y < |candidates| && candidates[x] == rest[a] && candidates[y] == rest[b])
    && (forall id, a | id in candidates && id != current && id !in running && id !in rest && 0 <= a < |rest| ::
          exists x, y :: 0 <= x < y < |candidates| && candidates[x] == rest[a] && candidates[y] == id)
  }

  lemma PrefixTakesInOrder(candidates: seq<Id>, current: Id, running: seq<Id>, m: nat)
    requires m <= |FreeIds(candidates, current, running)|
    ensures TakesInOrder(candidates, current, running, FreeIds(candidates, current, running)[..m])
  {
    var free := FreeIds(candidates, current, running);
    var rest := free[..m];
    forall id | id in rest ensures id in candidates && id != current && id !in running {
      assert id in free;
      FreeMembers(candidates, current, running, id);
    }
    forall a, b | 0 <= a < b < |rest| ensures exists x, y :: 0 <= x < y < |candidates| && candidates[x] == rest[a] && candidates[y] == rest[b] {
      var x, y := FreeInOrder(candidates, current, running, a, b);
    }
    forall id, a | id in candidates && id != current && id !in running && id !in rest && 0 <= a < |rest|
      ensures exists x, y :: 0 <= x < y < |candidates| && candidates[x] == rest[a] && candidates[y] == id
    {
      FreeMembers(candidates, current, running, id);
      var b :| 0 <= b < |free| && free[b] == id;
      assert forall c | 0 <= c < m :: free[c] == rest[c] && rest[c] in rest;
      assert b >= m;
      var x, y := FreeInOrder(candidates, current, running, a, b);
    }
  }

  /** The dispatch list: the current node unless it is running, then the others by age. */
  ghost predicate DispatchesByAge(candidates: seq<Id>, current: Id, running: seq<Id>, slots: nat, dispatch: seq<Id>) {
    if slots > 0 && current !in running
    then dispatch != [] && dispatch[0] == current && TakesInOrder(candidates, current, running, dispatch[1..])
    else TakesInOrder(candidates, current, running, dispatch)
  }

  lemma DispatchInOrder(candidates: seq<Id>, current: Id, running: seq<Id>, slots: nat)
    ensures DispatchesByAge(candidates, current, running, slots, DispatchIds(candidates, current, running, slots))
  {
    var first := if slots > 0 && current !in running then [current] else [];
    var free, room := FreeIds(candidates, current, running), slots - |first|;
    var m := if room < |free| then room else |free|;
    FillTakesPrefix(first, candidates, current, running, slots);
    PrefixTakesInOrder(candidates, current, running, m);
    var d := DispatchIds(candidates, current, running, slots);
    assert d == first + free[..m];
    assert slots > 0 && current !in running ==> d[1..] == free[..m];
    assert !(slots > 0 && current !in running) ==> d == free[..m];
  }

  lemma CurrentFollowsRule(s: TopicSnapshot)
    requires ValidSnapshot(s) && Filter(NonTerminal, s.nodes) != []
    ensures CurrentRule(s, Ids(OrderedCandidates(s.nodes)), ChooseCurrent(OrderedCandidates(s.nodes), s.runtime))
  {
    var ordered := OrderedCandidates(s.nodes);
    forall id ensures id in NodeIds(ordered) <==> IsCandidateId(s, id) {
      OrderedAreCandidates(s, id);
      if id in NodeIds(ordered) {
        var k :| 0 <= k < |ordered| && ordered[k].nodeId == id;
        assert Ids(ordered)[k] == id;
      }
      if id in Ids(ordered) {
        var k :| 0 <= k < |ordered| && Ids(ordered)[k] == id;
        assert ordered[k].nodeId == id;
      }
    }
  }

  /** What a plan says, stated on the nodes of the snapshot. */
  ghost predicate PlansByAge(s: TopicSnapshot, slots: nat, plan: DispatchPlan) {
    && ListsByAge(s, plan.activeCandidates)
    && CurrentRule(s, plan.activeCandidates, plan.currentNodeId)
    && (plan.currentNodeId.None? ==> plan.dispatch == [])
    && (plan.currentNodeId.Some? ==>
          DispatchesByAge(plan.activeCandidates, plan.currentNodeId.value, s.runtime.runningNodeIds, slots, plan.dispatch))
  }

  lemma LivePlanByAge(s: TopicSnapshot, slots: nat)
    requires ValidSnapshot(s) && Filter(NonTerminal, s.nodes) != []
    ensures PlanTopicDispatch(s, slots).Ok? && PlansByAge(s, slots, PlanTopicDispatch(s, slots).value)
  {
    var ordered := OrderedCandidates(s.nodes);
    CandidatesByAge(s);
    CurrentFollowsRule(s);
    if ordered != [] {
      CurrentIsCandidate(ordered, s.runtime);
      DispatchInOrder(Ids(ordered), ChooseCurrent(ordered, s.runtime).value, s.runtime.runningNodeIds, slots);
    } else {
      assert Ids(ordered) == [];
    }
  }

  /**
    The candidates are the nodes that can start at the lowest rank of those not over, oldest first;
    the current node follows the continuation rule; the dispatch starts with it unless it is
    running, and goes on by age, so no candidate is left out while a younger one is taken.
   */
  lemma PlanByAge(s: TopicSnapshot, slots: nat)
    requires ValidSnapshot(s)
    ensures PlanTopicDispatch(s, slots).Ok? && PlansByAge(s, slots, PlanTopicDispatch(s, slots).value)
  {
    if Filter(NonTerminal, s.nodes) == [] {
      NoCandidatesWithoutLive(s);
    } else {
      LivePlanByAge(s, slots);
    }
  }

  lemma TopRank(s: TopicSnapshot, i: nat)
    requires i < |s.nodes| && InTopLayer(s, i)
    ensures Filter(NonTerminal, s.nodes) != [] && s.nodes[i].priority.rank == MinRank(Filter(NonTerminal, s.nodes))
  {
    var live := Filter(NonTerminal, s.nodes);
    assert s.nodes[i] in live;
    var m :| m in live && m.priority.rank == MinRank(live);
    var k :| 0 <= k < |s.nodes| && s.nodes[k] == m;
  }

  /** The plan names the label of the top layer. */
  lemma ActiveLabel(s: TopicSnapshot, slots: nat, i: nat)
    requires ValidSnapshot(s) && i < |s.nodes| && InTopLayer(s, i)
    ensures PlanTopicDispatch(s, slots).Ok? && PlanTopicDispatch(s, slots).value.activePriority == Some(s.nodes[i].priority.tag)
  {
    TopRank(s, i);
    ActiveLayerNonEmpty(s.nodes);
    var first := ActiveLayer(s.nodes)[0];
    assert first in ActiveLayer(s.nodes);
    var j :| 0 <= j < |s.nodes| && s.nodes[j] == first;
    SameRankSameTag(s.nodes, i, j);
  }

  /** The plan explains its choice truthfully: which rule gave the current node, or why there is none. */
  lemma PlanExplains(s: TopicSnapshot, slots: nat)
    requires ValidSnapshot(s)
    ensures PlanTopicDispatch(s, slots).Ok?
    ensures var plan := PlanTopicDispatch(s, slots).value;
      if plan.currentNodeId.None? then plan.reasons == if plan.stalled then [TopLayerHasNothingRunnable, LowerLayersStayBlocked] else [NoLiveNodes]
      else
        && plan.activePriority.Some? && |plan.reasons| == 2 && plan.reasons[0] == ActivePriority(plan.activePriority.value)
        && plan.reasons[1] ==
           if s.runtime.currentNodeId.Some? && IsCandidateId(s, s.runtime.currentNodeId.value) then KeptCurrent
           else if s.runtime.lastWorkedNodeId.Some? && IsCandidateId(s, s.runtime.lastWorkedNodeId.value) then ResetToLastWorked
           else PickedByQueueOrder
  {
    var plan := PlanTopicDispatch(s, slots).value;
    PlanByAge(s, slots);
    if plan.currentNodeId.Some? {
      assert plan.activeCandidates != [];
      assert plan.activeCandidates[0] in plan.activeCandidates;
    }
  }

  // On the rows of the store -------------------------------------------------------------------

  ghost predicate RowOlder(db: Sched, t: Id, n: Id, m: Id)
    requires Key(t, n) in db.nodes && Key(t, m) in db.nodes
  {
    var x, y := db.nodes[Key(t, n)].enteredAt, db.nodes[Key(t, m)].enteredAt;
    x < y || (x == y && StrLess(n, m))
  }

  /** The node that a tick would go on with. */
  ghost predicate Continued(db: Sched, t: Id, n: Id)
    requires t in db.topics
  {
    n != "" && (db.topics[t].currentNodeId == Some(n) || db.topics[t].lastWorkedNodeId == Some(n))
  }

  lemma OlderRows(db: Sched, t: Id, candidates: seq<Id>, n: Id, m: Id)
    requires t in db.topics && ListsByAge(BuildTopicSnapshot(db, t), candidates) && Key(t, n) in db.nodes && Key(t, m) in db.nodes
    requires exists x, y :: 0 <= x < y < |candidates| && candidates[x] == n && candidates[y] == m
    ensures RowOlder(db, t, n, m)
  {
    var i := SnapshotHasNode(db, t, n);
    var j := SnapshotHasNode(db, t, m);
    var x, y :| 0 <= x < y < |candidates| && candidates[x] == n && candidates[y] == m;
    assert Older(BuildTopicSnapshot(db, t).nodes[i], BuildTopicSnapshot(db, t).nodes[j]);
  }

  lemma CanGoIsCandidate(db: Sched, t: Id, n: Id)
    requires RowsValid(db, t)
    ensures CanGo(db, t, n) <==> IsCandidateId(BuildTopicSnapshot(db, t), n) && n !in BuildTopicSnapshot(db, t).runtime.runningNodeIds
  {
    var s := BuildTopicSnapshot(db, t);
    ValidIsRows(db, t);
    DispatchableIsCanGo(db, t, n);
    if CanGo(db, t, n) {
      var i :| 0 <= i < |s.nodes| && InTopLayer(s, i) && Unblocked(s.nodes[i]) && s.nodes[i].nodeId == n;
      CandidateIsUnblockedTop(s, i);
    }
    if IsCandidateId(s, n) && n !in s.runtime.runningNodeIds {
      var i: nat :| IsCandidate(s, i) && s.nodes[i].nodeId == n;
      CandidateIsUnblockedTop(s, i);
    }
  }

  /** The plan of the topic's snapshot, on its rows. */
  ghost predicate TakesOldest(db: Sched, t: Id, ids: seq<Id>)
    requires t in db.topics
  {
    && (forall a, b | 0 <= a < b < |ids| :: CanGo(db, t, ids[a]) && CanGo(db, t, ids[b]) && (RowOlder(db, t, ids[a], ids[b]) || (a == 0 && Continued(db, t, ids[a]))))
    && (forall n, a | CanGo(db, t, n) && n !in ids && 0 <= a < |ids| ::
          CanGo(db, t, ids[a]) && (RowOlder(db, t, ids[a], n) || (a == 0 && Continued(db, t, ids[a]))))
  }

  lemma CurrentIsFirst(db: Sched, t: Id, plan: DispatchPlan, slots: nat)
    requires RowsValid(db, t) && PlansByAge(BuildTopicSnapshot(db, t), slots, plan) && slots > 0
    requires db.topics[t].currentNodeId.Some? && CanGo(db, t, db.topics[t].currentNodeId.value)
    ensures plan.dispatch != [] && plan.dispatch[0] == db.topics[t].currentNodeId.value
  {
    CanGoIsCandidate(db, t, db.topics[t].currentNodeId.value);
    assert RowOk(db.topics[t].currentNodeId.value, db.nodes[Key(t, db.topics[t].currentNodeId.value)]);
  }

  lemma FirstCandidateIsOldest(db: Sched, t: Id, candidates: seq<Id>, m: Id)
    requires t in db.topics && ListsByAge(BuildTopicSnapshot(db, t), candidates) && candidates != [] && m in candidates && m != candidates[0]
    ensures exists x, y :: 0 <= x < y < |candidates| && candidates[x] == candidates[0] && candidates[y] == m
  {
    var y :| 0 <= y < |candidates| && candidates[y] == m;
    assert y > 0;
  }

  /** Where n stands before m among the candidates. */
  ghost predicate Before(candidates: seq<Id>, n: Id, m: Id) {
    exists x, y :: 0 <= x < y < |candidates| && candidates[x] == n && candidates[y] == m
  }

  lemma CurrentIsContinuedOrFirst(db: Sched, t: Id, candidates: seq<Id>, current: Option<Id>)
    requires t in db.topics && CurrentRule(BuildTopicSnapshot(db, t), candidates, current) && current.Some?
    ensures Continued(db, t, current.value) || (candidates != [] && current.value == candidates[0])
  {
  }

  /** One taken node against one that comes later or not at all. */
  lemma TakenBefore(candidates: seq<Id>, current: Id, running: seq<Id>, slots: nat, dispatch: seq<Id>, a: nat, m: Id)
    requires DispatchesByAge(candidates, current, running, slots, dispatch) && a < |dispatch| && NoRepeats(dispatch)
    requires m in candidates && m !in running && m != dispatch[a] && m !in dispatch[..a]
    requires current in running || slots > 0
    ensures Before(candidates, dispatch[a], m) || (a == 0 && dispatch[0] == current)
  {
    var leads := slots > 0 && current !in running;
    var rest := if leads then dispatch[1..] else dispatch;
    if !(leads && a == 0) {
      var i := if leads then a - 1 else a;
      assert rest[i] == dispatch[a];
      if leads { assert dispatch[0] in dispatch[..a]; }
      if m in rest {
        var j :| 0 <= j < |rest| && rest[j] == m;
        assert dispatch[if leads then j + 1 else j] == m;
        assert j > i by { NotEarlier(dispatch, a, m, if leads then j + 1 else j); }
      }
    }
  }

  lemma NotEarlier(dispatch: seq<Id>, a: nat, m: Id, k: nat)
    requires a < |dispatch| && k < |dispatch| && dispatch[k] == m && m != dispatch[a] && m !in dispatch[..a]
    ensures k > a
  {
    assert forall c | 0 <= c < a :: dispatch[c] == dispatch[..a][c] && dispatch[..a][c] in dispatch[..a];
  }

  lemma TakenRow(db: Sched, t: Id, plan: DispatchPlan, slots: nat, a: nat, m: Id)
    requires RowsValid(db, t) && PlansByAge(BuildTopicSnapshot(db, t), slots, plan) && slots > 0 && a < |plan.dispatch| && NoRepeats(plan.dispatch)
    requires CanGo(db, t, m) && CanGo(db, t, plan.dispatch[a]) && m != plan.dispatch[a] && m !in plan.dispatch[..a]
    ensures RowOlder(db, t, plan.dispatch[a], m) || (a == 0 && Continued(db, t, plan.dispatch[a]))
  {
    var s := BuildTopicSnapshot(db, t);
    CanGoIsCandidate(db, t, m);
    CanGoIsCandidate(db, t, plan.dispatch[a]);
    CurrentIsContinuedOrFirst(db, t, plan.activeCandidates, plan.currentNodeId);
    TakenBefore(plan.activeCandidates, plan.currentNodeId.value, s.runtime.runningNodeIds, slots, plan.dispatch, a, m);
    if a == 0 && plan.dispatch[0] == plan.currentNodeId.value {
      if !Continued(db, t, plan.dispatch[0]) {
        FirstCandidateIsOldest(db, t, plan.activeCandidates, m);
        OlderRows(db, t, plan.activeCandidates, plan.dispatch[0], m);
      }
    } else {
      OlderRows(db, t, plan.activeCandidates, plan.dispatch[a], m);
    }
  }

  /**
    What a tick plans on the stored rows: nodes that can go; the current node first if it can; apart
    from a continued first node, the longest in its priority first, and none left out for a younger one.
   */
  lemma TickTakesOldest(db: Sched, t: Id, limit: nat)
    requires RowsValid(db, t) && limit > 0
    ensures TakesOldest(db, t, PlannedFor(db, t, limit))
    ensures db.topics[t].currentNodeId.Some? && CanGo(db, t, db.topics[t].currentNodeId.value) ==>
      PlannedFor(db, t, limit) != [] && PlannedFor(db, t, limit)[0] == db.topics[t].currentNodeId.value
  {
    var s := BuildTopicSnapshot(db, t);
    ValidIsRows(db, t);
    PlanByAge(s, limit);
    PlanExact(s, limit);
    var plan := PlanTopicDispatch(s, limit).value;
    forall a | 0 <= a < |plan.dispatch| ensures CanGo(db, t, plan.dispatch[a]) {
      assert plan.dispatch[a] in plan.dispatch;
      DispatchableIsCanGo(db, t, plan.dispatch[a]);
    }
    forall a, b | 0 <= a < b < |plan.dispatch|
      ensures RowOlder(db, t, plan.dispatch[a], plan.dispatch[b]) || (a == 0 && Continued(db, t, plan.dispatch[a])) {
      TakenRow(db, t, plan, limit, a, plan.dispatch[b]);
    }
    forall n, a | CanGo(db, t, n) && n !in plan.dispatch && 0 <= a < |plan.dispatch|
      ensures RowOlder(db, t, plan.dispatch[a], n) || (a == 0 && Continued(db, t, plan.dispatch[a])) {
      TakenRow(db, t, plan, limit, a, n);
    }
    if db.topics[t].currentNodeId.Some? && CanGo(db, t, db.topics[t].currentNodeId.value) {
      CurrentIsFirst(db, t, plan, limit);
    }
  }
}
