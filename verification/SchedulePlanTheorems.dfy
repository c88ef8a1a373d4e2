/** What a dispatch plan contains, stated without the planner's own steps. */
module SchedulePlanTheorems {
  import opened Prelude
  import opened Sorting
  import opened ScheduleTypes
  import opened SchedulePlanner

  /** Node i is live and no live node has a lower rank. */
  ghost predicate InTopLayer(s: TopicSnapshot, i: nat)
    requires i < |s.nodes|
  {
    NonTerminal(s.nodes[i]) && forall j | 0 <= j < |s.nodes| && NonTerminal(s.nodes[j]) :: s.nodes[i].priority.rank <= s.nodes[j].priority.rank
  }

  ghost function Dispatchable(s: TopicSnapshot): set<Id> {
    set i | 0 <= i < |s.nodes| && InTopLayer(s, i) && Unblocked(s.nodes[i]) && s.nodes[i].nodeId !in s.runtime.runningNodeIds :: s.nodes[i].nodeId
  }

  // Filling slots ------------------------------------------------------------------------

  ghost function Free(ids: seq<Id>, current: Id, running: seq<Id>): set<Id> {
    set id | id in ids && id != current && id !in running
  }

  lemma FreeTail(ids: seq<Id>, current: Id, running: seq<Id>)
    requires ids != [] && NoRepeats(ids)
    ensures NoRepeats(ids[1..])
    ensures if ids[0] == current || ids[0] in running then Free(ids, current, running) == Free(ids[1..], current, running)
            else Free(ids, current, running) == Free(ids[1..], current, running) + {ids[0]} && ids[0] !in ids[1..]
  {
    assert ids == [ids[0]] + ids[1..];
    assert ids[0] !in ids[1..];
  }

  lemma {:induction false} FillSlotsExact(taken: seq<Id>, ids: seq<Id>, current: Id, running: seq<Id>, slots: nat)
    requires NoRepeats(ids) && NoRepeats(taken) && |taken| <= slots
    requires forall id | id in taken :: id !in Free(ids, current, running)
    ensures var r := FillSlots(taken, ids, current, running, slots);
      && NoRepeats(r)
      && (forall id | id in r :: id in taken || id in Free(ids, current, running))
      && |r| == if |taken| + |Free(ids, current, running)| < slots then |taken| + |Free(ids, current, running)| else slots
    decreases |ids|
  {
    if ids == [] {
      assert Free(ids, current, running) == {};
    } else if |taken| < slots {
      FreeTail(ids, current, running);
      if ids[0] == current || ids[0] in running {
        FillSlotsExact(taken, ids[1..], current, running, slots);
      } else {
        FillSlotsExact(taken + [ids[0]], ids[1..], current, running, slots);
      }
    }
  }

  lemma DispatchIdsExact(ids: seq<Id>, current: Id, running: seq<Id>, slots: nat)
    requires NoRepeats(ids) && current in ids
    ensures var r := DispatchIds(ids, current, running, slots); var all := set id | id in ids && id !in running;
      NoRepeats(r) && (forall id | id in r :: id in all) && |r| == if |all| < slots then |all| else slots
  {
    var all := set id | id in ids && id !in running;
    if current in running {
      assert all == Free(ids, current, running);
    } else {
      assert all == Free(ids, current, running) + {current};
    }
    FillSlotsExact(if slots > 0 && current !in running then [current] else [], ids, current, running, slots);
  }

  // Candidates ---------------------------------------------------------------------------

  lemma NodeBeforeIsStrictOrder()
    ensures StrictOrder(NodeBefore)
  {
    StrLessIsStrictOrder();
  }

  lemma DistinctNodesTotal(nodes: seq<TopicNode>)
    requires DistinctNodes(nodes)
    ensures TotalOn(NodeBefore, nodes)
  {
    forall i, j | 0 <= i < j < |nodes| ensures NodeBefore(nodes[i], nodes[j]) || NodeBefore(nodes[j], nodes[i]) {
      StrLessTotal(nodes[i].nodeId, nodes[j].nodeId);
    }
  }

  lemma {:induction false} FilterKeepsDistinct(keep: TopicNode -> bool, nodes: seq<TopicNode>)
    requires DistinctNodes(nodes)
    ensures DistinctNodes(Filter(keep, nodes))
  {
    if nodes != [] {
      FilterKeepsDistinct(keep, nodes[1..]);
      var rest := Filter(keep, nodes[1..]);
      forall j | 0 <= j < |rest| ensures rest[j].nodeId != nodes[0].nodeId {
        assert rest[j] in nodes[1..];
      }
    }
  }

  lemma CandidatesDistinct(nodes: seq<TopicNode>)
    requires DistinctNodes(nodes) && Filter(NonTerminal, nodes) != []
    ensures DistinctNodes(Filter(Unblocked, ActiveLayer(nodes)))
  {
    FilterKeepsDistinct(NonTerminal, nodes);
    FilterKeepsDistinct(AtRank(MinRank(Filter(NonTerminal, nodes))), Filter(NonTerminal, nodes));
    FilterKeepsDistinct(Unblocked, ActiveLayer(nodes));
  }

  lemma SortedNodesDistinct(nodes: seq<TopicNode>)
    requires DistinctNodes(nodes)
    ensures DistinctNodes(SortBy(NodeBefore, nodes))
  {
    var r := SortBy(NodeBefore, nodes);
    NodeBeforeIsStrictOrder();
    DistinctNodesTotal(nodes);
    SortSorts(NodeBefore, nodes);
    MembersAgree(r, nodes);
    forall i, j | 0 <= i < j < |r| ensures r[i].nodeId != r[j].nodeId {
      assert r[i] in nodes && r[j] in nodes;
      assert NodeBefore(r[i], r[j]) && !NodeBefore(r[i], r[i]);
    }
  }

  /** The ordered candidates are the unblocked nodes of the top layer: one direction... */
  lemma CandidateIsTopLayer(s: TopicSnapshot, n: TopicNode) returns (i: nat)
    requires Filter(NonTerminal, s.nodes) != [] && n in OrderedCandidates(s.nodes)
    ensures i < |s.nodes| && s.nodes[i] == n && InTopLayer(s, i) && Unblocked(n)
  {
    var live := Filter(NonTerminal, s.nodes);
    MembersAgree(OrderedCandidates(s.nodes), Filter(Unblocked, ActiveLayer(s.nodes)));
    assert n in live && n.priority.rank == MinRank(live);
    i :| 0 <= i < |s.nodes| && s.nodes[i] == n;
    forall j | 0 <= j < |s.nodes| && NonTerminal(s.nodes[j]) ensures n.priority.rank <= s.nodes[j].priority.rank {
      assert s.nodes[j] in live;
    }
  }

  /** ... and the other. */
  lemma TopLayerIsCandidate(s: TopicSnapshot, i: nat)
    requires i < |s.nodes| && InTopLayer(s, i) && Unblocked(s.nodes[i])
    ensures s.nodes[i] in Filter(NonTerminal, s.nodes)
    ensures s.nodes[i] in OrderedCandidates(s.nodes)
  {
    var live := Filter(NonTerminal, s.nodes);
    assert s.nodes[i] in live;
    var m :| m in live && m.priority.rank == MinRank(live);
    var j :| 0 <= j < |s.nodes| && s.nodes[j] == m;
    MembersAgree(OrderedCandidates(s.nodes), Filter(Unblocked, ActiveLayer(s.nodes)));
  }

  lemma InIds(nodes: seq<TopicNode>, n: TopicNode)
    requires n in nodes
    ensures n.nodeId in Ids(nodes)
  {
    var k :| 0 <= k < |nodes| && nodes[k] == n;
    assert Ids(nodes)[k] == n.nodeId;
  }

  lemma DispatchableAreFree(s: TopicSnapshot)
    requires Filter(NonTerminal, s.nodes) != []
    ensures Dispatchable(s) == set id | id in Ids(OrderedCandidates(s.nodes)) && id !in s.runtime.runningNodeIds
  {
    var ordered := OrderedCandidates(s.nodes);
    forall id | id in Dispatchable(s) ensures id in Ids(ordered) {
      var i :| 0 <= i < |s.nodes| && InTopLayer(s, i) && Unblocked(s.nodes[i]) && s.nodes[i].nodeId == id;
      TopLayerIsCandidate(s, i);
      InIds(ordered, s.nodes[i]);
    }
    forall id | id in Ids(ordered) && id !in s.runtime.runningNodeIds ensures id in Dispatchable(s) {
      var k :| 0 <= k < |ordered| && Ids(ordered)[k] == id;
      var i := CandidateIsTopLayer(s, ordered[k]);
    }
  }

  lemma CurrentIsCandidate(ordered: seq<TopicNode>, runtime: TopicRuntime)
    requires ordered != []
    ensures ChooseCurrent(ordered, runtime).Some? && ChooseCurrent(ordered, runtime).value in Ids(ordered)
  {
    var current := ChooseCurrent(ordered, runtime).value;
    assert ordered[0].nodeId in NodeIds(ordered);
    var k :| 0 <= k < |ordered| && ordered[k].nodeId == current;
    InIds(ordered, ordered[k]);
  }

  // The theorems -------------------------------------------------------------------------

  lemma NoneLive(s: TopicSnapshot)
    requires Filter(NonTerminal, s.nodes) == []
    ensures forall i | 0 <= i < |s.nodes| :: !NonTerminal(s.nodes[i])
  {
    forall i | 0 <= i < |s.nodes| ensures !NonTerminal(s.nodes[i]) {
      assert s.nodes[i] !in Filter(NonTerminal, s.nodes);
    }
  }

  lemma PlanFromCandidates(s: TopicSnapshot, slots: nat)
    requires DistinctNodes(s.nodes) && Filter(NonTerminal, s.nodes) != [] && OrderedCandidates(s.nodes) != []
    ensures var d := PlanTopicDispatch(s, slots).value.dispatch; var n := |Dispatchable(s)|;
      NoRepeats(d) && (forall id | id in d :: id in Dispatchable(s)) && |d| == if n < slots then n else slots
  {
    var ordered := OrderedCandidates(s.nodes);
    CandidatesDistinct(s.nodes);
    SortedNodesDistinct(Filter(Unblocked, ActiveLayer(s.nodes)));
    DispatchableAreFree(s);
    CurrentIsCandidate(ordered, s.runtime);
    DispatchIdsExact(Ids(ordered), ChooseCurrent(ordered, s.runtime).value, s.runtime.runningNodeIds, slots);
  }

  /** No duplicates, only dispatchable nodes, and as many as slots and nodes allow. */
  lemma PlanExact(s: TopicSnapshot, slots: nat)
    requires ValidSnapshot(s)
    ensures PlanTopicDispatch(s, slots).Ok?
    ensures var d := PlanTopicDispatch(s, slots).value.dispatch; var n := |Dispatchable(s)|;
      NoRepeats(d) && (forall id | id in d :: id in Dispatchable(s)) && |d| == if n < slots then n else slots
  {
    if Filter(NonTerminal, s.nodes) == [] {
      NoneLive(s);
      assert Dispatchable(s) == {};
    } else if OrderedCandidates(s.nodes) == [] {
      DispatchableAreFree(s);
      assert Dispatchable(s) == {};
    } else {
      PlanFromCandidates(s, slots);
    }
  }

  /** A plan stalls exactly when there are live nodes and the whole top layer is blocked. */
  lemma StalledExactly(s: TopicSnapshot, slots: nat)
    ensures PlanTopicDispatch(s, slots).value.stalled <==>
      && (exists i :: 0 <= i < |s.nodes| && NonTerminal(s.nodes[i]))
      && (forall i | 0 <= i < |s.nodes| && InTopLayer(s, i) :: !Unblocked(s.nodes[i]))
  {
    var live := Filter(NonTerminal, s.nodes);
    if live == [] {
      NoneLive(s);
    } else {
      assert live[0] in s.nodes;
      NoCandidates(s);
    }
  }

  lemma NoCandidates(s: TopicSnapshot)
    requires Filter(NonTerminal, s.nodes) != []
    ensures OrderedCandidates(s.nodes) == [] <==> forall i | 0 <= i < |s.nodes| && InTopLayer(s, i) :: !Unblocked(s.nodes[i])
  {
    var ordered := OrderedCandidates(s.nodes);
    forall i | 0 <= i < |s.nodes| && InTopLayer(s, i) && Unblocked(s.nodes[i]) ensures ordered != [] {
      TopLayerIsCandidate(s, i);
    }
    if ordered != [] {
      var i := CandidateIsTopLayer(s, ordered[0]);
    }
  }

  /** When the top layer is uniformly blocked or unblocked, one node of it decides. */
  lemma StalledBy(s: TopicSnapshot, slots: nat, at: nat)
    requires at < |s.nodes| && InTopLayer(s, at)
    requires forall i | 0 <= i < |s.nodes| && InTopLayer(s, i) :: Unblocked(s.nodes[i]) <==> Unblocked(s.nodes[at])
    ensures PlanTopicDispatch(s, slots).value.stalled <==> !Unblocked(s.nodes[at])
  {
    StalledExactly(s, slots);
    assert NonTerminal(s.nodes[at]);
  }

  lemma SameMinRank(a: seq<TopicNode>, b: seq<TopicNode>)
    requires a != [] && multiset(a) == multiset(b)
    ensures b != [] && MinRank(a) == MinRank(b)
  {
    MembersAgree(a, b);
  }

  lemma LayerPermutation(a: seq<TopicNode>, b: seq<TopicNode>)
    requires multiset(a) == multiset(b) && Filter(NonTerminal, a) != []
    ensures Filter(NonTerminal, b) != []
    ensures multiset(ActiveLayer(a)) == multiset(ActiveLayer(b))
  {
    FilterPermutation(NonTerminal, a, b);
    var la, lb := Filter(NonTerminal, a), Filter(NonTerminal, b);
    SameMinRank(la, lb);
    FilterPermutation(AtRank(MinRank(la)), la, lb);
  }

  lemma CandidatesPermutation(a: seq<TopicNode>, b: seq<TopicNode>)
    requires multiset(a) == multiset(b) && Filter(NonTerminal, a) != [] && DistinctNodes(a)
    ensures Filter(NonTerminal, b) != []
    ensures OrderedCandidates(a) == OrderedCandidates(b)
  {
    LayerPermutation(a, b);
    FilterPermutation(Unblocked, ActiveLayer(a), ActiveLayer(b));
    CandidatesDistinct(a);
    NodeBeforeIsStrictOrder();
    DistinctNodesTotal(Filter(Unblocked, ActiveLayer(a)));
    SortPermutation(NodeBefore, Filter(Unblocked, ActiveLayer(a)), Filter(Unblocked, ActiveLayer(b)));
  }

  /** The label of the active layer is the same whichever of its nodes comes first. */
  lemma SameActiveLabel(a: seq<TopicNode>, b: seq<TopicNode>)
    requires multiset(a) == multiset(b) && Filter(NonTerminal, a) != [] && OneLabelPerRank(a)
    ensures Filter(NonTerminal, b) != [] && ActiveLayer(a) != [] && ActiveLayer(b) != []
    ensures ActiveLayer(a)[0].priority.tag == ActiveLayer(b)[0].priority.tag
  {
    LayerPermutation(a, b);
    ActiveLayerNonEmpty(a);
    ActiveLayerNonEmpty(b);
    var x, y := ActiveLayer(a)[0], ActiveLayer(b)[0];
    MembersAgree(ActiveLayer(a), ActiveLayer(b));
    assert x in ActiveLayer(a) && y in ActiveLayer(a);
    var i :| 0 <= i < |a| && a[i] == x;
    var j :| 0 <= j < |a| && a[j] == y;
  }

  /** The plan does not depend on the order in which the nodes are listed. */
  lemma PlanPermutation(s: TopicSnapshot, nodes': seq<TopicNode>, slots: int)
    requires ValidSnapshot(s) && multiset(nodes') == multiset(s.nodes)
    ensures PlanTopicDispatch(s.(nodes := nodes'), slots) == PlanTopicDispatch(s, slots)
  {
    FilterPermutation(NonTerminal, s.nodes, nodes');
    if Filter(NonTerminal, s.nodes) == [] {
      MembersAgree(Filter(NonTerminal, s.nodes), Filter(NonTerminal, nodes'));
    } else {
      CandidatesPermutation(s.nodes, nodes');
      SameActiveLabel(s.nodes, nodes');
    }
  }
}
