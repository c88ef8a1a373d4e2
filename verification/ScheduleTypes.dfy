/** internal/schedule/types.go: snapshots, plans and their validation. */
module ScheduleTypes {
  import opened Prelude

  type Id = string

  datatype Level = L0 | L1 | L2 | L3

  /** The nine known statuses, and any other text a worker may have asked to store. */
  datatype NodeStatus =
    | Pending | Ready | Running | Blocked | RetryCooldown | WaitingExternal | Succeeded | Failed | Cancelled
    | Unknown(text: string)

  datatype Priority = Priority(tag: string, rank: int)

  datatype TopicNode = TopicNode(nodeId: Id, name: string, priority: Priority, status: NodeStatus, enteredAt: int)

  datatype TopicRuntime = TopicRuntime(
    topicId: Id, currentNodeId: Option<Id>, runningNodeIds: seq<Id>, lastWorkedNodeId: Option<Id>, switchCount: int)

  datatype TopicSnapshot = TopicSnapshot(topicId: Id, level: Level, nodes: seq<TopicNode>, runtime: TopicRuntime)

  /** The texts a plan explains itself with. */
  datatype Reason =
    | NoLiveNodes | TopLayerHasNothingRunnable | LowerLayersStayBlocked
    | ActivePriority(tag: string) | KeptCurrent | ResetToLastWorked | PickedByQueueOrder

  datatype DispatchPlan = DispatchPlan(
    topicId: Id, activePriority: Option<string>, currentNodeId: Option<Id>,
    activeCandidates: seq<Id>, dispatch: seq<Id>, stalled: bool, reasons: seq<Reason>)

  predicate IsTerminal(s: NodeStatus) {
    s.Succeeded? || s.Failed? || s.Cancelled?
  }

  predicate BlocksDispatch(s: NodeStatus) {
    s.Blocked? || s.RetryCooldown? || s.WaitingExternal?
  }

  predicate ValidNode(n: TopicNode) {
    n.nodeId != "" && n.name != "" && n.priority.tag != "" && n.priority.rank >= 0 && !n.status.Unknown?
  }

  predicate Listed(ids: set<Id>, reference: Option<Id>) {
    reference.Some? ==> reference.value in ids
  }

  function NodeIds(nodes: seq<TopicNode>): set<Id> {
    set i | 0 <= i < |nodes| :: nodes[i].nodeId
  }

  ghost predicate DistinctNodes(nodes: seq<TopicNode>) {
    forall i, j | 0 <= i < j < |nodes| :: nodes[i].nodeId != nodes[j].nodeId
  }

  /** One label per rank. */
  ghost predicate OneLabelPerRank(nodes: seq<TopicNode>) {
    forall i, j | 0 <= i < j < |nodes| && nodes[i].priority.rank == nodes[j].priority.rank ::
      nodes[i].priority.tag == nodes[j].priority.tag
  }

  ghost predicate ValidNodes(nodes: seq<TopicNode>) {
    && (forall i | 0 <= i < |nodes| :: ValidNode(nodes[i]))
    && DistinctNodes(nodes)
    && OneLabelPerRank(nodes)
  }

  ghost predicate ValidRuntime(r: TopicRuntime) {
    && r.topicId != "" && r.switchCount >= 0
    && (forall i | 0 <= i < |r.runningNodeIds| :: r.runningNodeIds[i] != "")
    && (forall i, j | 0 <= i < j < |r.runningNodeIds| :: r.runningNodeIds[i] != r.runningNodeIds[j])
  }

  /** What TopicSnapshot.Validate accepts. */
  ghost predicate ValidSnapshot(s: TopicSnapshot) {
    && s.topicId != ""
    && ValidRuntime(s.runtime) && s.runtime.topicId == s.topicId
    && ValidNodes(s.nodes)
    && Listed(NodeIds(s.nodes), s.runtime.currentNodeId)
    && Listed(NodeIds(s.nodes), s.runtime.lastWorkedNodeId)
    && (forall i | 0 <= i < |s.runtime.runningNodeIds| :: s.runtime.runningNodeIds[i] in NodeIds(s.nodes))
  }

  method ValidateRuntime(r: TopicRuntime) returns (ok: bool)
    ensures ok <==> ValidRuntime(r)
  {
    if r.topicId == "" || r.switchCount < 0 {
      return false;
    }
    var seen: set<Id> := {};
    for i := 0 to |r.runningNodeIds|
      invariant seen == set k | 0 <= k < i :: r.runningNodeIds[k]
      invariant forall k | 0 <= k < i :: r.runningNodeIds[k] != ""
      invariant forall j, k | 0 <= j < k < i :: r.runningNodeIds[j] != r.runningNodeIds[k]
    {
      var id := r.runningNodeIds[i];
      if id == "" || id in seen {
        return false;
      }
      seen := seen + {id};
    }
    return true;
  }

  /** The first i nodes are valid and distinct; place says where each id was seen. */
  ghost predicate IdsScanned(nodes: seq<TopicNode>, i: nat, place: map<Id, nat>)
    requires i <= |nodes|
  {
    && (forall k | 0 <= k < i :: ValidNode(nodes[k]) && nodes[k].nodeId in place && place[nodes[k].nodeId] == k)
    && (forall id | id in place :: place[id] < i && nodes[place[id]].nodeId == id)
  }

  /** The label table of the first i nodes; first says where each rank was seen. */
  ghost predicate RanksScanned(nodes: seq<TopicNode>, i: nat, labels: map<int, string>, first: map<int, nat>)
    requires i <= |nodes|
  {
    && labels.Keys == first.Keys
    && (forall k | 0 <= k < i :: nodes[k].priority.rank in labels && labels[nodes[k].priority.rank] == nodes[k].priority.tag)
    && (forall r | r in first :: first[r] < i && nodes[first[r]].priority.rank == r && nodes[first[r]].priority.tag == labels[r])
  }

  lemma IdScanned(nodes: seq<TopicNode>, i: nat, place: map<Id, nat>)
    requires i < |nodes| && IdsScanned(nodes, i, place) && ValidNode(nodes[i]) && nodes[i].nodeId !in place
    ensures IdsScanned(nodes, i + 1, place[nodes[i].nodeId := i])
  {
  }

  lemma RankScanned(nodes: seq<TopicNode>, i: nat, labels: map<int, string>, first: map<int, nat>)
    requires i < |nodes| && RanksScanned(nodes, i, labels, first)
    ensures var p := nodes[i].priority;
      if p.rank !in labels then RanksScanned(nodes, i + 1, labels[p.rank := p.tag], first[p.rank := i])
      else if labels[p.rank] == p.tag then RanksScanned(nodes, i + 1, labels, first)
      else !ValidNodes(nodes)
  {
    var p := nodes[i].priority;
    if p.rank in labels && labels[p.rank] != p.tag {
      assert nodes[first[p.rank]].priority.tag != p.tag;
    }
  }

  lemma ScannedAll(nodes: seq<TopicNode>, place: map<Id, nat>, labels: map<int, string>, first: map<int, nat>)
    requires IdsScanned(nodes, |nodes|, place) && RanksScanned(nodes, |nodes|, labels, first)
    ensures ValidNodes(nodes)
  {
  }

  /** The loop that fills knownNodeIDs and rankToLabel. */
  method ValidateNodes(nodes: seq<TopicNode>) returns (ok: bool)
    ensures ok <==> ValidNodes(nodes)
  {
    var known: set<Id> := {};
    var rankToLabel: map<int, string> := map[];
    ghost var place: map<Id, nat> := map[];
    ghost var first: map<int, nat> := map[];
    for i := 0 to |nodes|
      invariant known == place.Keys
      invariant IdsScanned(nodes, i, place)
      invariant RanksScanned(nodes, i, rankToLabel, first)
    {
      var n := nodes[i];
      if !ValidNode(n) {
        return false;
      }
      if n.nodeId in known {
        assert nodes[place[n.nodeId]].nodeId == nodes[i].nodeId;
        return false;
      }
      IdScanned(nodes, i, place);
      RankScanned(nodes, i, rankToLabel, first);
      known, place := known + {n.nodeId}, place[n.nodeId := i];
      if n.priority.rank !in rankToLabel {
        rankToLabel, first := rankToLabel[n.priority.rank := n.priority.tag], first[n.priority.rank := i];
      } else if rankToLabel[n.priority.rank] != n.priority.tag {
        return false;
      }
    }
    ScannedAll(nodes, place, rankToLabel, first);
    return true;
  }

  method Validate(s: TopicSnapshot) returns (ok: bool)
    ensures ok <==> ValidSnapshot(s)
  {
    if s.topicId == "" {
      return false;
    }
    var runtimeOk := ValidateRuntime(s.runtime);
    if !runtimeOk || s.runtime.topicId != s.topicId {
      return false;
    }
    var nodesOk := ValidateNodes(s.nodes);
    if !nodesOk {
      return false;
    }
    var known := NodeIds(s.nodes);
    if !Listed(known, s.runtime.currentNodeId) || !Listed(known, s.runtime.lastWorkedNodeId) {
      return false;
    }
    for i := 0 to |s.runtime.runningNodeIds|
      invariant forall k | 0 <= k < i :: s.runtime.runningNodeIds[k] in known
    {
      if s.runtime.runningNodeIds[i] !in known {
        return false;
      }
    }
    return true;
  }
}
