/**
  The scheduler's two tables (internal/schedule/runtime_store.go), the engine's Enqueue and Tick
  (internal/schedule/engine.go) and the worker's priority plan (openmate_agent/worker.py), as
  functions from the tables before to the tables after. Queries without ORDER BY are modelled by
  an arbitrary listing of the rows.
 */
module ScheduleModel {
  import opened Prelude
  import opened Sorting
  import opened ScheduleTypes
  import opened SchedulePlanner

  datatype Key = Key(topic: Id, node: Id)

  datatype TopicRow = TopicRow(
    level: Level, dirty: bool, priorityNodeId: Option<Id>, planVersion: int, lastPriorityError: Option<string>,
    lastServedAt: Option<int>, currentNodeId: Option<Id>, lastWorkedNodeId: Option<Id>, switchCount: int, running: set<Id>)

  datatype NodeRow = NodeRow(
    name: string, isPriority: bool, tag: string, rank: int, status: NodeStatus, enteredAt: int, lastWorkedAt: Option<int>)

  datatype Sched = Sched(topics: map<Id, TopicRow>, nodes: map<Key, NodeRow>)

  const PRIORITY_NODE_NAME := "__priority__"
  const PRIORITY_TAG := "priority"
  const BUSINESS_TAG := "interactive"
  const BUSINESS_RANK := 1

  const NEW_TOPIC := TopicRow(L0, true, None, 0, None, None, None, None, 0, {})

  ghost function NodesOf(db: Sched, t: Id): set<Id> {
    set k | k in db.nodes && k.topic == t :: k.node
  }

  // Row updates --------------------------------------------------------------------------

  function UpdateTopic(db: Sched, t: Id, row: TopicRow): Sched {
    if t in db.topics then db.(topics := db.topics[t := row]) else db
  }

  function EnsureTopic(db: Sched, t: Id): Sched {
    if t in db.topics then db else db.(topics := db.topics[t := NEW_TOPIC])
  }

  ghost function RunningNodes(db: Sched, t: Id): set<Id> {
    set k | k in db.nodes && k.topic == t && db.nodes[k].status == Running :: k.node
  }

  function SetStatus(db: Sched, t: Id, n: Id, status: NodeStatus): Sched {
    if Key(t, n) in db.nodes then db.(nodes := db.nodes[Key(t, n) := db.nodes[Key(t, n)].(status := status)]) else db
  }

  /** syncTopicRunningNodeIDsTx */
  ghost function SyncRunning(db: Sched, t: Id, current: Option<Id>): Sched {
    if t !in db.topics then db
    else
      var row := db.topics[t];
      db.(topics := db.topics[t := row.(running := RunningNodes(db, t), currentNodeId := if current.Some? then current else row.currentNodeId)])
  }

  ghost function MarkNodeRunning(db: Sched, t: Id, n: Id): Sched {
    SyncRunning(SetStatus(db, t, n, Running), t, Some(n))
  }

  ghost function MarkNodeFinished(db: Sched, t: Id, n: Id, status: NodeStatus, at: int): Sched {
    if t !in db.topics then db
    else
      var worked := if Key(t, n) in db.nodes
                    then db.(nodes := db.nodes[Key(t, n) := db.nodes[Key(t, n)].(status := status, lastWorkedAt := Some(at))]) else db;
      var synced := SyncRunning(worked, t, None);
      var row := synced.topics[t];
      synced.(topics := synced.topics[t := row.(
        lastWorkedNodeId := Some(n), currentNodeId := Some(n),
        switchCount := row.switchCount + if row.currentNodeId == Some(n) then 0 else 1)])
  }

  // Enqueue ------------------------------------------------------------------------------

  datatype EnqueueRequest = EnqueueRequest(topicId: Id, nodeId: Id, nodeName: string, priority: Priority)

  /** When an enqueue runs, and which other row of its rank the database shows it first. */
  datatype Arrival = Arrival(now: int, probe: Id)

  /** normalizeBusinessEnqueueRequest: every accepted request has rank 1. */
  function NormalizeBusiness(r: EnqueueRequest): Result<EnqueueRequest, string> {
    if r.topicId == "" || r.nodeId == "" then Err("id must not be empty")
    else
      var named := if r.nodeName == "" then r.(nodeName := r.nodeId) else r;
      var ranked := if named.priority.tag == "" then named.(priority := Priority(BUSINESS_TAG, BUSINESS_RANK)) else named;
      if ranked.priority.rank < 0 then Err("priority.rank must be >= 0")
      else if ranked.priority != Priority(BUSINESS_TAG, BUSINESS_RANK) then Err("business node priority must be fixed")
      else Ok(ranked)
  }

  ghost function OthersAtRank(db: Sched, t: Id, n: Id, rank: int): set<Id> {
    set k | k in db.nodes && k.topic == t && k.node != n && db.nodes[k].rank == rank :: k.node
  }

  /** ensurePriorityRankLabelMappingTx looks at one row of that rank, whichever comes first. */
  ghost predicate LabelAccepted(db: Sched, t: Id, n: Id, priority: Priority, probe: Id) {
    var others := OthersAtRank(db, t, n, priority.rank);
    others != {} ==>
      var other :| other in others && (probe in others ==> other == probe);
      db.nodes[Key(t, other)].tag == priority.tag
  }

  function EnqueuedRow(db: Sched, r: EnqueueRequest, arrival: Arrival): NodeRow {
    var k := Key(r.topicId, r.nodeId);
    if k in db.nodes
    then db.nodes[k].(name := r.nodeName, tag := r.priority.tag, rank := r.priority.rank, enteredAt := arrival.now, status := Ready)
    else NodeRow(r.nodeName, false, r.priority.tag, r.priority.rank, Ready, arrival.now, None)
  }

  predicate CompleteRequest(r: EnqueueRequest) {
    r.topicId != "" && r.nodeId != "" && r.nodeName != "" && r.priority.tag != "" && r.priority.rank >= 0
  }

  /** The topic row is created first; the node and the dirty mark are one transaction. */
  ghost function UpsertEnqueueNode(db: Sched, r: EnqueueRequest, arrival: Arrival): (Sched, Result<bool, string>) {
    if !CompleteRequest(r) then (db, Err("incomplete request"))
    else UpsertCompleteNode(db, r, arrival)
  }

  ghost function UpsertCompleteNode(db: Sched, r: EnqueueRequest, arrival: Arrival): (Sched, Result<bool, string>) {
    var ensured := EnsureTopic(db, r.topicId);
    if !LabelAccepted(ensured, r.topicId, r.nodeId, r.priority, arrival.probe) then (ensured, Err("priority rank already mapped to another label"))
    else
      (Sched(ensured.topics[r.topicId := ensured.topics[r.topicId].(dirty := true)],
             ensured.nodes[Key(r.topicId, r.nodeId) := EnqueuedRow(ensured, r, arrival)]),
       Ok(Key(r.topicId, r.nodeId) !in db.nodes))
  }

  ghost function Enqueue(db: Sched, r: EnqueueRequest, arrival: Arrival): (Sched, Result<bool, string>) {
    var n := NormalizeBusiness(r);
    if n.Err? then (db, Err(n.error)) else UpsertEnqueueNode(db, n.value, arrival)
  }

  // The priority node --------------------------------------------------------------------

  function UpsertPriorityNode(db: Sched, t: Id, n: Id, now: int): Sched {
    var ensured := EnsureTopic(db, t);
    var row := if Key(t, n) in ensured.nodes
               then ensured.nodes[Key(t, n)].(name := PRIORITY_NODE_NAME, isPriority := true, tag := PRIORITY_TAG, rank := 0)
               else NodeRow(PRIORITY_NODE_NAME, true, PRIORITY_TAG, 0, Ready, now, None);
    Sched(ensured.topics[t := ensured.topics[t].(priorityNodeId := Some(n))], ensured.nodes[Key(t, n) := row])
  }

  function MarkPriorityNodeReady(db: Sched, t: Id, now: int): Sched {
    if t !in db.topics || db.topics[t].priorityNodeId.None? then db
    else
      var k := Key(t, db.topics[t].priorityNodeId.value);
      if k !in db.nodes then db
      else db.(nodes := db.nodes[k := db.nodes[k].(status := Ready, rank := 0, tag := PRIORITY_TAG, enteredAt := now)])
  }

  function ClearPriorityDirty(db: Sched, t: Id, error: string): Sched {
    if t in db.topics then UpdateTopic(db, t, db.topics[t].(dirty := false, lastPriorityError := Some(error))) else db
  }

  datatype Assignment = Assignment(nodeId: Id, tag: string, rank: int)

  function Assign(db: Sched, t: Id, a: Assignment, now: int): Sched {
    var k := Key(t, a.nodeId);
    if a.nodeId != "" && k in db.nodes && !db.nodes[k].isPriority
    then db.(nodes := db.nodes[k := db.nodes[k].(tag := a.tag, rank := a.rank, enteredAt := now)])
    else db
  }

  function AssignAll(db: Sched, t: Id, plan: seq<Assignment>, now: int): Sched {
    if plan == [] then db else Assign(AssignAll(db, t, plan[..|plan| - 1], now), t, plan[|plan| - 1], now)
  }

  function ApplyPriorityPlan(db: Sched, t: Id, plan: seq<Assignment>, now: int): Sched {
    var placed := AssignAll(db, t, plan, now);
    if t !in placed.topics then db
    else
      var row := placed.topics[t];
      var cleared := placed.(topics := placed.topics[t := row.(dirty := false, lastPriorityError := None, planVersion := row.planVersion + 1)]);
      if row.priorityNodeId.Some? then SetStatus(cleared, t, row.priorityNodeId.value, Succeeded) else cleared
  }

  // The worker's plan --------------------------------------------------------------------

  datatype Candidate = Candidate(nodeId: Id, status: NodeStatus, rank: int, enteredAt: int)

  function StatusBucket(s: NodeStatus): int {
    match s
    case Ready => 0
    case Running => 0
    case Pending => 1
    case RetryCooldown => 2
    case WaitingExternal => 2
    case Blocked => 2
    case Failed => 3
    case Cancelled => 3
    case Succeeded => 3
    case Unknown(_) => 1
  }

  predicate CandidateBefore(a: Candidate, b: Candidate) {
    if StatusBucket(a.status) != StatusBucket(b.status) then StatusBucket(a.status) < StatusBucket(b.status)
    else if a.rank != b.rank then a.rank < b.rank
    else if a.enteredAt != b.enteredAt then a.enteredAt < b.enteredAt
    else StrLess(a.nodeId, b.nodeId)
  }

  /** _build_priority_plan: the first two get "now", the others "next", ranks from 1. */
  function BuildPriorityPlan(candidates: seq<Candidate>): (plan: seq<Assignment>)
    ensures |plan| == |candidates|
    ensures forall i | 0 <= i < |plan| ::
      plan[i] == Assignment(SortBy(CandidateBefore, candidates)[i].nodeId, if i < 2 then "now" else "next", i + 1)
  {
    var ordered := SortBy(CandidateBefore, candidates);
    seq(|ordered|, i requires 0 <= i < |ordered| => Assignment(ordered[i].nodeId, if i < 2 then "now" else "next", i + 1))
  }

  ghost function LiveBusinessNodes(db: Sched, t: Id): set<Id> {
    set k | k in db.nodes && k.topic == t && !db.nodes[k].isPriority && !IsTerminal(db.nodes[k].status) :: k.node
  }

  function CandidateOf(db: Sched, t: Id, n: Id): Candidate
    requires Key(t, n) in db.nodes
  {
    var row := db.nodes[Key(t, n)];
    Candidate(n, row.status, row.rank, row.enteredAt)
  }

  /** loadPriorityCandidates; its own sort is immaterial because the worker sorts again. */
  ghost function LoadPriorityCandidates(db: Sched, t: Id): (r: seq<Candidate>)
    ensures |r| == |LiveBusinessNodes(db, t)|
  {
    var ids := ListOf(LiveBusinessNodes(db, t));
    seq(|ids|, i requires 0 <= i < |ids| => assert ids[i] in LiveBusinessNodes(db, t); CandidateOf(db, t, ids[i]))
  }

  // Snapshots ----------------------------------------------------------------------------

  /** Normalize turns an empty status into ready. */
  function NormalStatus(s: NodeStatus): NodeStatus {
    if s == Unknown("") then Ready else s
  }

  function NodeView(db: Sched, t: Id, n: Id): TopicNode
    requires Key(t, n) in db.nodes
  {
    var row := db.nodes[Key(t, n)];
    TopicNode(n, row.name, Priority(row.tag, row.rank), NormalStatus(row.status), row.enteredAt)
  }

  ghost function NodeViews(db: Sched, t: Id, ids: seq<Id>): (r: seq<TopicNode>)
    requires forall n | n in ids :: Key(t, n) in db.nodes
    ensures |r| == |ids| && forall i | 0 <= i < |ids| :: r[i] == NodeView(db, t, ids[i])
  {
    seq(|ids|, i requires 0 <= i < |ids| => assert ids[i] in ids; NodeView(db, t, ids[i]))
  }

  /** Normalize takes an empty reference for an absent one. */
  function PresentId(reference: Option<Id>): Option<Id> {
    if reference == Some("") then None else reference
  }

  ghost function BuildTopicSnapshot(db: Sched, t: Id): TopicSnapshot
    requires t in db.topics
  {
    var row := db.topics[t];
    TopicSnapshot(t, row.level, NodeViews(db, t, ListOf(NodesOf(db, t))),
                  TopicRuntime(t, PresentId(row.currentNodeId), ListOf(row.running), PresentId(row.lastWorkedNodeId), row.switchCount))
  }

  // Queue levels -------------------------------------------------------------------------

  function LevelOrder(l: Level): int {
    match l case L0 => 0 case L1 => 1 case L2 => 2 case L3 => 3
  }

  function PromoteLevel(l: Level): Level {
    match l case L3 => L2 case L2 => L1 case L1 => L0 case L0 => L0
  }

  function DemoteLevel(l: Level): Level {
    match l case L0 => L1 case L1 => L2 case L2 => L3 case L3 => L3
  }

  predicate Aged(row: TopicRow, now: int, threshold: int) {
    row.lastServedAt.Some? && now - row.lastServedAt.value >= threshold
  }

  function PromoteAgedTopics(db: Sched, now: int, threshold: int): Sched {
    if threshold <= 0 then db
    else db.(topics := map t | t in db.topics ::
      if Aged(db.topics[t], now, threshold) then db.topics[t].(level := PromoteLevel(db.topics[t].level)) else db.topics[t])
  }

  ghost predicate HasRunnable(db: Sched, t: Id) {
    exists n :: Key(t, n) in db.nodes && !IsTerminal(db.nodes[Key(t, n)].status) && !BlocksDispatch(db.nodes[Key(t, n)].status)
  }

  /** A topic that was never served counts as served before every other. */
  predicate ServedBefore(a: Option<int>, b: Option<int>) {
    b.Some? && (a.None? || a.value < b.value)
  }

  predicate TopicBefore(db: Sched, a: Id, b: Id)
    requires a in db.topics && b in db.topics
  {
    var x, y := db.topics[a], db.topics[b];
    if x.level == y.level then
      if x.lastServedAt == y.lastServedAt then StrLess(a, b) else ServedBefore(x.lastServedAt, y.lastServedAt)
    else LevelOrder(x.level) < LevelOrder(y.level)
  }

  ghost predicate Selected(db: Sched, t: Id) {
    && t in db.topics && HasRunnable(db, t)
    && forall other | other in db.topics && HasRunnable(db, other) && other != t :: TopicBefore(db, t, other)
  }

  lemma TopicBeforeTransitive(db: Sched, a: Id, b: Id, c: Id)
    requires a in db.topics && b in db.topics && c in db.topics
    requires TopicBefore(db, a, b) && TopicBefore(db, b, c)
    ensures TopicBefore(db, a, c) && a != c
  {
    if StrLess(a, b) && StrLess(b, c) {
      StrLessTransitive(a, b, c);
    }
    StrLessIrreflexive(a);
    StrLessIrreflexive(b);
    StrLessIrreflexive(c);
  }

  lemma TopicBeforeTotal(db: Sched, a: Id, b: Id)
    requires a in db.topics && b in db.topics && a != b
    ensures TopicBefore(db, a, b) || TopicBefore(db, b, a)
  {
    StrLessTotal(a, b);
  }

  lemma {:induction false} FirstOfTopics(db: Sched, ids: set<Id>) returns (t: Id)
    requires ids != {} && ids <= db.topics.Keys
    ensures t in ids && forall other | other in ids && other != t :: TopicBefore(db, t, other)
    decreases ids
  {
    var x :| x in ids;
    var others := ids - {x};
    assert ids == others + {x};
    t := x;
    if others != {} {
      var rest := FirstOfTopics(db, others);
      TopicBeforeTotal(db, x, rest);
      t := if TopicBefore(db, rest, x) then rest else x;
      forall other | other in ids && other != t ensures TopicBefore(db, t, other) {
        if other != x && other != rest {
          assert other in others;
          if t == x {
            TopicBeforeTransitive(db, x, rest, other);
          }
        }
      }
    }
  }

  lemma SelectionExists(db: Sched)
    requires exists t :: t in db.topics && HasRunnable(db, t)
    ensures exists t :: Selected(db, t)
  {
    var ids := set t | t in db.topics && HasRunnable(db, t);
    var w :| w in db.topics && HasRunnable(db, w);
    assert w in ids;
    var t := FirstOfTopics(db, ids);
    assert Selected(db, t);
  }

  lemma SelectionUnique(db: Sched, a: Id, b: Id)
    requires Selected(db, a) && Selected(db, b)
    ensures a == b
  {
    if a != b {
      TopicBeforeTransitive(db, a, b, a);
    }
  }

  ghost function SelectTopic(db: Sched): (r: Option<Id>)
    ensures r.Some? ==> Selected(db, r.value)
    ensures r.None? ==> forall t | t in db.topics :: !HasRunnable(db, t)
  {
    if exists t :: t in db.topics && HasRunnable(db, t) then
      SelectionExists(db);
      var t :| Selected(db, t);
      Some(t)
    else None
  }

  // Dispatch -----------------------------------------------------------------------------

  /** recorded is false when the dispatch history row could not be written after the rest was. */
  datatype Reply =
    | SessionFailed
    | WorkerFailed(at: int)
    | Answered(succeeded: bool, nextStatus: Option<NodeStatus>, retryable: bool, error: string, at: int, recorded: bool)

  function ResolveNodeStatus(isPriority: bool, r: Reply): NodeStatus
    requires r.Answered?
  {
    if r.nextStatus.Some? then r.nextStatus.value
    else if isPriority then if r.succeeded then Succeeded else Failed
    else if r.succeeded then Ready
    else if r.retryable then RetryCooldown
    else Failed
  }

  function PassError(error: string): string {
    if error == "" then "priority node execution failed" else error
  }

  datatype Dispatched = Dispatched(db: Sched, ok: bool)

  /** dispatchOne; a priority node that succeeds carries the worker's plan for the live nodes. */
  ghost function DispatchOne(db: Sched, t: Id, n: Id, r: Reply): Dispatched {
    if Key(t, n) !in db.nodes then Dispatched(db, false)
    else
      var isPriority := db.nodes[Key(t, n)].isPriority;
      var running := MarkNodeRunning(db, t, n);
      match r
      case SessionFailed => Dispatched(running, false)
      case WorkerFailed(at) => Dispatched(MarkNodeFinished(running, t, n, Failed, at), false)
      case Answered(succeeded, _, _, error, at, recorded) =>
        var finished := MarkNodeFinished(running, t, n, ResolveNodeStatus(isPriority, r), at);
        if !isPriority then Dispatched(finished, recorded)
        else if succeeded then Dispatched(ApplyPriorityPlan(finished, t, BuildPriorityPlan(LoadPriorityCandidates(running, t)), at), recorded)
        else Dispatched(ClearPriorityDirty(finished, t, PassError(error)), recorded)
  }

  ghost function DispatchAll(db: Sched, t: Id, ids: seq<Id>, replies: nat -> Reply): Dispatched {
    if ids == [] then Dispatched(db, true)
    else
      var before := DispatchAll(db, t, ids[..|ids| - 1], replies);
      if !before.ok then before else DispatchOne(before.db, t, ids[|ids| - 1], replies(|ids| - 1))
  }

  // Tick ---------------------------------------------------------------------------------

  /** What a tick is given: its limit, the clock, the id VOS answers with and the workers' replies. */
  datatype TickInput = TickInput(
    limit: int, agingThreshold: int, promoteAt: int, readyAt: int, servedAt: int, vosPriorityId: Option<Id>, replies: nat -> Reply)

  /** planned is what was handed to dispatch; served says the tick got to its end. */
  datatype Ticked = Ticked(db: Sched, selected: Option<Id>, planned: seq<Id>, served: bool)

  ghost function EnsurePriorityNode(db: Sched, t: Id, vos: Option<Id>, now: int): Option<Sched>
    requires t in db.topics
  {
    if db.topics[t].priorityNodeId.Some? then Some(db)
    else if vos.None? || vos.value == "" || t == "" then None
    else Some(UpsertPriorityNode(db, t, vos.value, now))
  }

  /** What a tick does to the selected topic before it plans; None when it stops there. */
  ghost function Prepare(db: Sched, t: Id, input: TickInput): Option<Sched>
    requires t in db.topics
  {
    if !db.topics[t].dirty then Some(db)
    else if db.topics[t].running != {} then None
    else
      var ensured := EnsurePriorityNode(db, t, input.vosPriorityId, input.readyAt);
      if ensured.None? then None else Some(MarkPriorityNodeReady(ensured.value, t, input.readyAt))
  }

  function Serve(db: Sched, t: Id, runnable: bool, at: int): Sched
    requires t in db.topics
  {
    var row := db.topics[t];
    db.(topics := db.topics[t := row.(lastServedAt := Some(at), level := if runnable then DemoteLevel(row.level) else row.level)])
  }

  ghost function PlannedFor(db: Sched, t: Id, limit: nat): seq<Id>
    requires t in db.topics
  {
    var s := BuildTopicSnapshot(db, t);
    if ValidSnapshot(s) then PlanTopicDispatch(s, limit).value.dispatch else []
  }

  /** Planning and dispatching on the prepared topic. */
  ghost function Work(db: Sched, t: Id, input: TickInput): Ticked
    requires t in db.topics && input.limit > 0
  {
    var planned := PlannedFor(db, t, input.limit);
    var d := DispatchAll(db, t, planned, input.replies);
    if planned == [] then Ticked(db, Some(t), [], false)
    else if !d.ok || t !in d.db.topics then Ticked(d.db, Some(t), planned, false)
    else Ticked(Serve(d.db, t, HasRunnable(d.db, t), input.servedAt), Some(t), planned, true)
  }

  /** A tick that stops before planning leaves the aged tables. */
  ghost function Tick(db: Sched, input: TickInput): Ticked
    requires input.limit > 0
  {
    var aged := PromoteAgedTopics(db, input.promoteAt, input.agingThreshold);
    var selected := SelectTopic(aged);
    if selected.None? then Ticked(aged, None, [], false)
    else
      var t := selected.value;
      var prepared := Prepare(aged, t, input);
      if prepared.None? || t !in prepared.value.topics then Ticked(aged, Some(t), [], false)
      else Work(prepared.value, t, input)
  }
}
