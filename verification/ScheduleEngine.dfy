/**
  internal/schedule/engine.go and the worker's _build_priority_plan (openmate_agent/worker.py):
  the loops that drive the store, proved to perform the Enqueue and Tick steps of ScheduleModel.
 */
module ScheduleEngine {
  import opened Prelude
  import opened Sorting
  import opened ScheduleTypes
  import opened SchedulePlanner
  import opened ScheduleModel
  import opened ScheduleOrder
  import opened ScheduleStore
  import Model = ScheduleModel

  /** _build_priority_plan */
  method WorkerPlan(candidates: seq<Candidate>) returns (plan: seq<Assignment>)
    ensures plan == BuildPriorityPlan(candidates)
  {
    var ordered := SortBy(CandidateBefore, candidates);
    plan := [];
    for i := 0 to |ordered|
      invariant |plan| == i
      invariant forall k | 0 <= k < i :: plan[k] == Assignment(ordered[k].nodeId, if k < 2 then "now" else "next", k + 1)
    {
      plan := plan + [Assignment(ordered[i].nodeId, if i < 2 then "now" else "next", i + 1)];
    }
  }

  // Selecting a topic ----------------------------------------------------------------------

  datatype Listed = Listed(id: Id, row: TopicRow)

  predicate ListedBefore(a: Listed, b: Listed) {
    if a.row.level == b.row.level then
      if a.row.lastServedAt == b.row.lastServedAt then StrLess(a.id, b.id) else ServedBefore(a.row.lastServedAt, b.row.lastServedAt)
    else LevelOrder(a.row.level) < LevelOrder(b.row.level)
  }

  lemma ListedBeforeIsStrictOrder()
    ensures StrictOrder(ListedBefore)
  {
    StrLessIsStrictOrder();
  }

  /** Each topic once, with its row. */
  ghost predicate TopicsListed(topics: map<Id, TopicRow>, rows: seq<Listed>) {
    && (forall i | 0 <= i < |rows| :: rows[i].id in topics && rows[i].row == topics[rows[i].id])
    && (forall i, j | 0 <= i < j < |rows| :: rows[i].id != rows[j].id)
    && (forall t | t in topics :: Listed(t, topics[t]) in rows)
  }

  lemma ListedTotal(topics: map<Id, TopicRow>, rows: seq<Listed>)
    requires TopicsListed(topics, rows)
    ensures TotalOn(ListedBefore, rows)
  {
    forall i, j | 0 <= i < j < |rows| ensures ListedBefore(rows[i], rows[j]) || ListedBefore(rows[j], rows[i]) {
      StrLessTotal(rows[i].id, rows[j].id);
    }
  }

  /** Every topic with its row, in queue order. */
  ghost predicate QueueOrder(topics: map<Id, TopicRow>, sorted: seq<Listed>) {
    && SortedBy(ListedBefore, sorted)
    && (forall i | 0 <= i < |sorted| :: sorted[i].id in topics && sorted[i].row == topics[sorted[i].id])
    && (forall t | t in topics :: Listed(t, topics[t]) in sorted)
  }

  lemma SortedTopics(topics: map<Id, TopicRow>, rows: seq<Listed>)
    requires TopicsListed(topics, rows)
    ensures QueueOrder(topics, SortBy(ListedBefore, rows))
  {
    var sorted := SortBy(ListedBefore, rows);
    ListedBeforeIsStrictOrder();
    ListedTotal(topics, rows);
    SortSorts(ListedBefore, rows);
    MembersAgree(rows, sorted);
    forall i | 0 <= i < |sorted| ensures sorted[i].id in topics && sorted[i].row == topics[sorted[i].id] {
      assert sorted[i] in rows;
    }
  }

  ghost predicate NoneRunnable(db: Sched, sorted: seq<Listed>, i: nat)
    requires i <= |sorted|
  {
    forall k | 0 <= k < i :: !HasRunnable(db, sorted[k].id)
  }

  /** The first runnable topic in queue order is the selected one. */
  lemma FirstRunnableIsSelected(db: Sched, sorted: seq<Listed>, i: nat)
    requires QueueOrder(db.topics, sorted) && i < |sorted| && NoneRunnable(db, sorted, i) && HasRunnable(db, sorted[i].id)
    ensures SelectTopic(db) == Some(sorted[i].id)
  {
    var t := sorted[i].id;
    forall other | other in db.topics && HasRunnable(db, other) && other != t ensures TopicBefore(db, t, other) {
      var k :| 0 <= k < |sorted| && sorted[k] == Listed(other, db.topics[other]);
      assert ListedBefore(sorted[i], sorted[k]);
    }
    assert Selected(db, t);
    SelectionUnique(db, t, SelectTopic(db).value);
  }

  lemma NothingSelected(db: Sched, sorted: seq<Listed>)
    requires QueueOrder(db.topics, sorted) && NoneRunnable(db, sorted, |sorted|)
    ensures SelectTopic(db) == None
  {
    forall t | t in db.topics ensures !HasRunnable(db, t) {
      var k :| 0 <= k < |sorted| && sorted[k] == Listed(t, db.topics[t]);
    }
  }

  class Engine {
    const store: RuntimeStore

    constructor (store: RuntimeStore)
      ensures this.store == store
    {
      this.store := store;
    }

    method Enqueue(r: EnqueueRequest, now: int) returns (created: Result<bool, string>, ghost arrival: Arrival)
      modifies store
      ensures arrival.now == now && (store.Tables(), created) == Model.Enqueue(old(store.Tables()), r, arrival)
    {
      arrival := Arrival(now, "");
      var normal := NormalizeBusiness(r);
      if normal.Err? {
        return Err(normal.error), arrival;
      }
      created, arrival := store.UpsertEnqueueNode(normal.value, now);
    }

    method ListTopics() returns (rows: seq<Listed>)
      ensures TopicsListed(store.topics, rows)
    {
      rows := [];
      var left := store.topics.Keys;
      while left != {}
        invariant left <= store.topics.Keys
        invariant forall i | 0 <= i < |rows| :: rows[i].id in store.topics && rows[i].id !in left && rows[i].row == store.topics[rows[i].id]
        invariant forall i, j | 0 <= i < j < |rows| :: rows[i].id != rows[j].id
        invariant forall t | t in store.topics && t !in left :: Listed(t, store.topics[t]) in rows
        decreases left
      {
        var t :| t in left;
        rows := rows + [Listed(t, store.topics[t])];
        left := left - {t};
      }
    }

    method FirstRunnable(sorted: seq<Listed>) returns (i: nat)
      ensures i <= |sorted| && NoneRunnable(store.Tables(), sorted, i)
      ensures i < |sorted| ==> HasRunnable(store.Tables(), sorted[i].id)
    {
      i := 0;
      while i < |sorted|
        invariant i <= |sorted| && NoneRunnable(store.Tables(), sorted, i)
      {
        var runnable := store.HasRunnableNodes(sorted[i].id);
        if runnable {
          return;
        }
        i := i + 1;
      }
    }

    method SelectTopic() returns (selected: Option<Id>)
      ensures selected == Model.SelectTopic(store.Tables())
    {
      var rows := ListTopics();
      var sorted := SortBy(ListedBefore, rows);
      SortedTopics(store.topics, rows);
      var i := FirstRunnable(sorted);
      if i < |sorted| {
        FirstRunnableIsSelected(store.Tables(), sorted, i);
        return Some(sorted[i].id);
      }
      NothingSelected(store.Tables(), sorted);
      return None;
    }

    method DispatchOne(t: Id, n: Id, r: Reply) returns (ok: bool)
      requires t in store.topics
      modifies store
      ensures Dispatched(store.Tables(), ok) == Model.DispatchOne(old(store.Tables()), t, n, r)
      ensures t in store.topics
    {
      if Key(t, n) !in store.nodes {
        return false;
      }
      var isPriority := store.nodes[Key(t, n)].isPriority;
      store.MarkNodeRunning(t, n);
      if r.SessionFailed? {
        return false;
      }
      if r.WorkerFailed? {
        store.MarkNodeFinished(t, n, Failed, r.at);
        return false;
      }
      FinishAnswered(t, n, isPriority, r);
      return r.recorded;
    }

    /** The worker answered: record the status and, after a priority node, its plan. */
    method FinishAnswered(t: Id, n: Id, isPriority: bool, r: Reply)
      requires t in store.topics && r.Answered?
      modifies store
      ensures t in store.topics
      ensures var running := old(store.Tables());
        var finished := MarkNodeFinished(running, t, n, ResolveNodeStatus(isPriority, r), r.at);
        store.Tables() ==
          if !isPriority then finished
          else if r.succeeded then ApplyPriorityPlan(finished, t, BuildPriorityPlan(LoadPriorityCandidates(running, t)), r.at)
          else ClearPriorityDirty(finished, t, PassError(r.error))
    {
      var plan := [];
      if isPriority {
        var candidates := store.LoadPriorityCandidates(t);
        plan := WorkerPlan(candidates);
        PriorityPlanFromAnyListing(store.Tables(), t, candidates);
      }
      store.MarkNodeFinished(t, n, ResolveNodeStatus(isPriority, r), r.at);
      if isPriority {
        FinishPriorityPass(t, plan, r);
      }
    }

    method FinishPriorityPass(t: Id, plan: seq<Assignment>, r: Reply)
      requires r.Answered?
      modifies store
      ensures store.Tables() ==
        if r.succeeded then ApplyPriorityPlan(old(store.Tables()), t, plan, r.at)
        else ClearPriorityDirty(old(store.Tables()), t, PassError(r.error))
    {
      if r.succeeded {
        store.ApplyPriorityPlan(t, plan, r.at);
      } else {
        var message := r.error;
        if message == "" {
          message := "priority node execution failed";
        }
        store.ClearPriorityDirty(t, message);
      }
    }

    method DispatchAll(t: Id, ids: seq<Id>, replies: nat -> Reply) returns (ok: bool)
      requires t in store.topics
      modifies store
      ensures Dispatched(store.Tables(), ok) == Model.DispatchAll(old(store.Tables()), t, ids, replies)
      ensures t in store.topics
    {
      ok := true;
      var i := 0;
      while i < |ids| && ok
        invariant 0 <= i <= |ids| && t in store.topics
        invariant Dispatched(store.Tables(), ok) == Model.DispatchAll(old(store.Tables()), t, ids[..i], replies)
      {
        assert ids[..i + 1][..i] == ids[..i];
        ok := DispatchOne(t, ids[i], replies(i));
        i := i + 1;
      }
      StopsAtFailure(old(store.Tables()), t, ids, i, replies);
    }

    /** What a tick does to a priority-dirty topic before planning. */
    method Prepare(t: Id, input: TickInput) returns (ready: bool)
      requires t in store.topics
      modifies store
      ensures ready <==> Model.Prepare(old(store.Tables()), t, input).Some?
      ensures store.Tables() == if ready then Model.Prepare(old(store.Tables()), t, input).value else old(store.Tables())
      ensures t in store.topics
    {
      if !store.topics[t].dirty {
        return true;
      }
      if store.topics[t].running != {} {
        return false;
      }
      if store.topics[t].priorityNodeId.None? {
        if input.vosPriorityId.None? {
          return false;
        }
        var upserted := store.UpsertPriorityNode(t, input.vosPriorityId.value, input.readyAt);
        if !upserted {
          return false;
        }
      }
      ready := store.MarkPriorityNodeReady(t, input.readyAt);
    }

    method PlanTopic(t: Id, limit: nat) returns (planned: seq<Id>)
      requires t in store.topics
      ensures planned == PlannedFor(store.Tables(), t, limit)
    {
      var s := store.BuildTopicSnapshot(t);
      if s.None? {
        return [];
      }
      var plan := Plan(s.value, limit);
      PlanFromAnyListing(store.Tables(), t, s.value, limit);
      return plan.value.dispatch;
    }

    method Tick(input: TickInput) returns (selected: Option<Id>, planned: seq<Id>, served: bool)
      requires input.limit > 0
      modifies store
      ensures Ticked(store.Tables(), selected, planned, served) == Model.Tick(old(store.Tables()), input)
    {
      planned, served := [], false;
      store.PromoteAgedTopics(input.promoteAt, input.agingThreshold);
      selected := SelectTopic();
      if selected.None? {
        return;
      }
      var ready := Prepare(selected.value, input);
      if ready {
        planned, served := WorkOn(selected.value, input);
      }
    }

    method WorkOn(t: Id, input: TickInput) returns (planned: seq<Id>, served: bool)
      requires t in store.topics && input.limit > 0
      modifies store
      ensures Ticked(store.Tables(), Some(t), planned, served) == Work(old(store.Tables()), t, input)
    {
      planned := PlanTopic(t, input.limit);
      served := false;
      if |planned| > 0 {
        served := DispatchAll(t, planned, input.replies);
        if served {
          store.TouchAndDemote(t, input.servedAt);
        }
      }
    }
  }

  lemma {:induction false} StopsAtFailure(db: Sched, t: Id, ids: seq<Id>, i: nat, replies: nat -> Reply)
    requires i <= |ids| && (i == |ids| || !DispatchAll(db, t, ids[..i], replies).ok)
    ensures DispatchAll(db, t, ids, replies) == DispatchAll(db, t, ids[..i], replies)
    decreases |ids|
  {
    if i == |ids| {
      assert ids[..i] == ids;
    } else {
      assert ids[..|ids| - 1][..i] == ids[..i];
      StopsAtFailure(db, t, ids[..|ids| - 1], i, replies);
    }
  }
}
