/**
  Bounded starvation of the multi-level feedback queue. With a fixed set of n topics, an
  increasing clock and ticks that serve the topic they select, a topic that stays runnable is
  served within n + 2 ticks of the first tick that finds it aged, and a topic that was never
  served within n ticks.
 */
module ScheduleFairness {
  import opened Prelude
  import opened ScheduleTypes
  import opened ScheduleModel
  import opened ScheduleInvariants
  import opened ScheduleTheorems

  /** x would go before t if both were at the same level. */
  ghost predicate GoesBefore(db: Sched, x: Id, t: Id)
    requires x in db.topics && t in db.topics
  {
    var a, b := db.topics[x].lastServedAt, db.topics[t].lastServedAt;
    if a == b then StrLess(x, t) else ServedBefore(a, b)
  }

  ghost function Older(db: Sched, t: Id): set<Id>
    requires t in db.topics
  {
    set x | x in db.topics && x != t && GoesBefore(db, x, t)
  }

  /** Ticks that t may still have to wait: promotions to go, then topics ahead of it. */
  ghost function Wait(db: Sched, t: Id): nat
    requires t in db.topics
  {
    var l := LevelOrder(db.topics[t].level);
    (if l >= 2 then l - 1 else 0) + |Older(db, t)|
  }

  ghost predicate ClockAfter(db: Sched, now: int) {
    forall t | t in db.topics && db.topics[t].lastServedAt.Some? :: db.topics[t].lastServedAt.value < now
  }

  /** A topic that aging will bring up, or that is at the top already. */
  ghost predicate Due(db: Sched, t: Id, now: int, threshold: int) {
    t in db.topics && (db.topics[t].lastServedAt.None? || Aged(db.topics[t], now, threshold))
  }

  lemma OlderBound(db: Sched, t: Id)
    requires t in db.topics
    ensures |Older(db, t)| <= |db.topics| - 1
  {
    assert Older(db, t) <= db.topics.Keys - {t};
    SubsetCardinality(Older(db, t), db.topics.Keys - {t});
  }

  lemma WaitBound(db: Sched, t: Id)
    requires SchedOk(db) && t in db.topics
    ensures Wait(db, t) <= |db.topics| + 1
    ensures db.topics[t].lastServedAt.None? ==> Wait(db, t) <= |db.topics| - 1
  {
    OlderBound(db, t);
    assert TopicOk(db, t);
  }

  // One tick -----------------------------------------------------------------------------

  /** Service times changed only for the served topic t, levels of the others not at all. */
  ghost predicate ServedOnly(aged: Sched, db': Sched, t: Id, at: int) {
    && t in aged.topics && db'.topics.Keys == aged.topics.Keys
    && db'.topics[t].lastServedAt == Some(at)
    && (forall x | x in aged.topics && x != t :: db'.topics[x] == aged.topics[x])
  }

  lemma ServedOnlyByTopic(aged: Sched, prepared: Sched, db': Sched, t: Id, at: int)
    requires t in aged.topics && OnlyTopic(aged, prepared, t) && OnlyTopic(prepared, db', t)
    requires t in db'.topics && db'.topics[t].lastServedAt == Some(at)
    ensures ServedOnly(aged, db', t, at)
  {
  }

  lemma ServedStamp(db: Sched, t: Id, input: TickInput)
    requires t in db.topics && input.limit > 0 && Work(db, t, input).served
    ensures t in Work(db, t, input).db.topics && Work(db, t, input).db.topics[t].lastServedAt == Some(input.servedAt)
  {
  }

  /** A serving tick selects a topic of the aged tables and serves only that one. */
  lemma ServingTick(db: Sched, input: TickInput) returns (aged: Sched, t: Id)
    requires SchedOk(db) && input.limit > 0 && Tick(db, input).served
    ensures aged == PromoteAgedTopics(db, input.promoteAt, input.agingThreshold)
    ensures Tick(db, input).selected == Some(t) && Selected(aged, t)
    ensures ServedOnly(aged, Tick(db, input).db, t, input.servedAt)
  {
    var prepared;
    aged, prepared := TickShape(db, input);
    t := Tick(db, input).selected.value;
    ServedStamp(prepared.value, t, input);
    WorkKeepsOk(prepared.value, t, input);
    ServedOnlyByTopic(aged, prepared.value, Work(prepared.value, t, input).db, t, input.servedAt);
  }

  lemma AgedTopics(db: Sched, now: int, threshold: int)
    requires threshold > 0
    ensures var aged := PromoteAgedTopics(db, now, threshold);
      && aged.nodes == db.nodes && aged.topics.Keys == db.topics.Keys
      && (forall x | x in db.topics :: aged.topics[x].lastServedAt == db.topics[x].lastServedAt
            && aged.topics[x].level == if Aged(db.topics[x], now, threshold) then PromoteLevel(db.topics[x].level) else db.topics[x].level)
  {
  }

  /** Serving x takes it out of every queue it was ahead in, and puts nobody else in. */
  lemma OlderShrinks(db: Sched, db': Sched, t: Id, x: Id, at: int)
    requires t in db.topics && x in db.topics && x != t && db'.topics.Keys == db.topics.Keys
    requires forall y | y in db.topics && y != x :: db'.topics[y].lastServedAt == db.topics[y].lastServedAt
    requires db'.topics[x].lastServedAt == Some(at)
    requires db.topics[t].lastServedAt.Some? ==> db.topics[t].lastServedAt.value < at
    ensures Older(db', t) == Older(db, t) - {x}
  {
    forall y | y in db.topics && y != x && y != t ensures GoesBefore(db', y, t) <==> GoesBefore(db, y, t) {
    }
    assert !GoesBefore(db', x, t);
  }

  /** The selected x goes before t, so either t still has levels to climb or x was ahead of it. */
  lemma PassedOver(db: Sched, aged: Sched, db': Sched, x: Id, t: Id, now: int, threshold: int, at: int)
    requires SchedOk(db) && threshold > 0 && aged == PromoteAgedTopics(db, now, threshold)
    requires Due(db, t, now, threshold) && ClockAfter(db, now) && now <= at
    requires Selected(aged, x) && x != t && HasRunnable(aged, t) && ServedOnly(aged, db', x, at)
    ensures t in db'.topics && Wait(db', t) < Wait(db, t) && db'.topics[t].lastServedAt == db.topics[t].lastServedAt
  {
    AgedTopics(db, now, threshold);
    OlderShrinks(db, db', t, x, at);
    assert TopicOk(db, t);
    assert TopicBefore(aged, x, t);
    if aged.topics[t].level == L0 {
      assert x in Older(db, t);
    }
  }

  /** Every serving tick that passes over a due and runnable topic shortens its wait. */
  lemma TickShortensWait(db: Sched, input: TickInput, t: Id)
    requires SchedOk(db) && input.limit > 0 && Tick(db, input).served && input.agingThreshold > 0
    requires Due(db, t, input.promoteAt, input.agingThreshold) && HasRunnable(db, t)
    requires ClockAfter(db, input.promoteAt) && input.promoteAt <= input.servedAt
    requires Tick(db, input).selected != Some(t)
    ensures var db' := Tick(db, input).db;
      t in db'.topics && Wait(db', t) < Wait(db, t) && db'.topics[t].lastServedAt == db.topics[t].lastServedAt
  {
    var aged, x := ServingTick(db, input);
    assert HasRunnable(aged, t);
    PassedOver(db, aged, Tick(db, input).db, x, t, input.promoteAt, input.agingThreshold, input.servedAt);
  }

  // Whole runs ---------------------------------------------------------------------------

  /** Later ticks read later clocks, and within a tick time does not go back. */
  ghost predicate ClockIncreases(steps: seq<Step>) {
    && (forall i | 0 <= i < |steps| && steps[i].TickStep? :: steps[i].input.promoteAt <= steps[i].input.servedAt)
    && (forall i, j | 0 <= i < j < |steps| && steps[i].TickStep? && steps[j].TickStep? ::
          steps[i].input.servedAt < steps[j].input.promoteAt)
  }

  /** Every recorded service time is the service time of an earlier tick. */
  ghost predicate StampedBy(db: Sched, steps: seq<Step>, k: nat)
    requires k <= |steps|
  {
    forall t | t in db.topics && db.topics[t].lastServedAt.Some? ::
      exists i :: 0 <= i < k && steps[i].TickStep? && steps[i].input.servedAt == db.topics[t].lastServedAt.value
  }

  lemma PrepareStamps(db: Sched, t: Id, input: TickInput)
    requires t in db.topics && Prepare(db, t, input).Some?
    ensures t in Prepare(db, t, input).value.topics && Prepare(db, t, input).value.topics[t].lastServedAt == db.topics[t].lastServedAt
  {
  }

  ghost predicate SameStamp(db: Sched, db': Sched, t: Id) {
    t in db.topics && t in db'.topics && db'.topics[t].lastServedAt == db.topics[t].lastServedAt
  }

  lemma FinishStamps(db: Sched, t: Id, n: Id, status: NodeStatus, at: int)
    requires t in db.topics
    ensures SameStamp(db, MarkNodeRunning(db, t, n), t) && SameStamp(db, MarkNodeFinished(db, t, n, status, at), t)
  {
  }

  lemma PlanStamps(db: Sched, t: Id, plan: seq<Assignment>, at: int, error: string)
    requires t in db.topics
    ensures SameStamp(db, ApplyPriorityPlan(db, t, plan, at), t) && SameStamp(db, ClearPriorityDirty(db, t, error), t)
  {
    AssignAllRows(db, t, plan, at);
  }

  lemma DispatchOneStamps(db: Sched, t: Id, n: Id, r: Reply)
    requires t in db.topics
    ensures SameStamp(db, DispatchOne(db, t, n, r).db, t)
  {
    if Key(t, n) in db.nodes {
      var isPriority := db.nodes[Key(t, n)].isPriority;
      var running := MarkNodeRunning(db, t, n);
      FinishStamps(db, t, n, Failed, 0);
      if !r.SessionFailed? {
        var status := if r.WorkerFailed? then Failed else ResolveNodeStatus(isPriority, r);
        FinishStamps(running, t, n, status, r.at);
        if r.Answered? {
          PlanStamps(MarkNodeFinished(running, t, n, status, r.at), t, BuildPriorityPlan(LoadPriorityCandidates(running, t)), r.at,
                     PassError(r.error));
        }
      }
    }
  }

  lemma {:induction false} DispatchAllStamps(db: Sched, t: Id, ids: seq<Id>, replies: nat -> Reply)
    requires t in db.topics
    ensures SameStamp(db, DispatchAll(db, t, ids, replies).db, t)
    decreases |ids|
  {
    if ids != [] {
      DispatchAllStamps(db, t, ids[..|ids| - 1], replies);
      var before := DispatchAll(db, t, ids[..|ids| - 1], replies);
      DispatchOneStamps(before.db, t, ids[|ids| - 1], replies(|ids| - 1));
    }
  }

  /** Every service time in db' was there in db or is the given one. */
  ghost predicate StampsFrom(db: Sched, db': Sched, at: int) {
    forall t | t in db'.topics && db'.topics[t].lastServedAt.Some? ::
      SameStamp(db, db', t) || db'.topics[t].lastServedAt == Some(at)
  }

  lemma WorkStamps(db: Sched, t: Id, input: TickInput)
    requires t in db.topics && input.limit > 0
    ensures var db' := Work(db, t, input).db; SameStamp(db, db', t) || (t in db'.topics && db'.topics[t].lastServedAt == Some(input.servedAt))
  {
    DispatchAllStamps(db, t, PlannedFor(db, t, input.limit), input.replies);
  }

  lemma StampsByTopic(db: Sched, aged: Sched, prepared: Sched, db': Sched, t: Id, at: int)
    requires aged.topics.Keys == db.topics.Keys && forall x | x in db.topics :: SameStamp(db, aged, x)
    requires OnlyTopic(aged, prepared, t) && SameStamp(aged, prepared, t) && OnlyTopic(prepared, db', t)
    requires SameStamp(prepared, db', t) || (t in db'.topics && db'.topics[t].lastServedAt == Some(at))
    ensures StampsFrom(db, db', at)
  {
  }

  /** Any tick, served or not. */
  lemma TickStamps(db: Sched, input: TickInput)
    requires SchedOk(db) && input.limit > 0
    ensures StampsFrom(db, Tick(db, input).db, input.servedAt)
  {
    var aged, prepared := TickShape(db, input);
    assert forall x | x in db.topics :: SameStamp(db, aged, x);
    var selected := Tick(db, input).selected;
    if selected.Some? && prepared.Some? {
      WorkKeepsOk(prepared.value, selected.value, input);
      PrepareStamps(aged, selected.value, input);
      WorkStamps(prepared.value, selected.value, input);
      StampsByTopic(db, aged, prepared.value, Work(prepared.value, selected.value, input).db, selected.value, input.servedAt);
    }
  }

  lemma EnqueueTopics(db: Sched, r: EnqueueRequest, arrival: Arrival, t: Id)
    requires t in Enqueue(db, r, arrival).0.topics
    ensures var db' := Enqueue(db, r, arrival).0;
      if t in db.topics then db'.topics[t].lastServedAt == db.topics[t].lastServedAt && db'.topics[t].level == db.topics[t].level
      else db'.topics[t].lastServedAt.None?
  {
  }

  ghost predicate StepStampsFrom(db: Sched, step: Step, db': Sched) {
    if step.TickStep? then StampsFrom(db, db', step.input.servedAt)
    else forall t | t in db'.topics :: SameStamp(db, db', t) || db'.topics[t].lastServedAt.None?
  }

  lemma EnqueueStamps(db: Sched, r: EnqueueRequest, arrival: Arrival)
    ensures var db' := Enqueue(db, r, arrival).0; forall t | t in db'.topics :: SameStamp(db, db', t) || db'.topics[t].lastServedAt.None?
  {
    var db' := Enqueue(db, r, arrival).0;
    forall t | t in db'.topics ensures SameStamp(db, db', t) || db'.topics[t].lastServedAt.None? {
      EnqueueTopics(db, r, arrival, t);
    }
  }

  lemma StepStamps(db: Sched, step: Step)
    requires SchedOk(db) && (step.TickStep? ==> step.input.limit > 0)
    ensures StepStampsFrom(db, step, Apply(db, step))
  {
    match step
    case EnqueueStep(r, arrival) => EnqueueStamps(db, r, arrival);
    case TickStep(input) => TickStamps(db, input);
  }

  lemma StampedOneMore(db: Sched, db': Sched, steps: seq<Step>, k: nat)
    requires k < |steps| && StampedBy(db, steps, k) && StepStampsFrom(db, steps[k], db')
    ensures StampedBy(db', steps, k + 1)
  {
    forall t | t in db'.topics && db'.topics[t].lastServedAt.Some?
      ensures exists i :: 0 <= i < k + 1 && steps[i].TickStep? && steps[i].input.servedAt == db'.topics[t].lastServedAt.value
    {
      if SameStamp(db, db', t) {
        var i :| 0 <= i < k && steps[i].TickStep? && steps[i].input.servedAt == db.topics[t].lastServedAt.value;
      }
    }
  }

  lemma {:induction false} EveryStateStamped(states: seq<Sched>, steps: seq<Step>, k: nat)
    requires IsRun(states, steps) && k < |states|
    ensures StampedBy(states[k], steps, k)
  {
    if k > 0 {
      EveryStateStamped(states, steps, k - 1);
      EveryStateOk(states, steps, k - 1);
      RunStep(states, steps, k - 1);
      StepStamps(states[k - 1], steps[k - 1]);
      StampedOneMore(states[k - 1], states[k], steps, k - 1);
    }
  }

  ghost predicate ClockFine(db: Sched, step: Step) {
    step.TickStep? ==> ClockAfter(db, step.input.promoteAt) && step.input.promoteAt <= step.input.servedAt
  }

  lemma ClockIsAfter(states: seq<Sched>, steps: seq<Step>, k: nat)
    requires IsRun(states, steps) && ClockIncreases(steps) && k < |steps|
    ensures ClockFine(states[k], steps[k])
  {
    EveryStateStamped(states, steps, k);
  }

  /** Steps a..b of a run keep the topics, serve at every tick, and keep t runnable at every tick. */
  ghost predicate ServingWindow(states: seq<Sched>, steps: seq<Step>, a: nat, b: nat, t: Id, threshold: int) {
    && a <= b < |states| == |steps| + 1 && threshold > 0
    && (forall k | a <= k < b && steps[k].TickStep? :: steps[k].input.limit > 0)
    && (forall k | a <= k <= b :: states[k].topics.Keys == states[a].topics.Keys)
    && (forall k | a <= k < b && steps[k].TickStep? ::
          steps[k].input.agingThreshold == threshold && Tick(states[k], steps[k].input).served && HasRunnable(states[k], t))
  }

  ghost predicate Serves(db: Sched, step: Step, t: Id) {
    step.TickStep? && step.input.limit > 0 && Tick(db, step.input).served && Tick(db, step.input).selected == Some(t)
  }

  ghost function TickCount(steps: seq<Step>, a: nat, b: nat): nat
    requires a <= b <= |steps|
  {
    if a == b then 0 else TickCount(steps, a, b - 1) + if steps[b - 1].TickStep? then 1 else 0
  }

  ghost predicate DueFrom(states: seq<Sched>, steps: seq<Step>, a: nat, t: Id, threshold: int)
    requires a < |states| == |steps| + 1
  {
    t in states[a].topics &&
    (states[a].topics[t].lastServedAt.None? ||
     (a < |steps| && steps[a].TickStep? && Aged(states[a].topics[t], steps[a].input.promoteAt, threshold)))
  }

  lemma OlderUnderEnqueue(db: Sched, r: EnqueueRequest, arrival: Arrival, t: Id)
    requires t in db.topics && Enqueue(db, r, arrival).0.topics.Keys == db.topics.Keys
    ensures Wait(Enqueue(db, r, arrival).0, t) == Wait(db, t)
  {
    var db' := Enqueue(db, r, arrival).0;
    forall x | x in db.topics ensures db'.topics[x].lastServedAt == db.topics[x].lastServedAt && db'.topics[x].level == db.topics[x].level {
      EnqueueTopics(db, r, arrival, x);
    }
    assert Older(db', t) == Older(db, t);
  }

  /** If it is a tick, it serves, and t has something to run. */
  ghost predicate Serving(db: Sched, step: Step, t: Id, threshold: int) {
    step.TickStep? ==>
      step.input.limit > 0 && step.input.agingThreshold == threshold && Tick(db, step.input).served && HasRunnable(db, t)
  }

  ghost predicate DueAt(db: Sched, step: Step, t: Id, threshold: int) {
    step.TickStep? ==> Due(db, t, step.input.promoteAt, threshold)
  }

  /** t keeps its service time, and a tick brings it nearer. */
  ghost predicate Nearer(db: Sched, tick: bool, db': Sched, t: Id) {
    SameStamp(db, db', t) && Wait(db', t) + (if tick then 1 else 0) <= Wait(db, t)
  }

  lemma StepShortensWait(db: Sched, step: Step, db': Sched, t: Id, threshold: int)
    requires SchedOk(db) && t in db.topics && threshold > 0 && db'.topics.Keys == db.topics.Keys
    requires ClockFine(db, step) && DueAt(db, step, t, threshold) && Serving(db, step, t, threshold)
    requires !Serves(db, step, t) && db' == Apply(db, step)
    ensures Nearer(db, step.TickStep?, db', t)
  {
    match step {
      case EnqueueStep(r, arrival) =>
        OlderUnderEnqueue(db, r, arrival, t);
        EnqueueTopics(db, r, arrival, t);
      case TickStep(input) =>
        TickShortensWait(db, input, t);
    }
  }

  lemma StillDue(states: seq<Sched>, steps: seq<Step>, a: nat, k: nat, t: Id, threshold: int)
    requires ClockIncreases(steps) && a <= k < |steps| && |states| == |steps| + 1
    requires DueFrom(states, steps, a, t, threshold) && SameStamp(states[a], states[k], t)
    ensures DueAt(states[k], steps[k], t, threshold)
  {
  }

  lemma InWindow(states: seq<Sched>, steps: seq<Step>, a: nat, b: nat, k: nat, t: Id, threshold: int)
    requires ServingWindow(states, steps, a, b, t, threshold) && a <= k < b
    ensures Serving(states[k], steps[k], t, threshold) && states[k].topics.Keys == states[k + 1].topics.Keys
  {
  }

  lemma WindowStep(states: seq<Sched>, steps: seq<Step>, a: nat, b: nat, k: nat, t: Id, threshold: int)
    requires IsRun(states, steps) && ClockIncreases(steps) && ServingWindow(states, steps, a, b, t, threshold)
    requires DueFrom(states, steps, a, t, threshold) && a <= k < b && SameStamp(states[a], states[k], t)
    requires !Serves(states[k], steps[k], t)
    ensures Nearer(states[k], steps[k].TickStep?, states[k + 1], t)
  {
    InWindow(states, steps, a, b, k, t, threshold);
    EveryStateOk(states, steps, k);
    ClockIsAfter(states, steps, k);
    StillDue(states, steps, a, k, t, threshold);
    RunStep(states, steps, k);
    StepShortensWait(states[k], steps[k], states[k + 1], t, threshold);
  }

  ghost predicate Fallen(first: Sched, ticks: nat, db: Sched, t: Id) {
    SameStamp(first, db, t) && Wait(db, t) + ticks <= Wait(first, t)
  }

  lemma FallenOneMore(first: Sched, ticks: nat, db: Sched, tick: bool, db': Sched, t: Id)
    requires Fallen(first, ticks, db, t) && Nearer(db, tick, db', t)
    ensures Fallen(first, ticks + if tick then 1 else 0, db', t)
  {
  }

  lemma {:induction false} CountDown(states: seq<Sched>, steps: seq<Step>, a: nat, b: nat, t: Id)
    requires a <= b < |states| == |steps| + 1 && t in states[a].topics
    requires forall k {:trigger steps[k]} | a <= k < b && SameStamp(states[a], states[k], t) :: Nearer(states[k], steps[k].TickStep?, states[k + 1], t)
    ensures Fallen(states[a], TickCount(steps, a, b), states[b], t)
    decreases b
  {
    if a < b {
      CountDown(states, steps, a, b - 1, t);
      FallenOneMore(states[a], TickCount(steps, a, b - 1), states[b - 1], steps[b - 1].TickStep?, states[b], t);
    }
  }

  /** As long as t is passed over, its wait falls by one with every tick. */
  lemma WaitFalls(states: seq<Sched>, steps: seq<Step>, a: nat, b: nat, t: Id, threshold: int)
    requires IsRun(states, steps) && ClockIncreases(steps) && ServingWindow(states, steps, a, b, t, threshold)
    requires DueFrom(states, steps, a, t, threshold)
    requires forall i | a <= i < b :: !Serves(states[i], steps[i], t)
    ensures Fallen(states[a], TickCount(steps, a, b), states[b], t)
  {
    forall k {:trigger steps[k]} | a <= k < b && SameStamp(states[a], states[k], t)
      ensures Nearer(states[k], steps[k].TickStep?, states[k + 1], t)
    {
      WindowStep(states, steps, a, b, k, t, threshold);
    }
    CountDown(states, steps, a, b, t);
  }

  /** An aged topic that stays runnable is served within n + 2 ticks. */
  lemma BoundedStarvation(states: seq<Sched>, steps: seq<Step>, a: nat, b: nat, t: Id, threshold: int)
    requires IsRun(states, steps) && ClockIncreases(steps)
    requires ServingWindow(states, steps, a, b, t, threshold) && a < |steps| && steps[a].TickStep?
    requires t in states[a].topics && Aged(states[a].topics[t], steps[a].input.promoteAt, threshold)
    requires TickCount(steps, a, b) >= |states[a].topics| + 2
    ensures exists k :: a <= k < b && Serves(states[k], steps[k], t)
  {
    EveryStateOk(states, steps, a);
    WaitBound(states[a], t);
    if forall k | a <= k < b :: !Serves(states[k], steps[k], t) {
      WaitFalls(states, steps, a, b, t, threshold);
    }
  }

  /** A topic that was never served is at the top level, and is served within n ticks. */
  lemma NeverServedIsServed(states: seq<Sched>, steps: seq<Step>, a: nat, b: nat, t: Id, threshold: int)
    requires IsRun(states, steps) && ClockIncreases(steps)
    requires ServingWindow(states, steps, a, b, t, threshold)
    requires t in states[a].topics && states[a].topics[t].lastServedAt.None?
    requires TickCount(steps, a, b) >= |states[a].topics|
    ensures states[a].topics[t].level == L0
    ensures exists k :: a <= k < b && Serves(states[k], steps[k], t)
  {
    EveryStateOk(states, steps, a);
    WaitBound(states[a], t);
    assert TopicOk(states[a], t);
    if forall k | a <= k < b :: !Serves(states[k], steps[k], t) {
      WaitFalls(states, steps, a, b, t, threshold);
    }
  }
}
