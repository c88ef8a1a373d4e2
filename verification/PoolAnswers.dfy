/**
  What an Invoke leaves behind and answers, in every interleaving: the provider's output or the
  error that ended it, on the invocation and on each attempt, and which errors were retried.
 */
module PoolAnswers {
  import opened Prelude
  import opened PoolModel
  import opened PoolInvariants
  import opened PoolRetry
  import opened PoolSystem
  import opened PoolTermination

  // Which rows a step writes ---------------------------------------------------------------

  /** The invocation that a step's transaction is about. */
  function Touched(s: System, step: Step): Option<Id> {
    match step
    case Sync(_) => None
    case Begin(_, _, _, _, newId, _) => Some(newId)
    case _ => if ProcOf(step).Some? && ProcOf(step).value in s.procs then Some(InvocationOf(s.procs[ProcOf(step).value].phase)) else None
  }

  /** All rows of invocation i, its attempts included, are as they were. */
  ghost predicate SameInvocation(db: Db, db': Db, i: Id) {
    && (i in db.invocations ==> i in db'.invocations && db'.invocations[i] == db.invocations[i])
    && (forall a | a in db.attempts && db.attempts[a].invocationId == i :: a in db'.attempts && db'.attempts[a] == db.attempts[a])
    && (forall a | a in db'.attempts && db'.attempts[a].invocationId == i :: a in db.attempts && db.attempts[a] == db'.attempts[a])
  }

  lemma SameByOthersKept(db: Db, db': Db, changed: Id, i: Id)
    requires OthersKept(db, db', changed) && i != changed
    ensures SameInvocation(db, db', i)
  {
  }

  lemma CompletionKeepsOthers(s: System, step: Step)
    requires SystemOk(s) && Enabled(s, step) && (step.Succeed? || step.ProviderFails? || step.InternalFailure?)
    ensures OthersKept(s.db, Apply(s, step).db, InvocationOf(s.procs[step.proc].phase))
  {
    var p := s.procs[step.proc];
    match step
    case Succeed(_, output, now, _) => SucceededProcessOk(s.db, p, output, now);
    case ProviderFails(_, e, now, _) => FailedProcessOk(s.db, p, e, now);
    case InternalFailure(_, message, now, _) => FailedProcessOk(s.db, p, InternalError(message), now);
  }

  lemma RetryKeepsOthers(s: System, step: Step)
    requires SystemOk(s) && Enabled(s, step) && (step.Retry? || step.BackoffInterrupted?)
    ensures OthersKept(s.db, Apply(s, step).db, InvocationOf(s.procs[step.proc].phase))
  {
    if step.Retry? {
      RetriedProcessOk(s.db, s.procs[step.proc], step.attemptId);
    }
  }

  lemma BeginKeepsOthers(s: System, step: Step)
    requires SystemOk(s) && Enabled(s, step) && step.Begin?
    ensures OthersKept(s.db, Apply(s, step).db, step.newId)
  {
    ReserveKeepsCoherent(s.db, step.config, step.request, None, step.newId, step.attemptId);
  }

  lemma FinishKeepsOthers(s: System, step: Step)
    requires SystemOk(s) && Enabled(s, step) && step.Finish?
    ensures OthersKept(s.db, Apply(s, step).db, InvocationOf(s.procs[step.proc].phase))
  {
    var p := s.procs[step.proc];
    assert ProcessOk(s.db, p);
    InvocationFailureKeepsCoherent(s.db, p.phase.invocation, p.phase.error, step.now);
  }

  lemma OwnRowsOnly(s: System, step: Step)
    requires SystemOk(s) && Enabled(s, step) && !step.Sync? && !step.Begin?
    ensures ProcOf(step).Some? && ProcOf(step).value in s.procs
    ensures OthersKept(s.db, Apply(s, step).db, InvocationOf(s.procs[ProcOf(step).value].phase))
  {
    match step
    case Succeed(_, _, _, _) => CompletionKeepsOthers(s, step);
    case ProviderFails(_, _, _, _) => CompletionKeepsOthers(s, step);
    case InternalFailure(_, _, _, _) => CompletionKeepsOthers(s, step);
    case BackoffInterrupted(_, _, _) => RetryKeepsOthers(s, step);
    case Retry(_, _, _, _) => RetryKeepsOthers(s, step);
    case Finish(_, _, _) => FinishKeepsOthers(s, step);
  }

  lemma StepKeepsOthers(s: System, step: Step, i: Id)
    requires SystemOk(s) && Enabled(s, step) && Touched(s, step) != Some(i)
    ensures SameInvocation(s.db, Apply(s, step).db, i)
  {
    if step.Sync? {
      SyncKeepsCoherent(s.db, step.config);
    } else if step.Begin? {
      BeginKeepsOthers(s, step);
      SameByOthersKept(s.db, Apply(s, step).db, step.newId, i);
    } else {
      OwnRowsOnly(s, step);
      SameByOthersKept(s.db, Apply(s, step).db, InvocationOf(s.procs[ProcOf(step).value].phase), i);
    }
  }

  /** Steps of others are not about the invocation of p. */
  lemma OthersTouchOthers(s: System, step: Step, p: nat)
    requires SystemOk(s) && Enabled(s, step) && p in s.procs && ProcOf(step) != Some(p)
    ensures Touched(s, step) != Some(InvocationOf(s.procs[p].phase))
  {
    assert ProcessOk(s.db, s.procs[p]);
  }

  /** Process p has ended, and its invocation is as in db. */
  ghost predicate Settled(db: Db, p: Process, s: System, proc: nat) {
    proc in s.procs && s.procs[proc] == p && Ended(p) && SameInvocation(db, s.db, InvocationOf(p.phase))
  }

  lemma SameTransitive(a: Db, b: Db, c: Db, i: Id)
    requires SameInvocation(a, b, i) && SameInvocation(b, c, i)
    ensures SameInvocation(a, c, i)
  {
  }

  lemma EndedStands(s: System, step: Step, proc: nat)
    requires SystemOk(s) && Enabled(s, step) && proc in s.procs && Ended(s.procs[proc])
    ensures proc in Apply(s, step).procs && Apply(s, step).procs[proc] == s.procs[proc]
    ensures SameInvocation(s.db, Apply(s, step).db, InvocationOf(s.procs[proc].phase))
  {
    assert ProcOf(step) != Some(proc) by {
      if ProcOf(step) == Some(proc) { EndedIsEnd(s, proc, step); }
    }
    OthersStand(s, step, proc);
    OthersTouchOthers(s, step, proc);
    StepKeepsOthers(s, step, InvocationOf(s.procs[proc].phase));
  }

  lemma SettledStep(db: Db, p: Process, s: System, proc: nat, step: Step)
    requires SystemOk(s) && Enabled(s, step) && Settled(db, p, s, proc)
    ensures Settled(db, p, Apply(s, step), proc)
  {
    EndedStands(s, step, proc);
    SameTransitive(db, s.db, Apply(s, step).db, InvocationOf(p.phase));
  }

  /** Once an Invoke has ended, nothing touches its rows again. */
  lemma {:induction false} EndedForGood(states: seq<System>, steps: seq<Step>, a: nat, b: nat, p: nat)
    requires IsRun(states, steps) && a <= b < |states| && p in states[a].procs && Ended(states[a].procs[p])
    ensures Settled(states[a].db, states[a].procs[p], states[b], p)
    decreases b
  {
    if a < b {
      EndedForGood(states, steps, a, b - 1, p);
      EveryStateOk(states, steps, b - 1);
      assert StepAt(states, steps, b - 1);
      SettledStep(states[a].db, states[a].procs[p], states[b - 1], p, steps[b - 1]);
    }
  }

  // The answers ----------------------------------------------------------------------------

  /** The row of an answered invocation. */
  ghost predicate Answered(before: InvocationRow, row: InvocationRow, output: Option<string>, now: int) {
    && row.status == RunStatus.Succeeded && row.output == output && row.error == None && row.finishedAt == Some(now)
    && row.requestId == before.requestId && row.nodeId == before.nodeId && row.apiId == before.apiId
  }

  /** The row of a failed one. */
  ghost predicate FailedWith(before: InvocationRow, row: InvocationRow, e: GatewayError, now: int) {
    && row.status == RunStatus.Failed && row.output == None && row.error == Some(e) && row.finishedAt == Some(now)
    && row.requestId == before.requestId && row.nodeId == before.nodeId && row.apiId == before.apiId
  }

  lemma SuccessWrites(db: Db, r: Reservation, output: Option<string>, now: int)
    requires Coherent(db) && Holds(db, r)
    ensures var result := CompleteSuccess(db, r, output, now);
      && result.Ok? && r.invocationId in db.invocations && r.invocationId in result.value.invocations
      && Answered(db.invocations[r.invocationId], result.value.invocations[r.invocationId], output, now)
      && r.attemptId in result.value.attempts
      && result.value.attempts[r.attemptId] == AttemptRow(r.invocationId, r.apiId, RunStatus.Succeeded, Some(now), None)
  {
    HolderFindsItsLease(db, r);
  }

  lemma FailureWrites(db: Db, r: Reservation, e: GatewayError, now: int)
    requires Coherent(db) && Holds(db, r)
    ensures var result := CompleteAttemptFailure(db, r, e, now);
      && result.Ok? && r.attemptId in result.value.attempts
      && result.value.attempts[r.attemptId] == AttemptRow(r.invocationId, r.apiId, RunStatus.Failed, Some(now), Some(e))
  {
    HolderFindsItsLease(db, r);
  }

  lemma CloseWrites(db: Db, i: Id, e: GatewayError, now: int)
    requires i in db.invocations
    ensures var result := CompleteInvocationFailure(db, i, e, now);
      result.Ok? && i in result.value.invocations && FailedWith(db.invocations[i], result.value.invocations[i], e, now)
  {
  }

  lemma SucceedStepWrites(s: System, step: Step)
    requires SystemOk(s) && Enabled(s, step) && step.Succeed? && step.commits
    ensures var v := InvocationOf(s.procs[step.proc].phase); var s' := Apply(s, step);
      && step.proc in s'.procs && s'.procs[step.proc].phase.Returned? && InvocationOf(s'.procs[step.proc].phase) == v
      && v in s.db.invocations && v in s'.db.invocations
      && Answered(s.db.invocations[v], s'.db.invocations[v], step.output, step.now)
  {
    assert ProcessOk(s.db, s.procs[step.proc]);
    SuccessWrites(s.db, s.procs[step.proc].phase.reservation, step.output, step.now);
  }

  /** After a committed success the invocation carries the provider's output in every later state. */
  lemma SuccessIsAnswered(states: seq<System>, steps: seq<Step>, i: nat, after: nat, j: nat)
    requires IsRun(states, steps) && after == i + 1 <= j < |states| && steps[i].Succeed? && steps[i].commits
    ensures Enabled(states[i], steps[i])
    ensures var v := InvocationOf(states[i].procs[steps[i].proc].phase);
      && v in states[i].db.invocations && v in states[j].db.invocations
      && Answered(states[i].db.invocations[v], states[j].db.invocations[v], steps[i].output, steps[i].now)
  {
    EveryStateOk(states, steps, i);
    assert StepAt(states, steps, i);
    SucceedStepWrites(states[i], steps[i]);
    EndedForGood(states, steps, after, j, steps[i].proc);
  }

  lemma FinishApplies(s: System, step: Step)
    requires Enabled(s, step) && step.Finish? && step.commits && s.procs[step.proc].phase.invocation in s.db.invocations
    ensures step.proc in Apply(s, step).procs && Apply(s, step).procs[step.proc].phase == Returned(s.procs[step.proc].phase.invocation, s.procs[step.proc].phase.slept)
    ensures CompleteInvocationFailure(s.db, s.procs[step.proc].phase.invocation, s.procs[step.proc].phase.error, step.now) == Ok(Apply(s, step).db)
  {
  }

  lemma FinishStepWrites(s: System, step: Step)
    requires SystemOk(s) && Enabled(s, step) && step.Finish? && step.commits
    ensures var v := InvocationOf(s.procs[step.proc].phase); var s' := Apply(s, step);
      && step.proc in s'.procs && s'.procs[step.proc].phase.Returned? && InvocationOf(s'.procs[step.proc].phase) == v
      && v in s.db.invocations && v in s'.db.invocations
      && FailedWith(s.db.invocations[v], s'.db.invocations[v], s.procs[step.proc].phase.error, step.now)
  {
    var phase := s.procs[step.proc].phase;
    assert ProcessOk(s.db, s.procs[step.proc]);
    CloseWrites(s.db, phase.invocation, phase.error, step.now);
    FinishApplies(s, step);
  }

  /** After a committed close it carries the error that the process ended on. */
  lemma FailureIsAnswered(states: seq<System>, steps: seq<Step>, i: nat, after: nat, j: nat)
    requires IsRun(states, steps) && after == i + 1 <= j < |states| && steps[i].Finish? && steps[i].commits
    ensures Enabled(states[i], steps[i])
    ensures var p := states[i].procs[steps[i].proc]; var v := InvocationOf(p.phase);
      && v in states[i].db.invocations && v in states[j].db.invocations
      && FailedWith(states[i].db.invocations[v], states[j].db.invocations[v], p.phase.error, steps[i].now)
  {
    EveryStateOk(states, steps, i);
    assert StepAt(states, steps, i);
    FinishStepWrites(states[i], steps[i]);
    EndedForGood(states, steps, after, j, steps[i].proc);
  }

  // Attempts -------------------------------------------------------------------------------

  ghost predicate AttemptKept(db: Db, db': Db, a: Id) {
    a in db.attempts ==>
      && a in db'.attempts && db'.attempts[a].invocationId == db.attempts[a].invocationId
      && (db.attempts[a].status != Running ==> db'.attempts[a] == db.attempts[a])
  }

  lemma ReserveKeepsAttempts(db: Db, c: ModelConfig, request: Request, retryOf: Option<Id>, newId: Id, attempt: Id, a: Id)
    requires attempt !in db.attempts
    ensures var r := ReserveTx(db, c, request, retryOf, newId, attempt); r.Ok? ==> AttemptKept(db, r.value.0, a)
  {
  }

  lemma CompletionKeepsAttempts(db: Db, r: Reservation, output: Option<string>, e: GatewayError, now: int, a: Id)
    requires Coherent(db) && Holds(db, r)
    ensures CompleteSuccess(db, r, output, now).Ok? && AttemptKept(db, CompleteSuccess(db, r, output, now).value, a)
    ensures CompleteAttemptFailure(db, r, e, now).Ok? && AttemptKept(db, CompleteAttemptFailure(db, r, e, now).value, a)
  {
    HolderFindsItsLease(db, r);
  }

  /** Attempts are never lost, and a finished one never changes. */
  lemma StepKeepsAttempts(s: System, step: Step, a: Id)
    requires SystemOk(s) && Enabled(s, step)
    ensures AttemptKept(s.db, Apply(s, step).db, a)
  {
    match step {
      case Begin(_, c, request, _, newId, attemptId) => ReserveKeepsAttempts(s.db, c, request, None, newId, attemptId, a);
      case Succeed(p, output, now, _) =>
        assert ProcessOk(s.db, s.procs[p]);
        CompletionKeepsAttempts(s.db, s.procs[p].phase.reservation, output, InternalError(""), now, a);
      case ProviderFails(p, e, now, _) =>
        assert ProcessOk(s.db, s.procs[p]);
        CompletionKeepsAttempts(s.db, s.procs[p].phase.reservation, None, e, now, a);
      case InternalFailure(p, message, now, _) =>
        assert ProcessOk(s.db, s.procs[p]);
        CompletionKeepsAttempts(s.db, s.procs[p].phase.reservation, None, InternalError(message), now, a);
      case Retry(p, attemptId, _, _) =>
        var w := s.procs[p].phase;
        ReserveKeepsAttempts(s.db, s.procs[p].config, s.procs[p].request, Some(w.invocation), w.invocation, attemptId, a);
      case _ =>
    }
  }

  lemma {:induction false} RunKeepsAttempts(states: seq<System>, steps: seq<Step>, i: nat, j: nat, a: Id)
    requires IsRun(states, steps) && i <= j < |states|
    ensures AttemptKept(states[i].db, states[j].db, a)
    decreases j
  {
    if i < j {
      RunKeepsAttempts(states, steps, i, j - 1, a);
      EveryStateOk(states, steps, j - 1);
      assert StepAt(states, steps, j - 1);
      StepKeepsAttempts(states[j - 1], steps[j - 1], a);
    }
  }

  /** A committed provider failure is on record on its attempt for good. */
  lemma AttemptErrorIsRecorded(states: seq<System>, steps: seq<Step>, i: nat, after: nat, j: nat)
    requires IsRun(states, steps) && after == i + 1 <= j < |states| && steps[i].ProviderFails? && steps[i].commits
    ensures Enabled(states[i], steps[i])
    ensures var r := states[i].procs[steps[i].proc].phase.reservation;
      r.attemptId in states[j].db.attempts
      && states[j].db.attempts[r.attemptId] == AttemptRow(r.invocationId, r.apiId, RunStatus.Failed, Some(steps[i].now), Some(steps[i].error))
  {
    EveryStateOk(states, steps, i);
    assert StepAt(states, steps, i);
    assert ProcessOk(states[i].db, states[i].procs[steps[i].proc]);
    var r := states[i].procs[steps[i].proc].phase.reservation;
    FailureWrites(states[i].db, r, steps[i].error, steps[i].now);
    RunKeepsAttempts(states, steps, after, j, r.attemptId);
  }

  // Which errors are retried ---------------------------------------------------------------

  /** A provider error is retried if it is retryable, the request does not stream and attempts are left. */
  lemma ProviderFailureLeads(states: seq<System>, steps: seq<Step>, i: nat, after: nat)
    requires IsRun(states, steps) && after == i + 1 <= |steps| && steps[i].ProviderFails? && steps[i].commits
    ensures Enabled(states[i], steps[i]) && steps[i].proc in states[after].procs
    ensures var p, e := states[i].procs[steps[i].proc], steps[i].error; var h := p.phase;
      states[after].procs[steps[i].proc].phase ==
        if !p.request.streaming && h.attempt < p.policy.maxAttempts && e.retryable
        then Waiting(h.reservation.invocationId, h.attempt, h.slept, e)
        else Finishing(h.reservation.invocationId, h.slept, e)
  {
    EveryStateOk(states, steps, i);
    assert StepAt(states, steps, i);
    assert ProcessOk(states[i].db, states[i].procs[steps[i].proc]);
    CompletionLeads(states[i], steps[i]);
  }

  predicate RetryableFailure(row: AttemptRow) {
    row.status == RunStatus.Failed && row.error.Some? && row.error.value.retryable
  }

  /** All attempts of invocation i except one were retryable failures. */
  ghost predicate RetriedBut(db: Db, i: Id, last: Option<Id>) {
    forall a | a in db.attempts && db.attempts[a].invocationId == i && last != Some(a) :: RetryableFailure(db.attempts[a])
  }

  ghost predicate History(db: Db, p: Process) {
    match p.phase
    case Holding(r, _, _) => RetriedBut(db, r.invocationId, Some(r.attemptId))
    case Waiting(i, _, _, _) => RetriedBut(db, i, None)
    case _ => true
  }

  ghost predicate Histories(s: System) {
    forall p | p in s.procs :: History(s.db, s.procs[p])
  }

  lemma HistoryFrame(db: Db, db': Db, p: Process)
    requires History(db, p) && SameInvocation(db, db', InvocationOf(p.phase))
    ensures History(db', p)
  {
  }

  /** A new invocation has its one attempt only. */
  lemma FirstAttemptOnly(db: Db, c: ModelConfig, request: Request, newId: Id, attempt: Id)
    requires Coherent(db) && newId !in db.invocations && attempt !in db.attempts
    ensures var r := ReserveTx(db, c, request, None, newId, attempt);
      r.Ok? ==> AttemptsOf(r.value.0, newId) == {attempt} && r.value.1.invocationId == newId && r.value.1.attemptId == attempt
  {
    var r := ReserveTx(db, c, request, None, newId, attempt);
    if r.Ok? {
      ReserveKeepsCoherent(db, c, request, None, newId, attempt);
      assert |AttemptsOf(db, newId)| == 0 by { assert AttemptsOf(db, newId) == {}; }
      assert attempt in AttemptsOf(r.value.0, newId);
      OneMember(AttemptsOf(r.value.0, newId), attempt);
    }
  }

  lemma OneMember(s: set<Id>, x: Id)
    requires x in s && |s| == 1
    ensures s == {x}
  {
    SubsetCardinality({x}, s);
  }

  lemma OnlyLast(db: Db, i: Id, last: Id)
    requires AttemptsOf(db, i) == {last}
    ensures RetriedBut(db, i, Some(last))
  {
    forall a | a in db.attempts && db.attempts[a].invocationId == i ensures a == last {
      assert a in AttemptsOf(db, i);
    }
  }

  lemma BeginHistory(s: System, step: Step)
    requires SystemOk(s) && Enabled(s, step) && step.Begin? && step.proc in Apply(s, step).procs
    ensures History(Apply(s, step).db, Apply(s, step).procs[step.proc])
  {
    FirstAttemptOnly(s.db, step.config, step.request, step.newId, step.attemptId);
    OnlyLast(Apply(s, step).db, step.newId, step.attemptId);
  }

  lemma FailureHistory(db: Db, r: Reservation, e: GatewayError, now: int)
    requires Coherent(db) && Holds(db, r) && RetriedBut(db, r.invocationId, Some(r.attemptId)) && e.retryable
    ensures CompleteAttemptFailure(db, r, e, now).Ok? && RetriedBut(CompleteAttemptFailure(db, r, e, now).value, r.invocationId, None)
  {
    HolderFindsItsLease(db, r);
  }

  lemma RetryHistory(db: Db, c: ModelConfig, request: Request, i: Id, attempt: Id)
    requires attempt !in db.attempts && RetriedBut(db, i, None)
    ensures var r := ReserveTx(db, c, request, Some(i), i, attempt);
      r.Ok? ==> r.value.1.attemptId == attempt && r.value.1.invocationId == i && RetriedBut(r.value.0, i, Some(attempt))
  {
  }

  lemma FailedApplies(s: System, step: Step)
    requires Enabled(s, step) && step.ProviderFails? && step.commits
    requires CompleteAttemptFailure(s.db, s.procs[step.proc].phase.reservation, step.error, step.now).Ok?
    ensures Apply(s, step).db == CompleteAttemptFailure(s.db, s.procs[step.proc].phase.reservation, step.error, step.now).value
  {
  }

  lemma FailedHistory(s: System, step: Step)
    requires SystemOk(s) && Enabled(s, step) && step.ProviderFails? && History(s.db, s.procs[step.proc])
    ensures step.proc in Apply(s, step).procs && History(Apply(s, step).db, Apply(s, step).procs[step.proc])
  {
    CompletionLeads(s, step);
    if step.commits && step.error.retryable {
      assert ProcessOk(s.db, s.procs[step.proc]);
      FailureHistory(s.db, s.procs[step.proc].phase.reservation, step.error, step.now);
      FailedApplies(s, step);
    } else {
      assert !AfterCompletion(s.procs[step.proc], step).Waiting?;
    }
  }

  lemma RetriedHistory(s: System, step: Step)
    requires Enabled(s, step) && step.Retry? && History(s.db, s.procs[step.proc])
    ensures step.proc in Apply(s, step).procs && History(Apply(s, step).db, Apply(s, step).procs[step.proc])
  {
    RetryHistory(s.db, s.procs[step.proc].config, s.procs[step.proc].request, s.procs[step.proc].phase.invocation, step.attemptId);
  }

  lemma OwnHistory(s: System, step: Step, p: nat)
    requires SystemOk(s) && Enabled(s, step) && p in s.procs && ProcOf(step) == Some(p) && History(s.db, s.procs[p])
    ensures p in Apply(s, step).procs && History(Apply(s, step).db, Apply(s, step).procs[p])
  {
    match step
    case ProviderFails(_, _, _, _) => FailedHistory(s, step);
    case Retry(_, _, _, _) => RetriedHistory(s, step);
    case Succeed(_, _, _, _) => CompletionLeads(s, step);
    case InternalFailure(_, _, _, _) => CompletionLeads(s, step);
    case BackoffInterrupted(_, _, _) => WaitingLeads(s, step);
    case Finish(_, _, _) => FinishingLeads(s, step);
  }

  lemma OtherHistory(s: System, step: Step, q: nat)
    requires SystemOk(s) && Enabled(s, step) && q in s.procs && ProcOf(step) != Some(q) && History(s.db, s.procs[q])
    ensures q in Apply(s, step).procs && History(Apply(s, step).db, Apply(s, step).procs[q])
  {
    OthersStand(s, step, q);
    OthersTouchOthers(s, step, q);
    StepKeepsOthers(s, step, InvocationOf(s.procs[q].phase));
    HistoryFrame(s.db, Apply(s, step).db, s.procs[q]);
  }

  lemma NewProcs(s: System, step: Step, q: nat)
    requires Enabled(s, step) && q in Apply(s, step).procs && q !in s.procs
    ensures step.Begin? && step.proc == q
  {
  }

  lemma StepKeepsHistories(s: System, step: Step)
    requires SystemOk(s) && Enabled(s, step) && Histories(s)
    ensures Histories(Apply(s, step))
  {
    forall q | q in Apply(s, step).procs ensures History(Apply(s, step).db, Apply(s, step).procs[q]) {
      if q !in s.procs {
        NewProcs(s, step, q);
        BeginHistory(s, step);
      } else if ProcOf(step) == Some(q) {
        OwnHistory(s, step, q);
      } else {
        OtherHistory(s, step, q);
      }
    }
  }

  lemma {:induction false} EveryHistory(states: seq<System>, steps: seq<Step>, i: nat)
    requires IsRun(states, steps) && i < |states|
    ensures Histories(states[i])
  {
    if i > 0 {
      EveryHistory(states, steps, i - 1);
      EveryStateOk(states, steps, i - 1);
      assert StepAt(states, steps, i - 1);
      StepKeepsHistories(states[i - 1], steps[i - 1]);
    }
  }

  lemma ReserveAddsAttempt(db: Db, c: ModelConfig, request: Request, retryOf: Option<Id>, newId: Id, attempt: Id, b: Id)
    requires b !in db.attempts
    ensures var r := ReserveTx(db, c, request, retryOf, newId, attempt);
      r.Ok? && b in r.value.0.attempts ==> r.value.0.attempts[b].invocationId == if retryOf.Some? then retryOf.value else newId
  {
  }

  lemma NewAttempt(s: System, step: Step, b: Id)
    requires Enabled(s, step) && b !in s.db.attempts && b in Apply(s, step).db.attempts
    ensures if step.Begin? then Apply(s, step).db.attempts[b].invocationId == step.newId
            else step.Retry? && Apply(s, step).db.attempts[b].invocationId == s.procs[step.proc].phase.invocation
  {
    match step
    case Begin(_, c, request, _, newId, attemptId) => ReserveAddsAttempt(s.db, c, request, None, newId, attemptId, b);
    case Retry(p, attemptId, _, _) =>
      var w := s.procs[p].phase;
      ReserveAddsAttempt(s.db, s.procs[p].config, s.procs[p].request, Some(w.invocation), w.invocation, attemptId, b);
    case _ =>
  }

  /** The step that adds an attempt to an invocation finds all its earlier ones failed and retryable. */
  lemma AddedAfterRetryable(s: System, step: Step, a: Id, b: Id)
    requires SystemOk(s) && Histories(s) && Enabled(s, step) && a in s.db.attempts && b !in s.db.attempts
    requires b in Apply(s, step).db.attempts && Apply(s, step).db.attempts[b].invocationId == s.db.attempts[a].invocationId
    ensures RetryableFailure(s.db.attempts[a])
  {
    NewAttempt(s, step, b);
    if step.Retry? {
      assert History(s.db, s.procs[step.proc]);
    }
  }

  lemma LaterAttemptStep(s: System, step: Step, a: Id, b: Id, v: Id)
    requires SystemOk(s) && Histories(s) && Enabled(s, step) && a in s.db.attempts && s.db.attempts[a].invocationId == v
    requires b in Apply(s, step).db.attempts && Apply(s, step).db.attempts[b].invocationId == v
    requires b in s.db.attempts ==> RetryableFailure(s.db.attempts[a])
    ensures a in Apply(s, step).db.attempts && RetryableFailure(Apply(s, step).db.attempts[a])
  {
    StepKeepsAttempts(s, step, a);
    if b !in s.db.attempts {
      AddedAfterRetryable(s, step, a, b);
    }
  }

  lemma LaterAttemptAt(states: seq<System>, steps: seq<Step>, k: nat, next: nat, a: Id, b: Id, v: Id)
    requires IsRun(states, steps) && next == k + 1 <= |steps| && a in states[k].db.attempts && states[k].db.attempts[a].invocationId == v
    requires b in states[next].db.attempts && states[next].db.attempts[b].invocationId == v
    requires b in states[k].db.attempts ==> RetryableFailure(states[k].db.attempts[a])
    ensures a in states[next].db.attempts && RetryableFailure(states[next].db.attempts[a])
  {
    EveryStateOk(states, steps, k);
    EveryHistory(states, steps, k);
    assert StepAt(states, steps, k);
    LaterAttemptStep(states[k], steps[k], a, b, v);
  }

  lemma AttemptKeptAt(states: seq<System>, steps: seq<Step>, k: nat, next: nat, b: Id)
    requires IsRun(states, steps) && next == k + 1 <= |steps|
    ensures AttemptKept(states[k].db, states[next].db, b)
  {
    RunKeepsAttempts(states, steps, k, next, b);
  }

  /** In every run, an attempt with a later attempt of the same invocation failed with a retryable error. */
  lemma {:induction false} OnlyRetryableIsRetried(states: seq<System>, steps: seq<Step>, i: nat, j: nat, a: Id, b: Id, v: Id)
    requires IsRun(states, steps) && i <= j < |states| && a in states[i].db.attempts && states[i].db.attempts[a].invocationId == v
    requires b !in states[i].db.attempts && b in states[j].db.attempts && states[j].db.attempts[b].invocationId == v
    ensures a in states[j].db.attempts && RetryableFailure(states[j].db.attempts[a])
    decreases j
  {
    RunKeepsAttempts(states, steps, i, j - 1, a);
    if b in states[j - 1].db.attempts {
      AttemptKeptAt(states, steps, j - 1, j, b);
      OnlyRetryableIsRetried(states, steps, i, j - 1, a, b, v);
    }
    LaterAttemptAt(states, steps, j - 1, j, a, b, v);
  }

  // Why an Invoke fails --------------------------------------------------------------------

  /** The reservation for the next attempt was refused for want of capacity or quota. */
  ghost predicate Refused(s: System, step: Step) {
    && step.Retry? && step.commits && step.proc in s.procs && s.procs[step.proc].phase.Waiting?
    && var p := s.procs[step.proc];
       var r := ReserveTx(s.db, p.config, p.request, Some(p.phase.invocation), p.phase.invocation, step.attemptId);
       r.Err? && (r.error.NoCapacity? || r.error.GlobalQuota?)
  }

  /** A provider error that is not retried, and why. */
  ghost predicate EndsOnProviderError(s: System, step: Step, e: GatewayError) {
    && step.ProviderFails? && step.commits && e == step.error && step.proc in s.procs && s.procs[step.proc].phase.Holding?
    && var p := s.procs[step.proc]; (p.request.streaming || p.phase.attempt == p.policy.maxAttempts || !e.retryable)
  }

  /** What made process p give up with error e. */
  ghost predicate Cause(s: System, step: Step, p: nat, e: GatewayError) {
    && ProcOf(step) == Some(p) && p in s.procs
    && (|| EndsOnProviderError(s, step, e)
        || (Refused(s, step) && e == s.procs[p].phase.error)
        || (step.InternalFailure? && step.commits && e == InternalError(step.message))
        || (step.BackoffInterrupted? && e == InternalError(step.message))
        || (step.Retry? && !Refused(s, step) && e == InternalError(step.message)))
  }

  lemma ProviderCause(s: System, step: Step)
    requires SystemOk(s) && Enabled(s, step) && step.ProviderFails?
    requires step.proc in Apply(s, step).procs && Apply(s, step).procs[step.proc].phase.Finishing?
    ensures Cause(s, step, step.proc, Apply(s, step).procs[step.proc].phase.error)
  {
    assert ProcessOk(s.db, s.procs[step.proc]);
    CompletionLeads(s, step);
  }

  lemma WaitingCause(s: System, step: Step)
    requires SystemOk(s) && Enabled(s, step) && (step.Retry? || step.BackoffInterrupted?)
    requires step.proc in Apply(s, step).procs && Apply(s, step).procs[step.proc].phase.Finishing?
    ensures Cause(s, step, step.proc, Apply(s, step).procs[step.proc].phase.error)
  {
  }

  lemma CompletionCause(s: System, step: Step)
    requires SystemOk(s) && Enabled(s, step) && (step.Succeed? || step.InternalFailure?)
    requires step.proc in Apply(s, step).procs && Apply(s, step).procs[step.proc].phase.Finishing?
    ensures Cause(s, step, step.proc, Apply(s, step).procs[step.proc].phase.error)
  {
    CompletionLeads(s, step);
  }

  lemma NotYetFinishing(s: System, step: Step)
    requires SystemOk(s) && Enabled(s, step) && (step.Begin? || step.Finish?)
    ensures step.proc in Apply(s, step).procs ==> !Apply(s, step).procs[step.proc].phase.Finishing?
  {
    if step.Finish? {
      FinishingLeads(s, step);
    }
  }

  lemma FinishingHasCause(s: System, step: Step, p: nat)
    requires SystemOk(s) && Enabled(s, step) && p in Apply(s, step).procs && Apply(s, step).procs[p].phase.Finishing?
    ensures (p in s.procs && s.procs[p] == Apply(s, step).procs[p]) || Cause(s, step, p, Apply(s, step).procs[p].phase.error)
  {
    if ProcOf(step) != Some(p) {
      OthersUnmoved(s, step, p);
    } else {
      match step {
        case ProviderFails(_, _, _, _) => ProviderCause(s, step);
        case Succeed(_, _, _, _) => CompletionCause(s, step);
        case InternalFailure(_, _, _, _) => CompletionCause(s, step);
        case BackoffInterrupted(_, _, _) => WaitingCause(s, step);
        case Retry(_, _, _, _) => WaitingCause(s, step);
        case Begin(_, _, _, _, _, _) => NotYetFinishing(s, step);
        case Finish(_, _, _) => NotYetFinishing(s, step);
      }
    }
  }

  lemma OthersUnmoved(s: System, step: Step, p: nat)
    requires Enabled(s, step) && ProcOf(step) != Some(p) && p in Apply(s, step).procs
    ensures p in s.procs && s.procs[p] == Apply(s, step).procs[p]
  {
  }

  lemma {:induction false} WhyFinishing(states: seq<System>, steps: seq<Step>, j: nat, p: nat) returns (k: nat)
    requires IsRun(states, steps) && j < |states| && p in states[j].procs && states[j].procs[p].phase.Finishing?
    ensures k < j && Cause(states[k], steps[k], p, states[j].procs[p].phase.error)
  {
    EveryStateOk(states, steps, j - 1);
    assert StepAt(states, steps, j - 1);
    FinishingHasCause(states[j - 1], steps[j - 1], p);
    if p in states[j - 1].procs && states[j - 1].procs[p] == states[j].procs[p] {
      k := WhyFinishing(states, steps, j - 1, p);
    } else {
      k := j - 1;
    }
  }

  /**
    An Invoke that closes as failed stores the error e of a cause: a provider error that was the
    last attempt's, came on a stream or was not retryable; a retryable one whose next reservation
    was refused; or an internal error.
   */
  lemma FailedForAReason(states: seq<System>, steps: seq<Step>, i: nat, after: nat, j: nat) returns (k: nat)
    requires IsRun(states, steps) && after == i + 1 <= j < |states| && steps[i].Finish? && steps[i].commits
    ensures Enabled(states[i], steps[i])
    ensures var p := states[i].procs[steps[i].proc]; var v := InvocationOf(p.phase);
      && k < i && Cause(states[k], steps[k], steps[i].proc, p.phase.error)
      && v in states[i].db.invocations && v in states[j].db.invocations
      && FailedWith(states[i].db.invocations[v], states[j].db.invocations[v], p.phase.error, steps[i].now)
  {
    assert StepAt(states, steps, i);
    k := WhyFinishing(states, steps, i, steps[i].proc);
    FailureIsAnswered(states, steps, i, after, j);
  }
}
