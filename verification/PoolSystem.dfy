/**
  Many gateway processes (internal/poolgateway/gateway.go) over one set of tables. Every store
  transaction is one step; steps of different processes and config syncs interleave freely,
  provider outcomes are part of the step, and any transaction may fail to commit.
 */
module PoolSystem {
  import opened Prelude
  import opened PoolModel
  import opened PoolInvariants
  import opened PoolRetry

  /** Where one Invoke run stands after its first reservation. */
  datatype Phase =
    | Holding(reservation: Reservation, attempt: nat, slept: int)
    | Waiting(invocation: Id, attempt: nat, slept: int, error: GatewayError)
    | Finishing(invocation: Id, slept: int, error: GatewayError)
    | Returned(invocation: Id, slept: int)
    | Abandoned(invocation: Id, slept: int)

  datatype Process = Process(config: ModelConfig, request: Request, policy: RetryPolicy, phase: Phase)

  datatype System = System(db: Db, procs: map<nat, Process>)

  const INITIAL := System(EMPTY_DB, map[])

  datatype Step =
    | Sync(config: ModelConfig)
    | Begin(proc: nat, config: ModelConfig, request: Request, policy: RetryPolicy, newId: Id, attemptId: Id)
    | Succeed(proc: nat, output: Option<string>, now: int, commits: bool)
    | ProviderFails(proc: nat, error: GatewayError, now: int, commits: bool)
    | InternalFailure(proc: nat, message: string, now: int, commits: bool)
    | BackoffInterrupted(proc: nat, slept: int, message: string)
    | Retry(proc: nat, attemptId: Id, message: string, commits: bool)
    | Finish(proc: nat, now: int, commits: bool)

  function InvocationOf(phase: Phase): Id {
    match phase
    case Holding(r, _, _) => r.invocationId
    case Waiting(i, _, _, _) => i
    case Finishing(i, _, _) => i
    case Returned(i, _) => i
    case Abandoned(i, _) => i
  }

  function InternalError(message: string): GatewayError {
    GatewayError(GatewayInternalError, message, false)
  }

  /** What a process does with the outcome of a failed attempt once it is recorded. */
  function AfterFailure(p: Process, e: GatewayError): Phase
    requires p.phase.Holding?
  {
    var h := p.phase;
    if p.request.streaming || !ShouldRetry(p.policy, h.attempt, e)
    then Finishing(h.reservation.invocationId, h.slept, e)
    else Waiting(h.reservation.invocationId, h.attempt, h.slept, e)
  }

  ghost predicate Enabled(s: System, step: Step) {
    match step
    case Sync(_) => true
    case Begin(p, _, _, policy, newId, attemptId) =>
      p !in s.procs && IsNormal(policy) && newId !in s.db.invocations && attemptId !in s.db.attempts
    case Succeed(p, _, _, _) => p in s.procs && s.procs[p].phase.Holding?
    case ProviderFails(p, _, _, _) => p in s.procs && s.procs[p].phase.Holding?
    case InternalFailure(p, _, _, _) => p in s.procs && s.procs[p].phase.Holding?
    case BackoffInterrupted(p, d, _) =>
      p in s.procs && s.procs[p].phase.Waiting? && 0 <= d <= BackoffFor(s.procs[p].policy, s.procs[p].phase.attempt)
    case Retry(p, attemptId, _, _) =>
      p in s.procs && s.procs[p].phase.Waiting? && attemptId !in s.db.attempts
    case Finish(p, _, _) => p in s.procs && s.procs[p].phase.Finishing?
  }

  function Move(s: System, proc: nat, db: Db, phase: Phase): System
    requires proc in s.procs
  {
    System(db, s.procs[proc := s.procs[proc].(phase := phase)])
  }

  /** A completion either commits, and the process goes on to next, or the process gives up. */
  function Settle(s: System, proc: nat, commits: bool, result: Result<Db, PoolError>, next: Phase): System
    requires proc in s.procs
  {
    if commits && result.Ok? then Move(s, proc, result.value, next)
    else Move(s, proc, s.db, Abandoned(InvocationOf(s.procs[proc].phase), s.procs[proc].phase.slept))
  }

  /** ErrNoCapacity and ErrGlobalQuota keep the provider's error; anything else replaces it. */
  function RetryRefused(phase: Phase, commits: bool, result: Result<(Db, Reservation), PoolError>, message: string): GatewayError
    requires phase.Waiting?
  {
    if commits && result.Err? && (result.error.NoCapacity? || result.error.GlobalQuota?) then phase.error
    else InternalError(message)
  }

  ghost function Apply(s: System, step: Step): System
    requires Enabled(s, step)
  {
    match step
    case Sync(c) => s.(db := SyncConfig(s.db, c))
    case Begin(p, c, request, policy, newId, attemptId) =>
      var r := ReserveTx(s.db, c, request, None, newId, attemptId);
      if r.Err? then s
      else System(r.value.0, s.procs[p := Process(c, request, policy, Holding(r.value.1, 1, 0))])
    case Succeed(p, output, now, commits) =>
      var h := s.procs[p].phase;
      Settle(s, p, commits, CompleteSuccess(s.db, h.reservation, output, now), Returned(h.reservation.invocationId, h.slept))
    case ProviderFails(p, e, now, commits) =>
      Settle(s, p, commits, CompleteAttemptFailure(s.db, s.procs[p].phase.reservation, e, now), AfterFailure(s.procs[p], e))
    case InternalFailure(p, message, now, commits) =>
      var h := s.procs[p].phase;
      Settle(s, p, commits, CompleteAttemptFailure(s.db, h.reservation, InternalError(message), now),
             Finishing(h.reservation.invocationId, h.slept, InternalError(message)))
    case BackoffInterrupted(p, d, message) =>
      var w := s.procs[p].phase;
      Move(s, p, s.db, Finishing(w.invocation, w.slept + d, InternalError(message)))
    case Retry(p, attemptId, message, commits) =>
      var w := s.procs[p].phase;
      var slept := w.slept + BackoffFor(s.procs[p].policy, w.attempt);
      var r := ReserveTx(s.db, s.procs[p].config, s.procs[p].request, Some(w.invocation), w.invocation, attemptId);
      if commits && r.Ok? then Move(s, p, r.value.0, Holding(r.value.1, w.attempt + 1, slept))
      else Move(s, p, s.db, Finishing(w.invocation, slept, RetryRefused(w, commits, r, message)))
    case Finish(p, now, commits) =>
      var f := s.procs[p].phase;
      Settle(s, p, commits, CompleteInvocationFailure(s.db, f.invocation, f.error, now), Returned(f.invocation, f.slept))
  }

  // The invariant ------------------------------------------------------------------------

  ghost predicate AttemptsBounded(db: Db, p: Process) {
    var n := |AttemptsOf(db, InvocationOf(p.phase))|;
    1 <= n <= p.policy.maxAttempts && (p.request.streaming ==> n == 1)
  }

  ghost predicate SleepBounded(p: Process)
    requires IsNormal(p.policy)
  {
    0 <= p.phase.slept <= SleptBefore(p.policy, p.policy.maxAttempts)
  }

  ghost predicate PhaseOk(db: Db, p: Process)
    requires InvocationOf(p.phase) in db.invocations
  {
    var i := InvocationOf(p.phase);
    match p.phase
    case Holding(r, k, slept) =>
      Holds(db, r) && |AttemptsOf(db, i)| == k && slept == SleptBefore(p.policy, k)
    case Waiting(_, k, slept, _) =>
      && NothingRunning(db, i) && db.invocations[i].status == Running
      && |AttemptsOf(db, i)| == k && slept == SleptBefore(p.policy, k)
      && k < p.policy.maxAttempts && !p.request.streaming
    case Finishing(_, _, _) => NothingRunning(db, i) && db.invocations[i].status == Running
    case Returned(_, _) => NothingRunning(db, i) && db.invocations[i].status != Running
    case Abandoned(_, _) => true
  }

  ghost predicate ProcessOk(db: Db, p: Process) {
    && IsNormal(p.policy)
    && InvocationOf(p.phase) in db.invocations
    && AttemptsBounded(db, p)
    && SleepBounded(p)
    && PhaseOk(db, p)
  }

  ghost predicate SystemOk(s: System) {
    && Coherent(s.db)
    && (forall p | p in s.procs :: ProcessOk(s.db, s.procs[p]))
    && Apart(s.procs)
  }

  lemma ProcessFrame(db: Db, db': Db, changed: Id, p: Process)
    requires OthersKept(db, db', changed) && ProcessOk(db, p) && InvocationOf(p.phase) != changed
    ensures ProcessOk(db', p)
  {
    var i := InvocationOf(p.phase);
    assert AttemptsOf(db', i) == AttemptsOf(db, i);
    assert NothingRunning(db, i) ==> NothingRunning(db', i);
  }

  /** One process moves, touching only its own invocation. */
  lemma MoveKeepsOk(s: System, proc: nat, db': Db, p': Process)
    requires SystemOk(s) && Coherent(db') && ProcessOk(db', p')
    requires OthersKept(s.db, db', InvocationOf(p'.phase))
    requires if proc in s.procs then InvocationOf(p'.phase) == InvocationOf(s.procs[proc].phase)
             else InvocationOf(p'.phase) !in s.db.invocations
    ensures SystemOk(System(db', s.procs[proc := p']))
  {
    var s' := System(db', s.procs[proc := p']);
    forall q | q in s'.procs ensures ProcessOk(db', s'.procs[q]) {
      if q != proc { ProcessFrame(s.db, db', InvocationOf(p'.phase), s.procs[q]); }
    }
    OneProcessEach(s, proc, p');
  }

  ghost predicate Apart(procs: map<nat, Process>) {
    forall p, q | p in procs && q in procs && p != q :: InvocationOf(procs[p].phase) != InvocationOf(procs[q].phase)
  }

  lemma OneProcessEach(s: System, proc: nat, p': Process)
    requires Apart(s.procs) && forall q | q in s.procs :: InvocationOf(s.procs[q].phase) in s.db.invocations
    requires if proc in s.procs then InvocationOf(p'.phase) == InvocationOf(s.procs[proc].phase)
             else InvocationOf(p'.phase) !in s.db.invocations
    ensures Apart(s.procs[proc := p'])
  {
  }

  lemma NewProcessOk(db: Db, step: Step)
    requires Coherent(db) && step.Begin? && IsNormal(step.policy)
    requires step.newId !in db.invocations && step.attemptId !in db.attempts
    ensures var r := ReserveTx(db, step.config, step.request, None, step.newId, step.attemptId);
      r.Ok? ==> ProcessOk(r.value.0, Process(step.config, step.request, step.policy, Holding(r.value.1, 1, 0)))
  {
    ReserveKeepsCoherent(db, step.config, step.request, None, step.newId, step.attemptId);
    assert AttemptsOf(db, step.newId) == {};
    assert SleptBefore(step.policy, 1) == 0;
  }

  lemma BeginKeepsOk(s: System, step: Step)
    requires SystemOk(s) && step.Begin? && Enabled(s, step)
    ensures SystemOk(Apply(s, step))
  {
    var r := ReserveTx(s.db, step.config, step.request, None, step.newId, step.attemptId);
    if r.Ok? {
      ReserveKeepsCoherent(s.db, step.config, step.request, None, step.newId, step.attemptId);
      NewProcessOk(s.db, step);
      MoveKeepsOk(s, step.proc, r.value.0, Process(step.config, step.request, step.policy, Holding(r.value.1, 1, 0)));
    }
  }

  lemma AbandonedProcessOk(db: Db, p: Process)
    requires ProcessOk(db, p)
    ensures ProcessOk(db, p.(phase := Abandoned(InvocationOf(p.phase), p.phase.slept)))
  {
  }

  lemma SucceededProcessOk(db: Db, p: Process, output: Option<string>, now: int)
    requires Coherent(db) && ProcessOk(db, p) && p.phase.Holding?
    ensures var result := CompleteSuccess(db, p.phase.reservation, output, now);
      && result.Ok? && Coherent(result.value)
      && OthersKept(db, result.value, p.phase.reservation.invocationId)
      && ProcessOk(result.value, p.(phase := Returned(p.phase.reservation.invocationId, p.phase.slept)))
  {
    SuccessKeepsCoherent(db, p.phase.reservation, output, now);
  }

  lemma EndedProcessOk(db: Db, db': Db, p: Process, e: GatewayError)
    requires ProcessOk(db, p) && p.phase.Holding? && db'.invocations == db.invocations
    requires var i := p.phase.reservation.invocationId;
      NothingRunning(db', i) && AttemptsOf(db', i) == AttemptsOf(db, i) && i in db.invocations && db.invocations[i].status == Running
    ensures ProcessOk(db', p.(phase := Finishing(p.phase.reservation.invocationId, p.phase.slept, e)))
    ensures ProcessOk(db', p.(phase := AfterFailure(p, e)))
  {
  }

  lemma FailedProcessOk(db: Db, p: Process, e: GatewayError, now: int)
    requires Coherent(db) && ProcessOk(db, p) && p.phase.Holding?
    ensures var result := CompleteAttemptFailure(db, p.phase.reservation, e, now);
      && result.Ok? && Coherent(result.value)
      && OthersKept(db, result.value, p.phase.reservation.invocationId)
      && ProcessOk(result.value, p.(phase := Finishing(p.phase.reservation.invocationId, p.phase.slept, e)))
      && ProcessOk(result.value, p.(phase := AfterFailure(p, e)))
  {
    HolderFindsItsLease(db, p.phase.reservation);
    AttemptFailureKeepsCoherent(db, p.phase.reservation, e, now);
    EndedProcessOk(db, CompleteAttemptFailure(db, p.phase.reservation, e, now).value, p, e);
  }

  lemma AbandonKeepsOk(s: System, proc: nat)
    requires SystemOk(s) && proc in s.procs
    ensures SystemOk(Move(s, proc, s.db, Abandoned(InvocationOf(s.procs[proc].phase), s.procs[proc].phase.slept)))
  {
    AbandonedProcessOk(s.db, s.procs[proc]);
    MoveKeepsOk(s, proc, s.db, s.procs[proc].(phase := Abandoned(InvocationOf(s.procs[proc].phase), s.procs[proc].phase.slept)));
  }

  lemma SucceedKeepsOk(s: System, step: Step)
    requires SystemOk(s) && Enabled(s, step) && step.Succeed?
    ensures SystemOk(Apply(s, step))
  {
    var p := s.procs[step.proc];
    SucceededProcessOk(s.db, p, step.output, step.now);
    if step.commits {
      MoveKeepsOk(s, step.proc, CompleteSuccess(s.db, p.phase.reservation, step.output, step.now).value,
                  p.(phase := Returned(p.phase.reservation.invocationId, p.phase.slept)));
    } else {
      AbandonKeepsOk(s, step.proc);
    }
  }

  lemma FailureKeepsOk(s: System, proc: nat, e: GatewayError, now: int, next: Phase)
    requires SystemOk(s) && proc in s.procs && s.procs[proc].phase.Holding?
    requires next == AfterFailure(s.procs[proc], e)
             || next == Finishing(s.procs[proc].phase.reservation.invocationId, s.procs[proc].phase.slept, e)
    ensures var result := CompleteAttemptFailure(s.db, s.procs[proc].phase.reservation, e, now);
      result.Ok? && SystemOk(Move(s, proc, result.value, next))
  {
    var p := s.procs[proc];
    FailedProcessOk(s.db, p, e, now);
    MoveKeepsOk(s, proc, CompleteAttemptFailure(s.db, p.phase.reservation, e, now).value, p.(phase := next));
  }

  lemma CompletionKeepsOk(s: System, step: Step)
    requires SystemOk(s) && Enabled(s, step)
    requires step.ProviderFails? || step.InternalFailure?
    ensures SystemOk(Apply(s, step))
  {
    var p := s.procs[step.proc];
    AbandonKeepsOk(s, step.proc);
    if step.ProviderFails? {
      FailureKeepsOk(s, step.proc, step.error, step.now, AfterFailure(p, step.error));
    } else {
      var e := InternalError(step.message);
      FailureKeepsOk(s, step.proc, e, step.now, Finishing(p.phase.reservation.invocationId, p.phase.slept, e));
    }
  }

  /** A process that got its next attempt. */
  lemma NextAttemptOk(db: Db, db': Db, p: Process, r: Reservation)
    requires ProcessOk(db, p) && p.phase.Waiting? && Holds(db', r) && Referential(db')
    requires r.invocationId == p.phase.invocation && |AttemptsOf(db', r.invocationId)| == |AttemptsOf(db, r.invocationId)| + 1
    ensures ProcessOk(db', p.(phase := Holding(r, p.phase.attempt + 1, p.phase.slept + BackoffFor(p.policy, p.phase.attempt))))
  {
    assert SleptBefore(p.policy, p.phase.attempt + 1) == p.phase.slept + BackoffFor(p.policy, p.phase.attempt);
    SleptBeforeGrows(p.policy, p.phase.attempt + 1, p.policy.maxAttempts);
  }

  lemma RetriedProcessOk(db: Db, p: Process, attemptId: Id)
    requires Coherent(db) && ProcessOk(db, p) && p.phase.Waiting? && attemptId !in db.attempts
    ensures var r := ReserveTx(db, p.config, p.request, Some(p.phase.invocation), p.phase.invocation, attemptId);
      var slept := p.phase.slept + BackoffFor(p.policy, p.phase.attempt);
      r.Ok? ==>
        && Coherent(r.value.0) && r.value.1.invocationId == p.phase.invocation
        && OthersKept(db, r.value.0, p.phase.invocation)
        && ProcessOk(r.value.0, p.(phase := Holding(r.value.1, p.phase.attempt + 1, slept)))
  {
    var r := ReserveTx(db, p.config, p.request, Some(p.phase.invocation), p.phase.invocation, attemptId);
    ReserveKeepsCoherent(db, p.config, p.request, Some(p.phase.invocation), p.phase.invocation, attemptId);
    if r.Ok? {
      NextAttemptOk(db, r.value.0, p, r.value.1);
    }
  }

  lemma GivenUpProcessOk(db: Db, p: Process, slept: int, e: GatewayError)
    requires ProcessOk(db, p) && p.phase.Waiting? && 0 <= slept <= BackoffFor(p.policy, p.phase.attempt)
    ensures ProcessOk(db, p.(phase := Finishing(p.phase.invocation, p.phase.slept + slept, e)))
  {
    assert SleptBefore(p.policy, p.phase.attempt + 1) == p.phase.slept + BackoffFor(p.policy, p.phase.attempt);
    SleptBeforeGrows(p.policy, p.phase.attempt + 1, p.policy.maxAttempts);
  }

  lemma RetryKeepsOk(s: System, step: Step)
    requires SystemOk(s) && Enabled(s, step)
    requires step.Retry? || step.BackoffInterrupted?
    ensures SystemOk(Apply(s, step))
  {
    var p := s.procs[step.proc];
    var s' := Apply(s, step);
    if step.Retry? {
      RetriedProcessOk(s.db, p, step.attemptId);
    }
    if s'.procs[step.proc].phase.Finishing? {
      var f := s'.procs[step.proc].phase;
      GivenUpProcessOk(s.db, p, f.slept - p.phase.slept, f.error);
    }
    MoveKeepsOk(s, step.proc, s'.db, s'.procs[step.proc]);
  }

  lemma FinishKeepsOk(s: System, step: Step)
    requires SystemOk(s) && step.Finish? && Enabled(s, step)
    ensures SystemOk(Apply(s, step))
  {
    var p := s.procs[step.proc];
    var s' := Apply(s, step);
    if step.commits {
      InvocationFailureKeepsCoherent(s.db, p.phase.invocation, p.phase.error, step.now);
    } else {
      AbandonedProcessOk(s.db, p);
    }
    MoveKeepsOk(s, step.proc, s'.db, s'.procs[step.proc]);
  }

  lemma SyncKeepsOk(s: System, c: ModelConfig)
    requires SystemOk(s)
    ensures SystemOk(s.(db := SyncConfig(s.db, c)))
  {
    SyncKeepsCoherent(s.db, c);
    var db' := SyncConfig(s.db, c);
    forall p | p in s.procs ensures ProcessOk(db', s.procs[p]) {
      assert AttemptsOf(db', InvocationOf(s.procs[p].phase)) == AttemptsOf(s.db, InvocationOf(s.procs[p].phase));
    }
  }

  lemma StepKeepsOk(s: System, step: Step)
    requires SystemOk(s) && Enabled(s, step)
    ensures SystemOk(Apply(s, step))
  {
    match step
    case Sync(c) => SyncKeepsOk(s, c);
    case Begin(_, _, _, _, _, _) => BeginKeepsOk(s, step);
    case Succeed(_, _, _, _) => SucceedKeepsOk(s, step);
    case ProviderFails(_, _, _, _) => CompletionKeepsOk(s, step);
    case InternalFailure(_, _, _, _) => CompletionKeepsOk(s, step);
    case BackoffInterrupted(_, _, _) => RetryKeepsOk(s, step);
    case Retry(_, _, _, _) => RetryKeepsOk(s, step);
    case Finish(_, _, _) => FinishKeepsOk(s, step);
  }

  // Runs ---------------------------------------------------------------------------------

  ghost predicate StepAt(states: seq<System>, steps: seq<Step>, i: nat)
    requires i < |steps| < |states|
  {
    Enabled(states[i], steps[i]) && states[i + 1] == Apply(states[i], steps[i])
  }

  ghost predicate IsRun(states: seq<System>, steps: seq<Step>) {
    && |states| == |steps| + 1
    && states[0] == INITIAL
    && forall i | 0 <= i < |steps| :: StepAt(states, steps, i)
  }

  lemma {:induction false} EveryStateOk(states: seq<System>, steps: seq<Step>, i: nat)
    requires IsRun(states, steps) && i < |states|
    ensures SystemOk(states[i])
  {
    if i > 0 {
      EveryStateOk(states, steps, i - 1);
      assert StepAt(states, steps, i - 1);
      StepKeepsOk(states[i - 1], steps[i - 1]);
    }
  }

  lemma ExtendsRun(states: seq<System>, steps: seq<Step>, step: Step)
    requires IsRun(states, steps) && Enabled(states[|steps|], step)
    ensures IsRun(states + [Apply(states[|steps|], step)], steps + [step])
  {
    var states', steps' := states + [Apply(states[|steps|], step)], steps + [step];
    forall i | 0 <= i < |steps'| ensures StepAt(states', steps', i) {
      if i < |steps| { assert StepAt(states, steps, i); }
    }
  }
}
