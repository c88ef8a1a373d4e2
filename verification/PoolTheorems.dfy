/** Safety of whole runs: what holds in every state that any interleaving can reach. */
module PoolTheorems {
  import opened Prelude
  import opened PoolModel
  import opened PoolInvariants
  import opened PoolRetry
  import opened PoolSystem
  import opened PoolConfig
  import opened PoolCapacity

  // The transaction behind a step --------------------------------------------------------

  datatype Tx =
    | NoTx
    | SyncTx(config: ModelConfig)
    | LeaseTx(config: ModelConfig, request: Request, retryOf: Option<Id>, newId: Id, attempt: Id)
    | SuccessTx(reservation: Reservation, output: Option<string>, now: int)
    | FailureTx(reservation: Reservation, error: GatewayError, now: int)
    | CloseTx(invocation: Id, error: GatewayError, now: int)

  ghost predicate Legal(db: Db, tx: Tx) {
    match tx
    case NoTx => true
    case SyncTx(_) => true
    case LeaseTx(_, _, retryOf, newId, attempt) => FreshFor(db, retryOf, newId, attempt)
    case SuccessTx(r, _, _) => Holds(db, r)
    case FailureTx(r, _, _) => Holds(db, r)
    case CloseTx(i, _, _) => i in db.invocations && NothingRunning(db, i)
  }

  ghost predicate Commits(db: Db, tx: Tx, db': Db) {
    match tx
    case NoTx => db' == db
    case SyncTx(c) => db' == SyncConfig(db, c)
    case LeaseTx(c, request, retryOf, newId, attempt) =>
      var r := ReserveTx(db, c, request, retryOf, newId, attempt); r.Ok? && db' == r.value.0
    case SuccessTx(r, output, now) => CompleteSuccess(db, r, output, now) == Ok(db')
    case FailureTx(r, e, now) => CompleteAttemptFailure(db, r, e, now) == Ok(db')
    case CloseTx(i, e, now) => CompleteInvocationFailure(db, i, e, now) == Ok(db')
  }

  ghost function TxOf(s: System, step: Step): Tx
    requires Enabled(s, step)
  {
    match step
    case Sync(c) => SyncTx(c)
    case Begin(_, c, request, _, newId, attemptId) =>
      if ReserveTx(s.db, c, request, None, newId, attemptId).Ok? then LeaseTx(c, request, None, newId, attemptId) else NoTx
    case Succeed(p, output, now, commits) =>
      if commits then SuccessTx(s.procs[p].phase.reservation, output, now) else NoTx
    case ProviderFails(p, e, now, commits) =>
      if commits then FailureTx(s.procs[p].phase.reservation, e, now) else NoTx
    case InternalFailure(p, message, now, commits) =>
      if commits then FailureTx(s.procs[p].phase.reservation, InternalError(message), now) else NoTx
    case BackoffInterrupted(_, _, _) => NoTx
    case Retry(p, attemptId, _, commits) =>
      var w := s.procs[p].phase;
      var r := ReserveTx(s.db, s.procs[p].config, s.procs[p].request, Some(w.invocation), w.invocation, attemptId);
      if commits && r.Ok? then LeaseTx(s.procs[p].config, s.procs[p].request, Some(w.invocation), w.invocation, attemptId) else NoTx
    case Finish(p, now, commits) =>
      if commits then CloseTx(s.procs[p].phase.invocation, s.procs[p].phase.error, now) else NoTx
  }

  /** Every step is one legal transaction; in particular no completion ever takes an error branch. */
  lemma StepIsLegalTx(s: System, step: Step)
    requires SystemOk(s) && Enabled(s, step)
    ensures Legal(s.db, TxOf(s, step)) && Commits(s.db, TxOf(s, step), Apply(s, step).db)
  {
    match step
    case Succeed(p, output, now, commits) => SuccessKeepsCoherent(s.db, s.procs[p].phase.reservation, output, now);
    case ProviderFails(p, e, now, commits) => AttemptFailureKeepsCoherent(s.db, s.procs[p].phase.reservation, e, now);
    case InternalFailure(p, m, now, commits) => AttemptFailureKeepsCoherent(s.db, s.procs[p].phase.reservation, InternalError(m), now);
    case _ =>
  }

  // Which configurations a run uses ------------------------------------------------------

  ghost predicate StepUses(step: Step, configs: iset<ModelConfig>) {
    && (step.Sync? ==> step.config in configs)
    && (step.Begin? ==> step.config in configs)
  }

  ghost predicate TxUses(tx: Tx, configs: iset<ModelConfig>) {
    && (tx.SyncTx? ==> tx.config in configs)
    && (tx.LeaseTx? ==> tx.config in configs)
  }

  ghost predicate ProcsUse(s: System, configs: iset<ModelConfig>) {
    forall p | p in s.procs :: s.procs[p].config in configs
  }

  ghost predicate IsRunUsing(states: seq<System>, steps: seq<Step>, configs: iset<ModelConfig>) {
    IsRun(states, steps) && forall i | 0 <= i < |steps| :: StepUses(steps[i], configs)
  }

  lemma StepKeepsUse(s: System, step: Step, configs: iset<ModelConfig>)
    requires Enabled(s, step) && StepUses(step, configs) && ProcsUse(s, configs)
    ensures ProcsUse(Apply(s, step), configs) && TxUses(TxOf(s, step), configs)
  {
  }

  lemma {:induction false} EveryStateUses(states: seq<System>, steps: seq<Step>, configs: iset<ModelConfig>, i: nat)
    requires IsRunUsing(states, steps, configs) && i < |states|
    ensures ProcsUse(states[i], configs)
  {
    if i > 0 {
      EveryStateUses(states, steps, configs, i - 1);
      assert StepAt(states, steps, i - 1);
      StepKeepsUse(states[i - 1], steps[i - 1], configs);
    }
  }

  lemma RunStepIsLegalTx(states: seq<System>, steps: seq<Step>, configs: iset<ModelConfig>, i: nat)
    requires IsRunUsing(states, steps, configs) && i < |steps|
    ensures SystemOk(states[i]) && Enabled(states[i], steps[i])
    ensures var tx := TxOf(states[i], steps[i]);
      Legal(states[i].db, tx) && Commits(states[i].db, tx, states[i + 1].db) && TxUses(tx, configs)
  {
    EveryStateOk(states, steps, i);
    EveryStateUses(states, steps, configs, i);
    assert StepAt(states, steps, i);
    StepIsLegalTx(states[i], steps[i]);
    StepKeepsUse(states[i], steps[i], configs);
  }

  /** The transaction that took the tables from state i to the next. */
  lemma RunTx(states: seq<System>, steps: seq<Step>, configs: iset<ModelConfig>, i: nat) returns (tx: Tx)
    requires IsRunUsing(states, steps, configs) && i < |steps|
    ensures Coherent(states[i].db) && Legal(states[i].db, tx) && Commits(states[i].db, tx, states[i + 1].db) && TxUses(tx, configs)
  {
    RunStepIsLegalTx(states, steps, configs, i);
    tx := TxOf(states[i], steps[i]);
  }

  // Lease conservation -------------------------------------------------------------------

  /** In every interleaving a lease count is the number of running attempts on that API. */
  lemma LeaseConservation(states: seq<System>, steps: seq<Step>, i: nat)
    requires IsRun(states, steps) && i < |states|
    ensures var db := states[i].db;
      && (forall id | id in db.apis :: db.apis[id].leaseCount == |RunningOn(db, id)|)
      && (forall a, b | IsRunning(db, a) && IsRunning(db, b) && db.attempts[a].invocationId == db.attempts[b].invocationId :: a == b)
      && (forall a | IsRunning(db, a) ::
            && db.attempts[a].invocationId in db.invocations
            && db.invocations[db.attempts[a].invocationId].apiId == db.attempts[a].apiId)
  {
    EveryStateOk(states, steps, i);
  }

  /** The underflow and not-found branches of both completions are unreachable. */
  lemma CompletionsNeverFail(states: seq<System>, steps: seq<Step>, i: nat, p: nat, output: Option<string>, e: GatewayError, now: int)
    requires IsRun(states, steps) && i < |states|
    requires p in states[i].procs && states[i].procs[p].phase.Holding?
    ensures var r := states[i].procs[p].phase.reservation;
      CompleteSuccess(states[i].db, r, output, now).Ok? && CompleteAttemptFailure(states[i].db, r, e, now).Ok?
  {
    EveryStateOk(states, steps, i);
    assert ProcessOk(states[i].db, states[i].procs[p]);
    HolderCanComplete(states[i].db, states[i].procs[p].phase.reservation, output, e, now);
  }

  /** The stored status is the resolved one, although reserving computes it by a shortcut. */
  lemma StatusAlwaysResolved(states: seq<System>, steps: seq<Step>, i: nat, id: Id)
    requires IsRun(states, steps) && i < |states| && id in states[i].db.apis
    ensures var row := states[i].db.apis[id];
      row.status == ResolveStatus(row.endpoint.enabled, row.leaseCount, row.endpoint.maxConcurrent, row.failureCount, Threshold(states[i].db))
  {
    EveryStateOk(states, steps, i);
  }

  /** Attempts and sleep of one Invoke are bounded, and when it has returned it holds nothing. */
  ghost predicate BoundedAndReleased(db: Db, proc: Process) {
    var inv, n := InvocationOf(proc.phase), proc.policy.maxAttempts;
    && 1 <= |AttemptsOf(db, inv)| <= n
    && (proc.request.streaming ==> |AttemptsOf(db, inv)| == 1)
    && 0 <= 2 * proc.phase.slept <= proc.policy.baseBackoff * (n * (n - 1))
    && (proc.phase.Returned? ==> NothingRunning(db, inv) && inv in db.invocations && db.invocations[inv].status != Running)
  }

  lemma ProcessIsBounded(db: Db, proc: Process)
    requires ProcessOk(db, proc)
    ensures BoundedAndReleased(db, proc)
  {
    SleepCap(proc.policy, proc.phase.slept);
  }

  lemma AttemptsAndSleepBounded(states: seq<System>, steps: seq<Step>, i: nat, p: nat)
    requires IsRun(states, steps) && i < |states| && p in states[i].procs
    ensures BoundedAndReleased(states[i].db, states[i].procs[p])
  {
    EveryStateOk(states, steps, i);
    ProcessIsBounded(states[i].db, states[i].procs[p]);
  }

  // The config-hash skip -----------------------------------------------------------------

  ghost function DistinctConfigs(): iset<ModelConfig> {
    iset c: ModelConfig | DistinctIds(c.apis)
  }

  lemma LeaseKeepsHashFaithful(db: Db, c: ModelConfig, request: Request, retryOf: Option<Id>, newId: Id, attempt: Id)
    requires HashFaithful(db) && DistinctIds(c.apis)
    ensures var r := ReserveTx(db, c, request, retryOf, newId, attempt); r.Ok? ==> HashFaithful(r.value.0)
  {
    var r := ReserveTx(db, c, request, retryOf, newId, attempt);
    if r.Ok? {
      SyncKeepsHashFaithful(db, c);
      ReserveKeepsEndpoints(SyncConfig(db, c), request, r.value.1.apiId, r.value.1.invocationId, attempt);
      EndpointsKeptIsEnough(SyncConfig(db, c), r.value.0);
    }
  }

  lemma TxKeepsHashFaithful(db: Db, tx: Tx, db': Db)
    requires HashFaithful(db) && Commits(db, tx, db') && TxUses(tx, DistinctConfigs())
    ensures HashFaithful(db')
  {
    match tx
    case NoTx =>
    case SyncTx(c) => SyncKeepsHashFaithful(db, c);
    case LeaseTx(c, request, retryOf, newId, attempt) => LeaseKeepsHashFaithful(db, c, request, retryOf, newId, attempt);
    case SuccessTx(r, output, now) =>
      CompletionsKeepEndpoints(db, r, output, InternalError(""), r.invocationId, now);
      EndpointsKeptIsEnough(db, db');
    case FailureTx(r, e, now) =>
      CompletionsKeepEndpoints(db, r, None, e, r.invocationId, now);
      EndpointsKeptIsEnough(db, db');
    case CloseTx(i, e, now) =>
      EndpointsKeptIsEnough(db, db');
  }

  lemma {:induction false} EveryStateHashFaithful(states: seq<System>, steps: seq<Step>, i: nat)
    requires IsRunUsing(states, steps, DistinctConfigs()) && i < |states|
    ensures HashFaithful(states[i].db)
  {
    if i > 0 {
      EveryStateHashFaithful(states, steps, i - 1);
      var tx := RunTx(states, steps, DistinctConfigs(), i - 1);
      TxKeepsHashFaithful(states[i - 1].db, tx, states[i].db);
    }
  }

  /** In every reachable state syncing with the skip equals syncing unconditionally. */
  lemma SkipRefinesFullSync(states: seq<System>, steps: seq<Step>, i: nat, c: ModelConfig)
    requires IsRunUsing(states, steps, DistinctConfigs()) && i < |states| && DistinctIds(c.apis)
    ensures SyncConfig(states[i].db, c) == FullSync(states[i].db, c)
  {
    EveryStateOk(states, steps, i);
    EveryStateHashFaithful(states, steps, i);
    if states[i].db.meta.configHash == Some(Digest(c)) {
      SkipIsFullSync(states[i].db, c);
    }
  }

  // Capacity -----------------------------------------------------------------------------

  /** What Capacity reports, followed by ReserveInvocation with the same configuration. */
  lemma CapacityTellsTheTruth(states: seq<System>, steps: seq<Step>, i: nat, c: ModelConfig, request: Request, newId: Id, attempt: Id)
    requires IsRunUsing(states, steps, DistinctConfigs()) && i < |states| && DistinctIds(c.apis) && request.pinned.None?
    ensures var synced := SyncConfig(states[i].db, c);
      var report := CapacityOf(synced); var r := ReserveTx(synced, c, request, None, newId, attempt);
      && (report.availableSlots > 0 && !report.throttled <==> r.Ok?)
      && (r.Err? ==> r.error == if report.throttled then GlobalQuota else NoCapacity)
      && report.leasedSlots == |RunningAttempts(synced)|
  {
    var db := states[i].db;
    var synced := SyncConfig(db, c);
    EveryStateOk(states, steps, i);
    EveryStateHashFaithful(states, steps, i);
    SyncKeepsCoherent(db, c);
    SyncKeepsHashFaithful(db, c);
    assert SyncConfig(synced, c) == synced;
    LeasedSlotsAreRunningAttempts(synced);
    ReportMatchesReserve(synced, c, request, newId, attempt);
  }
}
