/**
  The retry loop of internal/poolgateway/gateway.go. What the provider answers, whether a
  transaction commits and whether a backoff is cut short are supplied per attempt. The loop is
  proved to follow the process steps of PoolSystem.
 */
module PoolGateway {
  import opened Prelude
  import opened PoolModel
  import opened PoolInvariants
  import opened PoolRetry
  import opened PoolSystem
  import opened PoolStore

  datatype Outcome =
    | Answer(output: Option<string>)
    | ProviderError(error: GatewayError)
    | OtherError(message: string)

  /** Everything outside the gateway that one attempt meets. */
  datatype Conditions = Conditions(
    outcome: Outcome, now: int, completionCommits: bool, closeCommits: bool,
    interruptedAfter: Option<nat>, retryCommits: bool, nextAttemptId: Id, message: string)

  /** The transactions that end an attempt and close its invocation get through. */
  predicate Settles(w: Conditions) {
    w.completionCommits && w.closeCommits
  }

  /** Whether the backoff before the next attempt is cut short, and how long is slept at most. */
  predicate Interrupted(w: Conditions, policy: RetryPolicy, attempt: nat) {
    w.interruptedAfter.Some? && w.interruptedAfter.value <= attempt * policy.baseBackoff
  }

  /** A provider error that calls for another attempt. */
  predicate CallsForRetry(request: Request, policy: RetryPolicy, attempt: nat, e: GatewayError) {
    !request.streaming && attempt < policy.maxAttempts && e.retryable
  }

  /** The error that a failed invocation ends on, after an attempt met the conditions w. */
  predicate EndsOn(error: GatewayError, request: Request, policy: RetryPolicy, attempt: nat, w: Conditions) {
    match w.outcome
    case Answer(_) => false
    case OtherError(message) => error == GatewayError(GatewayInternalError, message, false)
    case ProviderError(e) =>
      if !CallsForRetry(request, policy, attempt, e) then error == e
      else if Interrupted(w, policy, attempt) || !w.retryCommits then error == GatewayError(GatewayInternalError, w.message, false)
      else error == e || error == GatewayError(GatewayInternalError, w.message, false)
  }

  /** What the caller is told when the attempt under conditions w was the last one. */
  predicate Tells(response: Response, request: Request, policy: RetryPolicy, attempt: nat, w: Conditions) {
    match response
    case Success(row) =>
      w.outcome.Answer? && row.status == Succeeded && row.output == w.outcome.output && row.error == None && row.finishedAt == Some(w.now)
    case InvocationFailed(row) =>
      && row.status == Failed && row.output == None && row.finishedAt == Some(w.now)
      && row.error.Some? && EndsOn(row.error.value, request, policy, attempt, w)
    case _ => true
  }

  datatype Response =
    | Success(row: InvocationRow)
    | InvocationFailed(row: InvocationRow)
    | StoreFailed
    | NotReserved(error: PoolError)

  /** A run of the whole system so far; Now is the state it has reached. */
  datatype History = History(states: seq<System>, steps: seq<Step>)

  ghost predicate IsHistory(h: History) {
    IsRun(h.states, h.steps)
  }

  ghost function Now(h: History): System
    requires IsHistory(h)
  {
    h.states[|h.steps|]
  }

  ghost function Extend(h: History, step: Step): (h': History)
    requires IsHistory(h) && Enabled(Now(h), step)
    ensures IsHistory(h') && Now(h') == Apply(Now(h), step)
  {
    ExtendsRun(h.states, h.steps, step);
    History(h.states + [Apply(Now(h), step)], h.steps + [step])
  }

  /** The run has reached the store's tables, and this gateway call is process me of it. */
  ghost predicate Follows(h: History, me: nat, store: Store)
    reads store
  {
    IsHistory(h) && Now(h).db == store.Tables() && me in Now(h).procs
  }

  /** Only process me has moved, and only its phase. */
  ghost predicate OnlyMoved(s: System, s': System, me: nat)
    requires me in s.procs
  {
    me in s'.procs && s'.procs == s.procs[me := s.procs[me].(phase := s'.procs[me].phase)]
    && InvocationOf(s'.procs[me].phase) == InvocationOf(s.procs[me].phase)
  }

  /** What the caller gets back says how the run ended. */
  ghost predicate EndsAs(response: Response, s: System, me: nat)
    requires me in s.procs
  {
    var i := InvocationOf(s.procs[me].phase);
    match response
    case NotReserved(_) => false
    case StoreFailed => s.procs[me].phase.Abandoned?
    case Success(row) => s.procs[me].phase.Returned? && i in s.db.invocations && s.db.invocations[i] == row && row.status == Succeeded
    case InvocationFailed(row) => s.procs[me].phase.Returned? && i in s.db.invocations && s.db.invocations[i] == row && row.status == Failed
  }

  lemma HolderCompletes(h: History, me: nat)
    requires IsHistory(h) && me in Now(h).procs && Now(h).procs[me].phase.Holding?
    ensures RuntimeRow(Now(h).db, Now(h).procs[me].phase.reservation).Ok?
  {
    EveryStateOk(h.states, h.steps, |h.steps|);
    HolderFindsItsLease(Now(h).db, Now(h).procs[me].phase.reservation);
  }

  lemma InvocationKnown(h: History, me: nat)
    requires IsHistory(h) && me in Now(h).procs
    ensures InvocationOf(Now(h).procs[me].phase) in Now(h).db.invocations
  {
    EveryStateOk(h.states, h.steps, |h.steps|);
    assert ProcessOk(Now(h).db, Now(h).procs[me]);
  }

  /** The bounds of the system invariant, for the process of this run. */
  lemma RunBounds(h: History, me: nat)
    requires IsHistory(h) && me in Now(h).procs
    ensures var p := Now(h).procs[me];
      && AttemptsBounded(Now(h).db, p)
      && 0 <= p.phase.slept <= SleptBefore(p.policy, p.policy.maxAttempts)
      && (p.phase.Returned? ==> NothingRunning(Now(h).db, InvocationOf(p.phase)))
  {
    EveryStateOk(h.states, h.steps, |h.steps|);
    assert ProcessOk(Now(h).db, Now(h).procs[me]);
  }

  lemma WaiterReserves(db: Db, c: ModelConfig, request: Request, invocation: Id, attempt: Id)
    ensures var r := ReserveTx(db, c, request, Some(invocation), invocation, attempt);
      r.Ok? ==> r.value.1.invocationId == invocation && r.value.0.attempts.Keys == db.attempts.Keys + {attempt}
  {
  }

  lemma StarterReserves(db: Db, c: ModelConfig, request: Request, invocation: Id, attempt: Id)
    ensures var r := ReserveTx(db, c, request, None, invocation, attempt);
      r.Ok? ==> r.value.1.invocationId == invocation && r.value.0.attempts.Keys == db.attempts.Keys + {attempt}
  {
  }

  lemma PhaseAfterRetry(s: System, me: nat, step: Step)
    requires step.Retry? && step.proc == me && Enabled(s, step)
    ensures var w := s.procs[me].phase; var slept := w.slept + BackoffFor(s.procs[me].policy, w.attempt);
      var r := ReserveTx(s.db, s.procs[me].config, s.procs[me].request, Some(w.invocation), w.invocation, step.attemptId);
      && me in Apply(s, step).procs
      && Apply(s, step).procs[me].phase ==
         if step.commits && r.Ok? then Holding(r.value.1, w.attempt + 1, slept)
         else Finishing(w.invocation, slept, RetryRefused(w, step.commits, r, step.message))
  {
  }

  /** The ids the world will supply from attempt n on are new and different. */
  ghost predicate FreshIds(world: nat -> Conditions, n: nat, taken: set<Id>) {
    && (forall k: nat | k >= n :: world(k).nextAttemptId !in taken)
    && (forall j: nat, k: nat | n <= j < k :: world(j).nextAttemptId != world(k).nextAttemptId)
  }

  lemma StillFresh(world: nat -> Conditions, n: nat, taken: set<Id>, taken': set<Id>)
    requires FreshIds(world, n, taken) && taken' <= taken + {world(n).nextAttemptId}
    ensures FreshIds(world, n + 1, taken')
  {
  }

  class Gateway {
    const store: Store
    const retryPolicy: Option<RetryPolicy>

    constructor (store: Store, retryPolicy: Option<RetryPolicy>)
      ensures this.store == store && this.retryPolicy == retryPolicy
    {
      this.store, this.retryPolicy := store, retryPolicy;
    }

    /** resolveRetryPolicy: the gateway's own policy, else the configuration's. */
    function PolicyFor(config: ModelConfig): (policy: RetryPolicy)
      ensures IsNormal(policy)
      ensures retryPolicy.Some? && IsNormal(retryPolicy.value) ==> policy == retryPolicy.value
    {
      if retryPolicy.Some? then Normalized(retryPolicy.value) else PolicyOf(config)
    }

    /** finishInvocationFailure */
    method FinishInvocationFailure(invocation: Id, e: GatewayError, now: int, commits: bool,
                                   ghost me: nat, ghost h: History)
      returns (response: Response, ghost h': History)
      requires Follows(h, me, store)
      requires Now(h).procs[me].phase.Finishing? && Now(h).procs[me].phase.invocation == invocation && Now(h).procs[me].phase.error == e
      modifies store
      ensures Follows(h', me, store) && OnlyMoved(Now(h), Now(h'), me) && EndsAs(response, Now(h'), me)
      ensures Now(h').procs[me].phase.slept == Now(h).procs[me].phase.slept
      ensures store.attempts == old(store.attempts)
      ensures response.StoreFailed? <==> !commits
      ensures response.InvocationFailed? ==> response.row.output == None && response.row.error == Some(e) && response.row.finishedAt == Some(now)
      ensures !response.Success?
    {
      ghost var step := Finish(me, now, commits);
      InvocationKnown(h, me);
      h' := Extend(h, step);
      if commits {
        var r := store.RecordInvocationFailure(invocation, e, now);
        response := if r.Ok? then InvocationFailed(r.value) else StoreFailed;
      } else {
        response := StoreFailed;
      }
    }

    /** finishInternalFailure: record the attempt, then close the invocation. */
    method FinishInternalFailure(reservation: Reservation, message: string, w: Conditions,
                                 ghost me: nat, ghost h: History)
      returns (response: Response, ghost h': History)
      requires Follows(h, me, store)
      requires Now(h).procs[me].phase.Holding? && Now(h).procs[me].phase.reservation == reservation
      modifies store
      ensures Follows(h', me, store) && OnlyMoved(Now(h), Now(h'), me) && EndsAs(response, Now(h'), me)
      ensures Now(h').procs[me].phase.slept == Now(h).procs[me].phase.slept
      ensures Settles(w) ==> !response.StoreFailed?
      ensures !response.Success?
      ensures response.InvocationFailed? ==>
        && response.row.output == None && response.row.finishedAt == Some(w.now)
        && response.row.error == Some(GatewayError(GatewayInternalError, message, false))
    {
      ghost var step := InternalFailure(me, message, w.now, w.completionCommits);
      HolderCompletes(h, me);
      h' := Extend(h, step);
      if !w.completionCommits {
        return StoreFailed, h';
      }
      var r := store.RecordAttemptFailure(reservation, InternalError(message), w.now);
      response, h' := FinishInvocationFailure(
        reservation.invocationId, InternalError(message), w.now, w.closeCommits, me, h');
    }

    /** The provider answered: CompleteInvocationSuccess. */
    method FinishSuccess(reservation: Reservation, output: Option<string>, w: Conditions,
                         ghost me: nat, ghost h: History)
      returns (response: Response, ghost h': History)
      requires Follows(h, me, store)
      requires Now(h).procs[me].phase.Holding? && Now(h).procs[me].phase.reservation == reservation
      modifies store
      ensures Follows(h', me, store) && OnlyMoved(Now(h), Now(h'), me) && EndsAs(response, Now(h'), me)
      ensures Now(h').procs[me].phase.slept == Now(h).procs[me].phase.slept
      ensures Settles(w) ==> !response.StoreFailed?
      ensures !response.InvocationFailed?
      ensures response.Success? ==> response.row.output == output && response.row.error == None && response.row.finishedAt == Some(w.now)
    {
      ghost var step := Succeed(me, output, w.now, w.completionCommits);
      HolderCompletes(h, me);
      h' := Extend(h, step);
      if w.completionCommits {
        var r := store.CompleteInvocationSuccess(reservation, output, w.now);
        response := if r.Ok? then Success(r.value) else StoreFailed;
      } else {
        response := StoreFailed;
      }
    }

    /** ReserveRetryAttempt after a completed backoff, or the reason to give up. */
    method ReserveNext(config: ModelConfig, request: Request, policy: RetryPolicy, invocation: Id, attempt: nat,
                       e: GatewayError, w: Conditions, ghost me: nat, ghost h: History)
      returns (next: Option<Reservation>, refusal: GatewayError, ghost h': History)
      requires Follows(h, me, store) && w.nextAttemptId !in store.attempts
      requires Now(h).procs[me] == Process(config, request, policy, Waiting(invocation, attempt, Now(h).procs[me].phase.slept, e))
      modifies store
      ensures Follows(h', me, store) && OnlyMoved(Now(h), Now(h'), me)
      ensures var slept := Now(h).procs[me].phase.slept + BackoffFor(policy, attempt);
        Now(h').procs[me].phase == if next.Some? then Holding(next.value, attempt + 1, slept) else Finishing(invocation, slept, refusal)
      ensures store.attempts.Keys <= old(store.attempts.Keys) + {w.nextAttemptId}
      ensures refusal == e || refusal == GatewayError(GatewayInternalError, w.message, false)
      ensures !w.retryCommits ==> next.None? && refusal == GatewayError(GatewayInternalError, w.message, false)
      ensures next.None? && w.retryCommits ==>
        var r := ReserveTx(old(store.Tables()), config, request, Some(invocation), invocation, w.nextAttemptId);
        r.Err? && (refusal == if r.error.NoCapacity? || r.error.GlobalQuota? then e else GatewayError(GatewayInternalError, w.message, false))
    {
      ghost var step := Retry(me, w.nextAttemptId, w.message, w.retryCommits);
      h' := Extend(h, step);
      WaiterReserves(Now(h).db, config, request, invocation, w.nextAttemptId);
      PhaseAfterRetry(Now(h), me, step);
      next, refusal := None, InternalError(w.message);
      if w.retryCommits {
        var r := store.Reserve(config, request, Some(invocation), invocation, w.nextAttemptId);
        if r.Ok? {
          next := Some(r.value);
        } else if r.error.NoCapacity? || r.error.GlobalQuota? {
          refusal := e;
        }
      }
    }

    /** Back off and reserve the next attempt, or give up. */
    method BackOffAndRetry(config: ModelConfig, request: Request, policy: RetryPolicy, invocation: Id, attempt: nat,
                           e: GatewayError, w: Conditions, ghost me: nat, ghost h: History)
      returns (next: Option<Reservation>, response: Response, slept: int, ghost h': History)
      requires Follows(h, me, store) && w.nextAttemptId !in store.attempts
      requires Now(h).procs[me] == Process(config, request, policy, Waiting(invocation, attempt, Now(h).procs[me].phase.slept, e))
      modifies store
      ensures Follows(h', me, store) && OnlyMoved(Now(h), Now(h'), me)
      ensures Now(h').procs[me].phase.slept == Now(h).procs[me].phase.slept + slept
      ensures if next.Some? then Now(h').procs[me].phase == Holding(next.value, attempt + 1, Now(h).procs[me].phase.slept + slept)
              else EndsAs(response, Now(h'), me)
      ensures next.None? && Settles(w) ==> !response.StoreFailed?
      ensures IsNormal(policy) ==> slept == if Interrupted(w, policy, attempt) then w.interruptedAfter.value else attempt * policy.baseBackoff
      ensures !response.Success?
      ensures next.None? && response.InvocationFailed? ==>
        && response.row.output == None && response.row.finishedAt == Some(w.now)
        && (response.row.error == Some(e) || response.row.error == Some(GatewayError(GatewayInternalError, w.message, false)))
      ensures next.None? && response.InvocationFailed? && IsNormal(policy) && (Interrupted(w, policy, attempt) || !w.retryCommits) ==>
        response.row.error == Some(GatewayError(GatewayInternalError, w.message, false))
      ensures store.attempts.Keys <= old(store.attempts.Keys) + {w.nextAttemptId}
    {
      next, response, slept := None, StoreFailed, BackoffFor(policy, attempt);
      var e' := InternalError(w.message);
      if w.interruptedAfter.Some? && w.interruptedAfter.value <= slept {
        slept := w.interruptedAfter.value;
        ghost var step := BackoffInterrupted(me, slept, w.message);
        h' := Extend(h, step);
      } else {
        next, e', h' := ReserveNext(config, request, policy, invocation, attempt, e, w, me, h);
      }
      if next.None? {
        response, h' := FinishInvocationFailure(invocation, e', w.now, w.closeCommits, me, h');
      }
    }

    /** CompleteAttemptFailure for a provider error. */
    method RecordProviderError(reservation: Reservation, e: GatewayError, w: Conditions,
                               ghost me: nat, ghost h: History)
      returns (ghost h': History)
      requires Follows(h, me, store)
      requires Now(h).procs[me].phase.Holding? && Now(h).procs[me].phase.reservation == reservation
      modifies store
      ensures Follows(h', me, store) && OnlyMoved(Now(h), Now(h'), me) && store.attempts.Keys == old(store.attempts.Keys)
      ensures Now(h').procs[me].phase ==
        if w.completionCommits then AfterFailure(Now(h).procs[me], e) else Abandoned(reservation.invocationId, Now(h).procs[me].phase.slept)
    {
      ghost var step := ProviderFails(me, e, w.now, w.completionCommits);
      HolderCompletes(h, me);
      h' := Extend(h, step);
      if w.completionCommits {
        var recorded := store.RecordAttemptFailure(reservation, e, w.now);
        assert store.Tables().attempts.Keys == old(store.Tables()).attempts.Keys;
      }
    }

    /** A provider error: record the attempt, then retry or close the invocation. */
    method HandleProviderError(config: ModelConfig, request: Request, policy: RetryPolicy, reservation: Reservation, attempt: nat,
                               e: GatewayError, w: Conditions, ghost me: nat, ghost h: History)
      returns (next: Option<Reservation>, response: Response, slept: int, ghost h': History)
      requires Follows(h, me, store) && w.nextAttemptId !in store.attempts && IsNormal(policy)
      requires Now(h).procs[me].phase.Holding? && Now(h).procs[me].phase.reservation == reservation && Now(h).procs[me].phase.attempt == attempt
      requires Now(h).procs[me] == Process(config, request, policy, Now(h).procs[me].phase)
      modifies store
      ensures Follows(h', me, store) && OnlyMoved(Now(h), Now(h'), me)
      ensures Now(h').procs[me].phase.slept == Now(h).procs[me].phase.slept + slept
      ensures if next.Some? then Now(h').procs[me].phase == Holding(next.value, attempt + 1, Now(h).procs[me].phase.slept + slept)
              else EndsAs(response, Now(h'), me)
      ensures next.None? && Settles(w) ==> !response.StoreFailed?
      ensures next.Some? ==> CallsForRetry(request, policy, attempt, e)
      ensures slept == if !w.completionCommits || !CallsForRetry(request, policy, attempt, e) then 0
        else if Interrupted(w, policy, attempt) then w.interruptedAfter.value else attempt * policy.baseBackoff
      ensures w.outcome == ProviderError(e) && next.None? ==> Tells(response, request, policy, attempt, w)
      ensures next.Some? ==> attempt < policy.maxAttempts && !request.streaming
      ensures store.attempts.Keys <= old(store.attempts.Keys) + {w.nextAttemptId}
    {
      next, slept, response := None, 0, StoreFailed;
      h' := RecordProviderError(reservation, e, w, me, h);
      if !w.completionCommits {
        return;
      }
      if request.streaming || !ShouldRetry(policy, attempt, e) {
        response, h' := FinishInvocationFailure(
          reservation.invocationId, e, w.now, w.closeCommits, me, h');
      } else {
        next, response, slept, h' := BackOffAndRetry(
          config, request, policy, reservation.invocationId, attempt, e, w, me, h');
      }
    }

    /** The body of the retry loop: one attempt under the given conditions. */
    method OneAttempt(config: ModelConfig, request: Request, policy: RetryPolicy, reservation: Reservation, attempt: nat,
                      w: Conditions, ghost me: nat, ghost h: History)
      returns (next: Option<Reservation>, response: Response, slept: int, ghost h': History)
      requires Follows(h, me, store) && w.nextAttemptId !in store.attempts && IsNormal(policy)
      requires Now(h).procs[me].phase.Holding? && Now(h).procs[me].phase.reservation == reservation && Now(h).procs[me].phase.attempt == attempt
      requires Now(h).procs[me] == Process(config, request, policy, Now(h).procs[me].phase)
      modifies store
      ensures Follows(h', me, store) && OnlyMoved(Now(h), Now(h'), me)
      ensures Now(h').procs[me].phase.slept == Now(h).procs[me].phase.slept + slept
      ensures if next.Some? then Now(h').procs[me].phase == Holding(next.value, attempt + 1, Now(h).procs[me].phase.slept + slept)
              else EndsAs(response, Now(h'), me)
      ensures next.None? && Settles(w) ==> !response.StoreFailed?
      ensures next.None? ==> Tells(response, request, policy, attempt, w)
      ensures next.Some? ==> w.outcome.ProviderError? && CallsForRetry(request, policy, attempt, w.outcome.error)
      ensures next.Some? ==> attempt < policy.maxAttempts && !request.streaming
      ensures next.Some? ==> store.attempts.Keys <= old(store.attempts.Keys) + {w.nextAttemptId}
    {
      next, slept := None, 0;
      match w.outcome
      case OtherError(message) =>
        response, h' := FinishInternalFailure(reservation, message, w, me, h);
      case Answer(output) =>
        response, h' := FinishSuccess(reservation, output, w, me, h);
      case ProviderError(e) =>
        next, response, slept, h' := HandleProviderError(
          config, request, policy, reservation, attempt, e, w, me, h);
    }

    /** The retry loop itself. */
    method RetryLoop(config: ModelConfig, request: Request, policy: RetryPolicy, reservation: Reservation,
                     world: nat -> Conditions, ghost me: nat, ghost h: History)
      returns (response: Response, attempts: nat, slept: int, ghost h': History)
      requires Follows(h, me, store) && IsNormal(policy) && FreshIds(world, 1, store.attempts.Keys)
      requires Now(h).procs[me] == Process(config, request, policy, Holding(reservation, 1, 0))
      modifies store
      ensures Follows(h', me, store) && OnlyMoved(Now(h), Now(h'), me) && EndsAs(response, Now(h'), me)
      ensures Now(h').procs[me].phase.slept == slept
      ensures (forall k :: Settles(world(k))) ==> !response.StoreFailed?
      ensures Tells(response, request, policy, attempts, world(attempts))
      ensures forall k | 1 <= k < attempts :: world(k).outcome.ProviderError? && CallsForRetry(request, policy, k, world(k).outcome.error)
      ensures 1 <= attempts <= policy.maxAttempts && (request.streaming ==> attempts == 1)
    {
      var current := Some(reservation);
      attempts, slept, response := 1, 0, StoreFailed;
      h' := h;
      while current.Some?
        invariant Follows(h', me, store) && OnlyMoved(Now(h), Now(h'), me) && Now(h').procs[me].phase.slept == slept
        invariant if current.Some? then Now(h').procs[me].phase == Holding(current.value, attempts, slept) else EndsAs(response, Now(h'), me)
        invariant 1 <= attempts <= policy.maxAttempts && (request.streaming ==> attempts == 1)
        invariant current.Some? ==> FreshIds(world, attempts, store.attempts.Keys)
        invariant current.None? && (forall k :: Settles(world(k))) ==> !response.StoreFailed?
        invariant current.None? ==> Tells(response, request, policy, attempts, world(attempts))
        invariant forall k | 1 <= k < attempts :: world(k).outcome.ProviderError? && CallsForRetry(request, policy, k, world(k).outcome.error)
        decreases policy.maxAttempts - attempts, current.Some?
      {
        ghost var known := store.attempts.Keys;
        var pause;
        current, response, pause, h' := OneAttempt(
          config, request, policy, current.value, attempts, world(attempts), me, h');
        slept := slept + pause;
        if current.Some? {
          StillFresh(world, attempts, known, store.attempts.Keys);
          attempts := attempts + 1;
        }
      }
    }

    /** invokeReserved: at most maxAttempts attempts, bounded sleep, and the lease released. */
    method InvokeReserved(config: ModelConfig, request: Request, policy: RetryPolicy, reservation: Reservation,
                          world: nat -> Conditions, ghost me: nat, ghost h: History)
      returns (response: Response, attempts: nat, slept: int, ghost h': History)
      requires Follows(h, me, store) && IsNormal(policy) && FreshIds(world, 1, store.attempts.Keys)
      requires Now(h).procs[me] == Process(config, request, policy, Holding(reservation, 1, 0))
      modifies store
      ensures Follows(h', me, store) && OnlyMoved(Now(h), Now(h'), me) && EndsAs(response, Now(h'), me)
      ensures 1 <= attempts <= policy.maxAttempts && (request.streaming ==> attempts == 1)
      ensures 1 <= |AttemptsOf(store.Tables(), reservation.invocationId)| <= policy.maxAttempts
      ensures 0 <= slept <= SleptBefore(policy, policy.maxAttempts)
      ensures (forall k :: Settles(world(k))) ==> !response.StoreFailed?
      ensures Tells(response, request, policy, attempts, world(attempts))
      ensures forall k | 1 <= k < attempts :: world(k).outcome.ProviderError? && CallsForRetry(request, policy, k, world(k).outcome.error)
      ensures !response.StoreFailed? ==> NothingRunning(store.Tables(), reservation.invocationId)
    {
      response, attempts, slept, h' := RetryLoop(config, request, policy, reservation, world, me, h);
      RunBounds(h', me);
    }

    /** ReserveInvocation as the first step of process me. */
    method ReserveFirst(config: ModelConfig, request: Request, policy: RetryPolicy, newId: Id, attemptId: Id, ghost me: nat, ghost h: History)
      returns (r: Result<Reservation, PoolError>, ghost h': History)
      requires IsHistory(h) && Now(h).db == store.Tables() && me !in Now(h).procs && IsNormal(policy)
      requires newId !in store.invocations && attemptId !in store.attempts
      modifies store
      ensures IsHistory(h') && Now(h').db == store.Tables()
      ensures r.Err? ==> Now(h') == Now(h)
      ensures r.Ok? ==>
        && Now(h').procs == Now(h).procs[me := Process(config, request, policy, Holding(r.value, 1, 0))]
        && r.value.invocationId == newId && store.attempts.Keys == old(store.attempts.Keys) + {attemptId}
    {
      h' := Extend(h, Begin(me, config, request, policy, newId, attemptId));
      StarterReserves(Now(h).db, config, request, newId, attemptId);
      r := store.Reserve(config, request, None, newId, attemptId);
    }

    /** Invoke: reserve, check the request against the API's mode, then run the attempts. */
    method Invoke(config: ModelConfig, request: Request, newId: Id, attemptId: Id, modeError: Option<string>,
                  world: nat -> Conditions, ghost me: nat, ghost h: History)
      returns (response: Response, attempts: nat, slept: int, ghost h': History)
      requires IsHistory(h) && Now(h).db == store.Tables() && me !in Now(h).procs
      requires newId !in store.invocations && attemptId !in store.attempts
      requires FreshIds(world, 1, store.attempts.Keys + {attemptId})
      modifies store
      ensures response.NotReserved? ==> store.Tables() == old(store.Tables())
      ensures !response.NotReserved? ==>
        && Follows(h', me, store) && EndsAs(response, Now(h'), me) && InvocationOf(Now(h').procs[me].phase) == newId
        && 1 <= attempts <= PolicyFor(config).maxAttempts && (request.streaming ==> attempts == 1)
        && 0 <= slept <= SleptBefore(PolicyFor(config), PolicyFor(config).maxAttempts)
        && ((forall k :: Settles(world(k))) ==> response.Success? || response.InvocationFailed?)
        && (modeError.None? ==> Tells(response, request, PolicyFor(config), attempts, world(attempts)))
        && (forall k | 1 <= k < attempts :: world(k).outcome.ProviderError? && CallsForRetry(request, PolicyFor(config), k, world(k).outcome.error))
      ensures modeError.Some? ==> !response.Success? && (response.InvocationFailed? ==>
        response.row.error == Some(GatewayError(GatewayInternalError, modeError.value, false)) && response.row.output == None)
      ensures response.Success? || response.InvocationFailed? ==> NothingRunning(store.Tables(), newId)
    {
      attempts, slept := 1, 0;
      var policy := PolicyFor(config);
      var r;
      r, h' := ReserveFirst(config, request, policy, newId, attemptId, me, h);
      if r.Err? {
        response := NotReserved(r.error);
        return;
      }
      if modeError.Some? {
        response, h' := FinishInternalFailure(r.value, modeError.value, world(0), me, h');
        RunBounds(h', me);
      } else {
        response, attempts, slept, h' := InvokeReserved(config, request, policy, r.value, world, me, h');
      }
    }
  }
}
