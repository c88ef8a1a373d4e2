/**
  What every transaction keeps: lease counts equal running attempts, an invocation has at most
  one running attempt and agrees with it on the API, and every stored status is the resolved one.
 */
module PoolInvariants {
  import opened Prelude
  import opened PoolModel

  ghost predicate IsRunning(db: Db, attempt: Id) {
    attempt in db.attempts && db.attempts[attempt].status == Running
  }

  ghost function RunningAttempts(db: Db): set<Id> {
    set a | a in db.attempts && IsRunning(db, a)
  }

  ghost function RunningOn(db: Db, api: Id): set<Id> {
    set a | a in db.attempts && IsRunning(db, a) && db.attempts[a].apiId == api
  }

  ghost function AttemptsOf(db: Db, invocation: Id): set<Id> {
    set a | a in db.attempts && db.attempts[a].invocationId == invocation
  }

  ghost predicate NothingRunning(db: Db, invocation: Id) {
    forall a | a in db.attempts && db.attempts[a].invocationId == invocation :: !IsRunning(db, a)
  }

  ghost predicate Referential(db: Db) {
    && (forall i | i in db.invocations :: db.invocations[i].apiId in db.apis)
    && (forall a | a in db.attempts :: db.attempts[a].invocationId in db.invocations && db.attempts[a].apiId in db.apis)
  }

  ghost predicate LeasesCounted(db: Db) {
    forall id | id in db.apis :: db.apis[id].leaseCount == |RunningOn(db, id)|
  }

  ghost predicate OneRunningEach(db: Db) {
    forall a, b | IsRunning(db, a) && IsRunning(db, b) && db.attempts[a].invocationId == db.attempts[b].invocationId :: a == b
  }

  ghost predicate RunningAgrees(db: Db)
    requires Referential(db)
  {
    forall a | IsRunning(db, a) ::
      var inv := db.invocations[db.attempts[a].invocationId];
      inv.status == Running && inv.apiId == db.attempts[a].apiId
  }

  ghost predicate StatusesResolved(db: Db) {
    forall id | id in db.apis :: db.apis[id].status == RowStatus(db.apis[id], Threshold(db))
  }

  ghost predicate Coherent(db: Db) {
    && Referential(db)
    && LeasesCounted(db)
    && OneRunningEach(db)
    && RunningAgrees(db)
    && StatusesResolved(db)
    && (forall id | id in db.apis :: db.apis[id].failureCount >= 0)
  }

  /** The holder of a reservation sees its own running attempt and its own invocation. */
  ghost predicate Holds(db: Db, r: Reservation) {
    && r.attemptId in db.attempts
    && db.attempts[r.attemptId].invocationId == r.invocationId
    && db.attempts[r.attemptId].apiId == r.apiId
    && db.attempts[r.attemptId].status == Running
  }

  /** Nothing but the rows of one invocation changed. */
  ghost predicate OthersKept(db: Db, db': Db, invocation: Id) {
    && (forall i | i in db.invocations && i != invocation :: i in db'.invocations && db'.invocations[i] == db.invocations[i])
    && (forall a | a in db.attempts && db.attempts[a].invocationId != invocation :: a in db'.attempts && db'.attempts[a] == db.attempts[a])
    && (forall a | a in db'.attempts && db'.attempts[a].invocationId != invocation :: a in db.attempts && db.attempts[a] == db'.attempts[a])
  }

  // Sync ---------------------------------------------------------------------------------

  ghost predicate CarriedOver(before: map<Id, ApiRow>, row: ApiRow, id: Id) {
    && row.leaseCount == (if id in before then before[id].leaseCount else 0)
    && row.failureCount == (if id in before then before[id].failureCount else 0)
    && row.lastError == (if id in before then before[id].lastError else None)
  }

  lemma {:induction false} UpsertAllRows(apis: map<Id, ApiRow>, configs: seq<ApiConfig>, threshold: int)
    ensures var r := UpsertAll(apis, configs, threshold);
      && r.Keys == apis.Keys + ConfiguredIds(configs)
      && (forall id | id in r :: CarriedOver(apis, r[id], id))
      && (forall id | id in ConfiguredIds(configs) :: r[id].status == RowStatus(r[id], threshold))
      && (forall id | id in apis && id !in ConfiguredIds(configs) :: r[id] == apis[id])
  {
    if configs != [] {
      var n := |configs| - 1;
      UpsertAllRows(apis, configs[..n], threshold);
      ConfiguredSnoc(configs);
    }
  }

  lemma ConfiguredSnoc(configs: seq<ApiConfig>)
    requires configs != []
    ensures ConfiguredIds(configs) == ConfiguredIds(configs[..|configs| - 1]) + {configs[|configs| - 1].apiId}
  {
    var n := |configs| - 1;
    assert forall i | 0 <= i < n :: configs[..n][i] == configs[i];
    forall id | id in ConfiguredIds(configs) ensures id in ConfiguredIds(configs[..n]) + {configs[n].apiId} {
      var i :| 0 <= i < |configs| && configs[i].apiId == id;
      if i < n { assert configs[..n][i].apiId == id; }
    }
  }

  /** Sync touches no invocation and no attempt and keeps every counter. */
  lemma FullSyncRows(db: Db, c: ModelConfig)
    ensures var db' := FullSync(db, c);
      && db'.invocations == db.invocations && db'.attempts == db.attempts
      && db'.apis.Keys == db.apis.Keys + ConfiguredIds(c.apis)
      && (forall id | id in db'.apis :: CarriedOver(db.apis, db'.apis[id], id))
      && StatusesResolved(db')
  {
    UpsertAllRows(db.apis, c.apis, c.offlineFailureThreshold);
  }

  lemma SameRunsSameCounts(db: Db, db': Db)
    requires Coherent(db)
    requires db'.invocations == db.invocations && db'.attempts == db.attempts
    requires db.apis.Keys <= db'.apis.Keys
    requires forall id | id in db'.apis :: CarriedOver(db.apis, db'.apis[id], id)
    ensures LeasesCounted(db')
  {
    forall id | id in db'.apis ensures db'.apis[id].leaseCount == |RunningOn(db', id)| {
      assert RunningOn(db', id) == RunningOn(db, id);
      if id !in db.apis {
        assert RunningOn(db, id) == {};
      }
    }
  }

  lemma FullSyncKeepsCoherent(db: Db, c: ModelConfig)
    requires Coherent(db)
    ensures Coherent(FullSync(db, c))
  {
    FullSyncRows(db, c);
    var db' := FullSync(db, c);
    SameRunsSameCounts(db, db');
    assert Referential(db');
    assert forall a :: IsRunning(db', a) <==> IsRunning(db, a);
  }

  lemma SyncKeepsCoherent(db: Db, c: ModelConfig)
    requires Coherent(db)
    ensures Coherent(SyncConfig(db, c))
    ensures SyncConfig(db, c).invocations == db.invocations && SyncConfig(db, c).attempts == db.attempts
  {
    if db.meta.configHash == Some(Digest(c)) {
      assert SyncConfig(db, c) == db;
    } else {
      FullSyncKeepsCoherent(db, c);
      assert SyncConfig(db, c) == FullSync(db, c);
    }
  }

  // Reserve ------------------------------------------------------------------------------

  ghost predicate FreshFor(db: Db, retryOf: Option<Id>, newId: Id, attempt: Id) {
    && attempt !in db.attempts
    && (retryOf.None? ==> newId !in db.invocations)
    && (retryOf.Some? ==> NothingRunning(db, retryOf.value))
  }

  lemma ReserveOnRunning(db: Db, request: Request, api: Id, invocation: Id, attempt: Id, id: Id)
    requires api in db.apis && attempt !in db.attempts
    ensures var db' := ReserveOn(db, request, api, invocation, attempt);
      RunningOn(db', id) == if id == api then RunningOn(db, id) + {attempt} else RunningOn(db, id)
  {
    var db' := ReserveOn(db, request, api, invocation, attempt);
    forall a | a in db.attempts ensures a in db'.attempts && db'.attempts[a] == db.attempts[a] {
    }
  }

  lemma ReserveOnCounts(db: Db, request: Request, api: Id, invocation: Id, attempt: Id)
    requires LeasesCounted(db) && api in db.apis && attempt !in db.attempts
    ensures LeasesCounted(ReserveOn(db, request, api, invocation, attempt))
  {
    var db' := ReserveOn(db, request, api, invocation, attempt);
    forall id | id in db'.apis ensures db'.apis[id].leaseCount == |RunningOn(db', id)| {
      ReserveOnRunning(db, request, api, invocation, attempt, id);
    }
  }

  /** The status shortcut of the reserve transaction agrees with the resolver. */
  lemma ReserveOnStatuses(db: Db, request: Request, api: Id, invocation: Id, attempt: Id)
    requires StatusesResolved(db) && Eligible(db, request.pinned, api)
    ensures StatusesResolved(ReserveOn(db, request, api, invocation, attempt))
  {
    assert db.apis[api].status == RowStatus(db.apis[api], Threshold(db));
  }

  lemma ReserveOnRuns(db: Db, request: Request, api: Id, invocation: Id, attempt: Id)
    requires Referential(db) && RunningAgrees(db) && OneRunningEach(db)
    requires api in db.apis && attempt !in db.attempts && NothingRunning(db, invocation)
    ensures var db' := ReserveOn(db, request, api, invocation, attempt);
      Referential(db') && RunningAgrees(db') && OneRunningEach(db')
  {
    var db' := ReserveOn(db, request, api, invocation, attempt);
    assert Referential(db');
    forall a | IsRunning(db', a) && a != attempt
      ensures IsRunning(db, a) && db'.attempts[a] == db.attempts[a] && db.attempts[a].invocationId != invocation
    {
    }
    assert db'.attempts[attempt].invocationId == invocation;
    assert RunningAgrees(db');
  }

  lemma ReserveOnKeepsCoherent(db: Db, request: Request, api: Id, invocation: Id, attempt: Id)
    requires Coherent(db) && Eligible(db, request.pinned, api)
    requires attempt !in db.attempts && NothingRunning(db, invocation)
    ensures Coherent(ReserveOn(db, request, api, invocation, attempt))
  {
    ReserveOnCounts(db, request, api, invocation, attempt);
    ReserveOnStatuses(db, request, api, invocation, attempt);
    ReserveOnRuns(db, request, api, invocation, attempt);
  }

  lemma ReserveOnKeepsOthers(db: Db, request: Request, api: Id, invocation: Id, attempt: Id)
    requires api in db.apis && attempt !in db.attempts
    ensures OthersKept(db, ReserveOn(db, request, api, invocation, attempt), invocation)
  {
  }

  lemma AttemptAdded(db: Db, request: Request, api: Id, invocation: Id, attempt: Id)
    requires api in db.apis && attempt !in db.attempts
    ensures |AttemptsOf(ReserveOn(db, request, api, invocation, attempt), invocation)| == |AttemptsOf(db, invocation)| + 1
  {
    var db' := ReserveOn(db, request, api, invocation, attempt);
    AttemptsOfExtended(db, db', attempt, invocation);
  }

  lemma AttemptsOfExtended(db: Db, db': Db, attempt: Id, invocation: Id)
    requires attempt !in db.attempts && db'.attempts.Keys == db.attempts.Keys + {attempt}
    requires db'.attempts[attempt].invocationId == invocation
    requires forall a | a in db.attempts :: db'.attempts[a] == db.attempts[a]
    ensures |AttemptsOf(db', invocation)| == |AttemptsOf(db, invocation)| + 1
  {
    assert AttemptsOf(db', invocation) == AttemptsOf(db, invocation) + {attempt};
  }

  /** What a reservation on an eligible API leaves behind. */
  ghost predicate Reserved(db: Db, db': Db, r: Reservation) {
    && Coherent(db') && Holds(db', r) && OthersKept(db, db', r.invocationId)
    && |AttemptsOf(db', r.invocationId)| == |AttemptsOf(db, r.invocationId)| + 1
  }

  lemma ReserveOnReserves(db: Db, request: Request, r: Reservation)
    requires Coherent(db) && Eligible(db, request.pinned, r.apiId)
    requires r.attemptId !in db.attempts && NothingRunning(db, r.invocationId)
    ensures Reserved(db, ReserveOn(db, request, r.apiId, r.invocationId, r.attemptId), r)
  {
    ReserveOnKeepsCoherent(db, request, r.apiId, r.invocationId, r.attemptId);
    ReserveOnKeepsOthers(db, request, r.apiId, r.invocationId, r.attemptId);
    AttemptAdded(db, request, r.apiId, r.invocationId, r.attemptId);
  }

  lemma ReservedSince(db: Db, synced: Db, db': Db, r: Reservation)
    requires Reserved(synced, db', r) && synced.invocations == db.invocations && synced.attempts == db.attempts
    ensures Reserved(db, db', r)
  {
    assert AttemptsOf(synced, r.invocationId) == AttemptsOf(db, r.invocationId);
  }

  lemma NoRunsYet(db: Db, synced: Db, invocation: Id)
    requires Referential(db) && synced.attempts == db.attempts && (invocation !in db.invocations || NothingRunning(db, invocation))
    ensures NothingRunning(synced, invocation)
  {
  }

  lemma ReserveKeepsCoherent(db: Db, c: ModelConfig, request: Request, retryOf: Option<Id>, newId: Id, attempt: Id)
    requires Coherent(db) && FreshFor(db, retryOf, newId, attempt)
    ensures var r := ReserveTx(db, c, request, retryOf, newId, attempt);
      r.Ok? ==>
        && Reserved(db, r.value.0, r.value.1)
        && r.value.1.attemptId == attempt
        && r.value.1.invocationId == (if retryOf.Some? then retryOf.value else newId)
  {
    var r := ReserveTx(db, c, request, retryOf, newId, attempt);
    if r.Ok? {
      SyncKeepsCoherent(db, c);
      var synced := SyncConfig(db, c);
      NoRunsYet(db, synced, r.value.1.invocationId);
      ReserveOnReserves(synced, request, r.value.1);
      ReservedSince(db, synced, r.value.0, r.value.1);
    }
  }

  // Complete -----------------------------------------------------------------------------

  /** The underflow and not-found branches cannot be taken by the holder of a reservation. */
  lemma HolderFindsItsLease(db: Db, r: Reservation)
    requires Coherent(db) && Holds(db, r)
    ensures RuntimeRow(db, r) == Ok(db.apis[r.apiId])
    ensures db.apis[r.apiId].leaseCount > 0
    ensures db.invocations[r.invocationId].status == Running && db.invocations[r.invocationId].apiId == r.apiId
  {
    assert IsRunning(db, r.attemptId);
    assert r.attemptId in RunningOn(db, r.apiId);
  }

  lemma HolderCanComplete(db: Db, r: Reservation, output: Option<string>, e: GatewayError, now: int)
    requires Coherent(db) && Holds(db, r)
    ensures CompleteSuccess(db, r, output, now).Ok? && CompleteAttemptFailure(db, r, e, now).Ok?
  {
    HolderFindsItsLease(db, r);
  }

  /** What both completions do to the tables besides the settled lease. */
  ghost predicate AttemptEnded(db: Db, db': Db, r: Reservation) {
    && db'.meta == db.meta
    && db'.attempts.Keys == db.attempts.Keys
    && !IsRunning(db', r.attemptId)
    && (forall a | a in db.attempts ::
          && db'.attempts[a].invocationId == db.attempts[a].invocationId
          && db'.attempts[a].apiId == db.attempts[a].apiId
          && (a != r.attemptId ==> db'.attempts[a] == db.attempts[a]))
    && db'.invocations.Keys == db.invocations.Keys
    && (forall i | i in db.invocations ::
          && db'.invocations[i].apiId == db.invocations[i].apiId
          && (i != r.invocationId ==> db'.invocations[i] == db.invocations[i]))
  }

  lemma SettledCounts(db: Db, db': Db, r: Reservation, failures: int, e: Option<string>)
    requires LeasesCounted(db) && Holds(db, r) && r.apiId in db.apis && AttemptEnded(db, db', r)
    requires db'.apis == SettleLease(db, db.apis[r.apiId], r.apiId, failures, e)
    ensures LeasesCounted(db')
  {
    forall id | id in db'.apis ensures db'.apis[id].leaseCount == |RunningOn(db', id)| {
      if id == r.apiId {
        assert r.attemptId in RunningOn(db, id);
        assert RunningOn(db', id) == RunningOn(db, id) - {r.attemptId};
      } else {
        assert RunningOn(db', id) == RunningOn(db, id);
      }
    }
  }

  /** What is still running was running before, for another invocation. */
  lemma SettledRuns(db: Db, db': Db, r: Reservation)
    requires Referential(db) && OneRunningEach(db) && RunningAgrees(db) && Holds(db, r) && AttemptEnded(db, db', r)
    requires db'.apis.Keys == db.apis.Keys
    ensures Referential(db') && OneRunningEach(db') && RunningAgrees(db') && NothingRunning(db', r.invocationId)
  {
    assert IsRunning(db, r.attemptId);
    assert Referential(db');
    forall a | IsRunning(db', a)
      ensures IsRunning(db, a) && db'.attempts[a] == db.attempts[a] && db.attempts[a].invocationId != r.invocationId
    {
    }
  }

  lemma SettledRows(db: Db, db': Db, r: Reservation, failures: int, e: Option<string>)
    requires StatusesResolved(db) && r.apiId in db.apis && failures >= 0 && db'.meta == db.meta
    requires forall id | id in db.apis :: db.apis[id].failureCount >= 0
    requires db'.apis == SettleLease(db, db.apis[r.apiId], r.apiId, failures, e)
    ensures StatusesResolved(db') && forall id | id in db'.apis :: db'.apis[id].failureCount >= 0
  {
  }

  lemma EndedKeepsOthers(db: Db, db': Db, r: Reservation)
    requires Holds(db, r) && AttemptEnded(db, db', r)
    ensures OthersKept(db, db', r.invocationId) && AttemptsOf(db', r.invocationId) == AttemptsOf(db, r.invocationId)
  {
  }

  lemma SettleKeepsCoherent(db: Db, db': Db, r: Reservation, failures: int, e: Option<string>)
    requires Coherent(db) && Holds(db, r) && failures >= 0 && AttemptEnded(db, db', r)
    requires db'.apis == SettleLease(db, db.apis[r.apiId], r.apiId, failures, e)
    ensures Coherent(db') && OthersKept(db, db', r.invocationId) && NothingRunning(db', r.invocationId)
    ensures AttemptsOf(db', r.invocationId) == AttemptsOf(db, r.invocationId)
  {
    SettledCounts(db, db', r, failures, e);
    SettledRuns(db, db', r);
    SettledRows(db, db', r, failures, e);
    EndedKeepsOthers(db, db', r);
  }

  lemma SuccessEndsAttempt(db: Db, r: Reservation, output: Option<string>, now: int)
    requires Holds(db, r) && r.apiId in db.apis && RuntimeRow(db, r) == Ok(db.apis[r.apiId])
    ensures var result := CompleteSuccess(db, r, output, now);
      && result.Ok? && AttemptEnded(db, result.value, r)
      && r.invocationId in result.value.invocations && result.value.invocations[r.invocationId].status == Succeeded
      && result.value.apis == SettleLease(db, db.apis[r.apiId], r.apiId, 0, None)
  {
  }

  lemma SuccessKeepsCoherent(db: Db, r: Reservation, output: Option<string>, now: int)
    requires Coherent(db) && Holds(db, r)
    ensures var result := CompleteSuccess(db, r, output, now);
      && result.Ok?
      && Coherent(result.value)
      && OthersKept(db, result.value, r.invocationId)
      && NothingRunning(result.value, r.invocationId)
      && AttemptsOf(result.value, r.invocationId) == AttemptsOf(db, r.invocationId)
      && r.invocationId in result.value.invocations && result.value.invocations[r.invocationId].status == Succeeded
  {
    HolderFindsItsLease(db, r);
    SuccessEndsAttempt(db, r, output, now);
    SettleKeepsCoherent(db, CompleteSuccess(db, r, output, now).value, r, 0, None);
  }

  lemma FailureEndsAttempt(db: Db, r: Reservation, e: GatewayError, now: int) returns (failures: int)
    requires Holds(db, r) && r.apiId in db.apis && RuntimeRow(db, r) == Ok(db.apis[r.apiId])
    ensures var result := CompleteAttemptFailure(db, r, e, now);
      && result.Ok? && AttemptEnded(db, result.value, r) && result.value.invocations == db.invocations
      && result.value.apis == SettleLease(db, db.apis[r.apiId], r.apiId, failures, Some(e.message))
    ensures failures == db.apis[r.apiId].failureCount + if CountsTowardOffline(e) then 1 else 0
  {
    failures := db.apis[r.apiId].failureCount + if CountsTowardOffline(e) then 1 else 0;
  }

  lemma AttemptFailureKeepsCoherent(db: Db, r: Reservation, e: GatewayError, now: int)
    requires Coherent(db) && Holds(db, r)
    ensures var result := CompleteAttemptFailure(db, r, e, now);
      && result.Ok?
      && Coherent(result.value)
      && OthersKept(db, result.value, r.invocationId)
      && NothingRunning(result.value, r.invocationId)
      && AttemptsOf(result.value, r.invocationId) == AttemptsOf(db, r.invocationId)
      && result.value.invocations == db.invocations
  {
    HolderFindsItsLease(db, r);
    var failures := FailureEndsAttempt(db, r, e, now);
    SettleKeepsCoherent(db, CompleteAttemptFailure(db, r, e, now).value, r, failures, Some(e.message));
  }

  /** Closing an invocation with nothing running leaves all running attempts alone. */
  lemma ClosedInvocationRuns(db: Db, db': Db, invocation: Id)
    requires Coherent(db) && NothingRunning(db, invocation) && db'.attempts == db.attempts && db'.apis == db.apis && db'.meta == db.meta
    requires db'.invocations.Keys == db.invocations.Keys && invocation in db.invocations
    requires db'.invocations[invocation].apiId == db.invocations[invocation].apiId
    requires forall i | i in db.invocations && i != invocation :: db'.invocations[i] == db.invocations[i]
    ensures Coherent(db') && OthersKept(db, db', invocation) && NothingRunning(db', invocation)
    ensures AttemptsOf(db', invocation) == AttemptsOf(db, invocation)
  {
    forall a | IsRunning(db', a) ensures IsRunning(db, a) && db.attempts[a].invocationId != invocation {
    }
    forall id | id in db'.apis ensures RunningOn(db', id) == RunningOn(db, id) {
    }
    assert Referential(db');
  }

  lemma InvocationFailureKeepsCoherent(db: Db, invocation: Id, e: GatewayError, now: int)
    requires Coherent(db) && invocation in db.invocations && NothingRunning(db, invocation)
    ensures var result := CompleteInvocationFailure(db, invocation, e, now);
      && result.Ok?
      && Coherent(result.value)
      && OthersKept(db, result.value, invocation)
      && NothingRunning(result.value, invocation)
      && AttemptsOf(result.value, invocation) == AttemptsOf(db, invocation)
  {
    ClosedInvocationRuns(db, CompleteInvocationFailure(db, invocation, e, now).value, invocation);
  }
}
