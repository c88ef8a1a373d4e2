/**
  Runs from an empty database under one fixed configuration: the global quota, the per-API cap,
  the bound on failures beyond the offline threshold, and offline APIs staying offline.
 */
module PoolLimits {
  import opened Prelude
  import opened PoolModel
  import opened PoolInvariants
  import opened PoolSystem
  import opened PoolConfig
  import opened PoolTheorems
  import opened PoolCapacity

  /** Either nothing has been synced yet, or the stored settings are those of c. */
  ghost predicate SettingsOf(db: Db, c: ModelConfig) {
    if db.meta.configHash.None? then db.apis == map[] && db.invocations == map[]
    else db.meta == Meta(Some(c.globalMaxConcurrent), Some(c.offlineFailureThreshold), Some(Digest(c)))
  }

  ghost predicate RowWithin(row: ApiRow, threshold: int) {
    && 1 <= row.endpoint.maxConcurrent
    && row.leaseCount <= row.endpoint.maxConcurrent
    && row.failureCount + row.leaseCount <= threshold - 1 + row.endpoint.maxConcurrent
  }

  ghost predicate QuotaKept(db: Db, c: ModelConfig) {
    c.globalMaxConcurrent.Some? ==> |ActiveInvocations(db, None)| <= c.globalMaxConcurrent.value
  }

  ghost predicate WithinLimits(db: Db, c: ModelConfig) {
    && SettingsOf(db, c)
    && (forall id | id in db.apis :: RowWithin(db.apis[id], c.offlineFailureThreshold))
    && QuotaKept(db, c)
  }

  ghost predicate FixedConfig(c: ModelConfig) {
    ValidConfig(c) && (c.globalMaxConcurrent.Some? ==> c.globalMaxConcurrent.value >= 0)
  }

  lemma FirstSyncWithin(db: Db, c: ModelConfig)
    requires FixedConfig(c) && db.apis == map[] && db.invocations == map[]
    ensures WithinLimits(FullSync(db, c), c)
  {
    var db' := FullSync(db, c);
    FullSyncRows(db, c);
    UpsertAllRows(db.apis, c.apis, c.offlineFailureThreshold);
    UpsertAllEndpoints(db.apis, c.apis, c.offlineFailureThreshold);
    forall id | id in db'.apis ensures RowWithin(db'.apis[id], c.offlineFailureThreshold) {
      assert CarriedOver(db.apis, db'.apis[id], id);
    }
    assert ActiveInvocations(db', None) == {};
  }

  lemma SyncKeepsLimits(db: Db, c: ModelConfig)
    requires FixedConfig(c) && WithinLimits(db, c)
    ensures WithinLimits(SyncConfig(db, c), c)
    ensures SyncConfig(db, c).meta.configHash.Some?
  {
    if db.meta.configHash.None? {
      FirstSyncWithin(db, c);
    }
  }

  /** A retry leaves its own invocation out of the count, yet the total never passes the limit. */
  lemma ReserveKeepsQuota(db: Db, c: ModelConfig, request: Request, api: Id, retryOf: Option<Id>, invocation: Id, attempt: Id)
    requires WithinLimits(db, c) && db.meta.configHash.Some? && api in db.apis
    requires QuotaAllows(db, retryOf)
    requires if retryOf.Some? then invocation == retryOf.value else invocation !in db.invocations
    ensures QuotaKept(ReserveOn(db, request, api, invocation, attempt), c)
  {
    var db' := ReserveOn(db, request, api, invocation, attempt);
    assert ActiveInvocations(db', None) == ActiveInvocations(db, retryOf) + {invocation};
    assert invocation !in ActiveInvocations(db, retryOf);
  }

  lemma ReserveRowWithin(db: Db, c: ModelConfig, request: Request, api: Id, invocation: Id, attempt: Id)
    requires FixedConfig(c) && WithinLimits(db, c) && db.meta.configHash.Some? && Eligible(db, request.pinned, api)
    requires db.apis[api].status == RowStatus(db.apis[api], Threshold(db))
    ensures var db' := ReserveOn(db, request, api, invocation, attempt);
      SettingsOf(db', c) && forall id | id in db'.apis :: RowWithin(db'.apis[id], c.offlineFailureThreshold)
  {
  }

  lemma ReserveKeepsLimits(db: Db, c: ModelConfig, request: Request, retryOf: Option<Id>, newId: Id, attempt: Id)
    requires FixedConfig(c) && Coherent(db) && WithinLimits(db, c)
    requires FreshFor(db, retryOf, newId, attempt)
    ensures var r := ReserveTx(db, c, request, retryOf, newId, attempt); r.Ok? ==> WithinLimits(r.value.0, c)
  {
    var r := ReserveTx(db, c, request, retryOf, newId, attempt);
    if r.Ok? {
      SyncKeepsLimits(db, c);
      SyncKeepsCoherent(db, c);
      var synced := SyncConfig(db, c);
      ReserveRowWithin(synced, c, request, r.value.1.apiId, r.value.1.invocationId, attempt);
      ReserveKeepsQuota(synced, c, request, r.value.1.apiId, retryOf, r.value.1.invocationId, attempt);
    }
  }

  lemma SettledRowWithin(db: Db, c: ModelConfig, r: Reservation, failures: int, e: Option<string>)
    requires Coherent(db) && WithinLimits(db, c) && FixedConfig(c) && Holds(db, r)
    requires failures <= db.apis[r.apiId].failureCount + 1
    ensures forall id | id in SettleLease(db, db.apis[r.apiId], r.apiId, failures, e) ::
      RowWithin(SettleLease(db, db.apis[r.apiId], r.apiId, failures, e)[id], c.offlineFailureThreshold)
  {
  }

  lemma FewerActive(db: Db, db': Db, c: ModelConfig)
    requires QuotaKept(db, c) && ActiveInvocations(db', None) <= ActiveInvocations(db, None)
    ensures QuotaKept(db', c)
  {
    SubsetCardinality(ActiveInvocations(db', None), ActiveInvocations(db, None));
  }

  lemma CompletionKeepsLimits(db: Db, c: ModelConfig, tx: Tx, db': Db)
    requires FixedConfig(c) && Coherent(db) && WithinLimits(db, c)
    requires tx.SuccessTx? || tx.FailureTx?
    requires Legal(db, tx) && Commits(db, tx, db')
    ensures WithinLimits(db', c)
  {
    var r := tx.reservation;
    HolderFindsItsLease(db, r);
    assert db.meta.configHash.Some?;
    var row := db.apis[r.apiId];
    if tx.SuccessTx? {
      SettledRowWithin(db, c, r, 0, None);
    } else {
      SettledRowWithin(db, c, r, row.failureCount + if CountsTowardOffline(tx.error) then 1 else 0, Some(tx.error.message));
    }
    FewerActive(db, db', c);
  }

  lemma TxKeepsLimits(db: Db, c: ModelConfig, tx: Tx, db': Db)
    requires FixedConfig(c) && Coherent(db) && WithinLimits(db, c)
    requires Legal(db, tx) && Commits(db, tx, db') && TxUses(tx, iset{c})
    ensures WithinLimits(db', c)
  {
    match tx
    case NoTx =>
    case SyncTx(_) => SyncKeepsLimits(db, c);
    case LeaseTx(_, request, retryOf, newId, attempt) => ReserveKeepsLimits(db, c, request, retryOf, newId, attempt);
    case SuccessTx(_, _, _) => CompletionKeepsLimits(db, c, tx, db');
    case FailureTx(_, _, _) => CompletionKeepsLimits(db, c, tx, db');
    case CloseTx(_, _, _) => FewerActive(db, db', c);
  }

  lemma EmptyWithinLimits(c: ModelConfig)
    requires FixedConfig(c)
    ensures WithinLimits(EMPTY_DB, c)
  {
    assert ActiveInvocations(EMPTY_DB, None) == {};
  }

  lemma {:induction false} EveryStateWithinLimits(states: seq<System>, steps: seq<Step>, c: ModelConfig, i: nat)
    requires FixedConfig(c) && IsRunUsing(states, steps, iset{c}) && i < |states|
    ensures WithinLimits(states[i].db, c)
  {
    if i == 0 {
      EmptyWithinLimits(c);
    } else {
      EveryStateWithinLimits(states, steps, c, i - 1);
      var tx := RunTx(states, steps, iset{c}, i - 1);
      TxKeepsLimits(states[i - 1].db, c, tx, states[i].db);
    }
  }

  // The theorems -------------------------------------------------------------------------

  /** Every running attempt stands for a running invocation of its own. */
  lemma RunningAttemptsBounded(db: Db)
    requires Coherent(db)
    ensures |RunningAttempts(db)| <= |ActiveInvocations(db, None)|
  {
    var owner := map a | a in RunningAttempts(db) :: db.attempts[a].invocationId;
    InjectionBoundsCardinality(RunningAttempts(db), ActiveInvocations(db, None), owner);
  }

  /** Leased slots <= running invocations <= the global limit, and every lease is within its cap. */
  lemma QuotaSafety(states: seq<System>, steps: seq<Step>, c: ModelConfig, i: nat)
    requires FixedConfig(c) && IsRunUsing(states, steps, iset{c}) && i < |states|
    ensures SumOver(states[i].db.apis.Keys, LeasesOf(states[i].db)) <= |ActiveInvocations(states[i].db, None)|
    ensures c.globalMaxConcurrent.Some? ==> |ActiveInvocations(states[i].db, None)| <= c.globalMaxConcurrent.value
    ensures forall id | id in states[i].db.apis :: states[i].db.apis[id].leaseCount <= states[i].db.apis[id].endpoint.maxConcurrent
  {
    EveryStateOk(states, steps, i);
    EveryStateWithinLimits(states, steps, c, i);
    RunningAttemptsBounded(states[i].db);
    LeasedSlotsAreRunningAttempts(states[i].db);
  }

  /** Failures overshoot the threshold by at most the attempts that were already under way. */
  lemma FailureOvershootBound(states: seq<System>, steps: seq<Step>, c: ModelConfig, i: nat, id: Id)
    requires FixedConfig(c) && IsRunUsing(states, steps, iset{c}) && i < |states| && id in states[i].db.apis
    ensures var row := states[i].db.apis[id];
      row.failureCount + row.leaseCount <= c.offlineFailureThreshold - 1 + row.endpoint.maxConcurrent
  {
    EveryStateWithinLimits(states, steps, c, i);
  }

  // Offline for good ---------------------------------------------------------------------

  ghost predicate Retired(db: Db, api: Id) {
    api in db.apis && db.apis[api].status == Offline && RunningOn(db, api) == {}
  }

  ghost function AttemptsOn(db: Db, api: Id): set<Id> {
    set a | a in db.attempts && db.attempts[a].apiId == api
  }

  /** Writes that leave an API's row and all attempts on it alone keep it retired. */
  lemma RetiredFrame(db: Db, db': Db, api: Id)
    requires Retired(db, api)
    requires api in db'.apis && db'.apis[api].status == Offline
    requires forall a :: (a in db.attempts && db.attempts[a].apiId == api) <==> (a in db'.attempts && db'.attempts[a].apiId == api)
    requires forall a | a in db.attempts && db.attempts[a].apiId == api :: db'.attempts[a] == db.attempts[a]
    ensures Retired(db', api) && AttemptsOn(db', api) == AttemptsOn(db, api)
  {
    assert forall a | a in RunningOn(db', api) :: a in RunningOn(db, api);
  }

  lemma LeaseKeepsRetired(db: Db, c: ModelConfig, tx: Tx, db': Db, api: Id)
    requires SyncConfig(db, c) == db && Retired(db, api)
    requires tx.LeaseTx? && tx.config == c && Legal(db, tx) && Commits(db, tx, db')
    ensures Retired(db', api) && AttemptsOn(db', api) == AttemptsOn(db, api)
  {
    var r := ReserveTx(db, c, tx.request, tx.retryOf, tx.newId, tx.attempt);
    assert r.value.1.apiId != api;
    RetiredFrame(db, db', api);
  }

  lemma CompletionKeepsRetired(db: Db, tx: Tx, db': Db, api: Id)
    requires Retired(db, api)
    requires (tx.SuccessTx? || tx.FailureTx?) && Legal(db, tx) && Commits(db, tx, db')
    ensures Retired(db', api) && AttemptsOn(db', api) == AttemptsOn(db, api)
  {
    assert IsRunning(db, tx.reservation.attemptId);
    assert tx.reservation.attemptId in RunningOn(db, tx.reservation.apiId);
    RetiredFrame(db, db', api);
  }

  lemma TxKeepsRetired(db: Db, c: ModelConfig, tx: Tx, db': Db, api: Id)
    requires WithinLimits(db, c) && Retired(db, api)
    requires Legal(db, tx) && Commits(db, tx, db') && TxUses(tx, iset{c})
    ensures Retired(db', api) && AttemptsOn(db', api) == AttemptsOn(db, api)
  {
    assert SyncConfig(db, c) == db;
    if tx.LeaseTx? {
      LeaseKeepsRetired(db, c, tx, db', api);
    } else if tx.SuccessTx? || tx.FailureTx? {
      CompletionKeepsRetired(db, tx, db', api);
    } else {
      RetiredFrame(db, db', api);
    }
  }

  lemma StepKeepsRetired(states: seq<System>, steps: seq<Step>, c: ModelConfig, api: Id, i: nat)
    requires FixedConfig(c) && IsRunUsing(states, steps, iset{c}) && i < |steps|
    requires Retired(states[i].db, api)
    ensures Retired(states[i + 1].db, api) && AttemptsOn(states[i + 1].db, api) == AttemptsOn(states[i].db, api)
  {
    EveryStateWithinLimits(states, steps, c, i);
    var tx := RunTx(states, steps, iset{c}, i);
    TxKeepsRetired(states[i].db, c, tx, states[i + 1].db, api);
  }

  /** An API that is offline with nothing running stays so, and no attempt on it is ever added. */
  lemma {:induction false} OfflineForGood(states: seq<System>, steps: seq<Step>, c: ModelConfig, api: Id, i: nat, j: nat)
    requires FixedConfig(c) && IsRunUsing(states, steps, iset{c}) && i <= j < |states|
    requires Retired(states[i].db, api)
    ensures Retired(states[j].db, api) && AttemptsOn(states[j].db, api) == AttemptsOn(states[i].db, api)
    decreases j
  {
    if i < j {
      OfflineForGood(states, steps, c, api, i, j - 1);
      StepKeepsRetired(states, steps, c, api, j - 1);
    }
  }
}
