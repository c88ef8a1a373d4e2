/**
  What a reservation returns and costs: the least loaded API that may be used, as the
  configuration describes it, or the one reason why there is none; and what the capacity report
  counts.
 */
module PoolReservations {
  import opened Prelude
  import opened PoolModel
  import opened PoolInvariants
  import opened PoolRetry
  import opened PoolSystem
  import opened PoolConfig
  import opened PoolCapacity
  import opened PoolTheorems

  // The outcome of a reserve -----------------------------------------------------------------

  /** The API may take one more attempt of a request. */
  ghost predicate Usable(db: Db, request: Request, id: Id) {
    && id in db.apis && db.apis[id].endpoint.enabled && !db.apis[id].status.Offline?
    && db.apis[id].leaseCount + 1 <= db.apis[id].endpoint.maxConcurrent
    && (request.pinned == None || request.pinned == Some(id))
  }

  /** Fewest leases first; among equals the id that comes first. */
  ghost predicate LeastLoaded(db: Db, request: Request, id: Id) {
    && Usable(db, request, id)
    && (forall other | Usable(db, request, other) ::
          && db.apis[id].leaseCount <= db.apis[other].leaseCount
          && (other != id && db.apis[other].leaseCount == db.apis[id].leaseCount ==> StrLess(id, other)))
  }

  ghost function OtherRunning(db: Db, retryOf: Option<Id>): set<Id> {
    set i | i in db.invocations && db.invocations[i].status.Running? && Some(i) != retryOf
  }

  ghost predicate OverQuota(db: Db, c: ModelConfig, retryOf: Option<Id>) {
    c.globalMaxConcurrent.Some? && |OtherRunning(db, retryOf)| >= c.globalMaxConcurrent.value
  }

  lemma UsableIsEligible(db: Db, request: Request, id: Id)
    ensures Usable(db, request, id) <==> Eligible(db, request.pinned, id)
  {
  }

  lemma PickIsLeastLoaded(db: Db, request: Request)
    requires exists id :: Usable(db, request, id)
    ensures (exists id :: Eligible(db, request.pinned, id)) && LeastLoaded(db, request, PickApi(db, request.pinned))
  {
    var some :| Usable(db, request, some);
    UsableIsEligible(db, request, some);
    var pick := PickApi(db, request.pinned);
    UsableIsEligible(db, request, pick);
    forall other | Usable(db, request, other)
      ensures db.apis[pick].leaseCount <= db.apis[other].leaseCount
      ensures other != pick && db.apis[other].leaseCount == db.apis[pick].leaseCount ==> StrLess(pick, other)
    {
      UsableIsEligible(db, request, other);
    }
  }

  lemma QuotaIsLimit(db: Db, c: ModelConfig, retryOf: Option<Id>)
    requires MatchesConfig(db, c)
    ensures QuotaAllows(db, retryOf) <==> !OverQuota(db, c, retryOf)
  {
    assert OtherRunning(db, retryOf) == ActiveInvocations(db, retryOf);
  }

  /** The entry of the configuration that a reservation stands for. */
  ghost predicate AsConfigured(c: ModelConfig, r: Reservation, k: nat) {
    && k < |c.apis| && c.apis[k].apiId == r.apiId && c.apis[k].enabled && r.apiMode == c.apis[k].apiMode
    && r.endpoint.provider == c.apis[k].provider && r.endpoint.model == c.apis[k].model && r.endpoint.baseUrl == c.apis[k].baseUrl
    && r.endpoint.apiKey == c.apis[k].apiKey && r.endpoint.maxConcurrent == c.apis[k].maxConcurrent
  }

  /** The rows that a reservation writes. */
  ghost predicate ReservedRows(db: Db, db': Db, request: Request, r: Reservation) {
    && r.attemptId in db'.attempts && db'.attempts[r.attemptId] == AttemptRow(r.invocationId, r.apiId, RunStatus.Running, None, None)
    && r.invocationId in db'.invocations
    && (var row := db'.invocations[r.invocationId];
        && row.apiId == r.apiId && row.status.Running? && row.finishedAt == None && row.output == None && row.error == None
        && row.requestId == (if r.invocationId in db.invocations then db.invocations[r.invocationId].requestId else request.requestId)
        && row.nodeId == (if r.invocationId in db.invocations then db.invocations[r.invocationId].nodeId else request.nodeId))
    && r.apiId in db.apis && r.apiId in db'.apis
    && db'.apis[r.apiId].leaseCount == db.apis[r.apiId].leaseCount + 1 && db'.apis[r.apiId].failureCount == db.apis[r.apiId].failureCount
    && (forall id | id in db.apis && id != r.apiId :: id in db'.apis && db'.apis[id] == db.apis[id])
  }

  lemma {:induction false} ModeOfEntry(apis: seq<ApiConfig>, k: nat)
    requires DistinctIds(apis) && k < |apis|
    ensures apis[k].apiId in ConfiguredIds(apis) && ApiModeOf(apis, apis[k].apiId) == apis[k].apiMode
  {
    if k > 0 {
      assert apis[0].apiId != apis[k].apiId;
      assert DistinctIds(apis[1..]);
      ModeOfEntry(apis[1..], k - 1);
      assert apis[1..][k - 1] == apis[k];
    }
  }

  lemma EntryOf(db: Db, c: ModelConfig, id: Id, r: Reservation) returns (k: nat)
    requires MatchesConfig(db, c) && DistinctIds(c.apis) && id in ConfiguredIds(c.apis) && id in db.apis && db.apis[id].endpoint.enabled
    requires r.apiId == id && r.endpoint == db.apis[id].endpoint && r.apiMode == ApiModeOf(c.apis, id)
    ensures AsConfigured(c, r, k)
  {
    k :| 0 <= k < |c.apis| && c.apis[k].apiId == id;
    assert c.apis[k] in c.apis;
    ModeOfEntry(c.apis, k);
  }

  lemma RowsWritten(db: Db, request: Request, r: Reservation)
    requires r.apiId in db.apis
    ensures ReservedRows(db, ReserveOn(db, request, r.apiId, r.invocationId, r.attemptId), request, r)
  {
  }

  ghost predicate Possible(db: Db, c: ModelConfig, request: Request, retryOf: Option<Id>) {
    !OverQuota(db, c, retryOf) && exists id :: Usable(db, request, id)
  }

  lemma ReserveSucceeds(db: Db, c: ModelConfig, request: Request, retryOf: Option<Id>, newId: Id, attempt: Id)
    requires MatchesConfig(db, c) && Possible(db, c, request, retryOf)
    requires retryOf.Some? ==> retryOf.value in db.invocations
    ensures exists id :: Eligible(db, request.pinned, id)
    ensures var r := ReserveAttempt(db, c, request, retryOf, newId, attempt); var pick := PickApi(db, request.pinned);
      && r.Ok? && LeastLoaded(db, request, pick) && pick in ConfiguredIds(c.apis)
      && r.value.1 == Reservation(if retryOf.Some? then retryOf.value else newId, attempt, pick, db.apis[pick].endpoint, ApiModeOf(c.apis, pick))
      && r.value.0 == ReserveOn(db, request, pick, r.value.1.invocationId, attempt)
  {
    QuotaIsLimit(db, c, retryOf);
    PickIsLeastLoaded(db, request);
    PickedApiIsConfigured(db, c, request.pinned, PickApi(db, request.pinned));
  }

  lemma ReserveFails(db: Db, c: ModelConfig, request: Request, retryOf: Option<Id>, newId: Id, attempt: Id)
    requires MatchesConfig(db, c) && !Possible(db, c, request, retryOf)
    ensures ReserveAttempt(db, c, request, retryOf, newId, attempt) == Err(if OverQuota(db, c, retryOf) then GlobalQuota else NoCapacity)
  {
    QuotaIsLimit(db, c, retryOf);
    if !OverQuota(db, c, retryOf) {
      NothingEligible(db, request);
    }
  }

  /** What a successful reserve returns and writes. */
  ghost predicate GoodReservation(db: Db, c: ModelConfig, request: Request, db': Db, r: Reservation) {
    LeastLoaded(db, request, r.apiId) && ReservedRows(db, db', request, r) && exists k :: AsConfigured(c, r, k)
  }

  /** The outcome of a reserve on tables that match its configuration, every case of it. */
  lemma ReserveExactly(db: Db, c: ModelConfig, request: Request, retryOf: Option<Id>, newId: Id, attempt: Id)
    requires MatchesConfig(db, c) && DistinctIds(c.apis) && (retryOf.Some? ==> retryOf.value in db.invocations)
    ensures var r := ReserveAttempt(db, c, request, retryOf, newId, attempt);
      && (r.Ok? <==> Possible(db, c, request, retryOf))
      && (r.Err? ==> r.error == if OverQuota(db, c, retryOf) then GlobalQuota else NoCapacity)
      && (r.Ok? ==>
            && GoodReservation(db, c, request, r.value.0, r.value.1)
            && r.value.1.invocationId == (if retryOf.Some? then retryOf.value else newId) && r.value.1.attemptId == attempt)
  {
    if Possible(db, c, request, retryOf) {
      ReserveSucceeds(db, c, request, retryOf, newId, attempt);
      var r := ReserveAttempt(db, c, request, retryOf, newId, attempt).value.1;
      RowsWritten(db, request, r);
      var k := EntryOf(db, c, r.apiId, r);
    } else {
      ReserveFails(db, c, request, retryOf, newId, attempt);
    }
  }

  lemma NothingEligible(db: Db, request: Request)
    requires !exists id :: Usable(db, request, id)
    ensures !exists id :: Eligible(db, request.pinned, id)
  {
    forall id ensures !Eligible(db, request.pinned, id) { UsableIsEligible(db, request, id); }
  }

  /** In every run over configurations with distinct ids, every reserve has exactly this outcome. */
  lemma ReserveIsExact(states: seq<System>, steps: seq<Step>, i: nat, c: ModelConfig, request: Request, retryOf: Option<Id>, newId: Id, attempt: Id)
    requires IsRunUsing(states, steps, DistinctConfigs()) && i < |states| && DistinctIds(c.apis)
    requires retryOf.Some? ==> retryOf.value in states[i].db.invocations
    ensures var db := SyncConfig(states[i].db, c); var r := ReserveTx(states[i].db, c, request, retryOf, newId, attempt);
      && (r.Ok? <==> Possible(db, c, request, retryOf))
      && (r.Err? ==> r.error == if OverQuota(db, c, retryOf) then GlobalQuota else NoCapacity)
      && (r.Ok? ==>
            && GoodReservation(db, c, request, r.value.0, r.value.1)
            && r.value.1.invocationId == (if retryOf.Some? then retryOf.value else newId) && r.value.1.attemptId == attempt)
  {
    EveryStateOk(states, steps, i);
    EveryStateHashFaithful(states, steps, i);
    SyncKeepsHashFaithful(states[i].db, c);
    SyncKeepsCoherent(states[i].db, c);
    ReserveExactly(SyncConfig(states[i].db, c), c, request, retryOf, newId, attempt);
  }

  // What a completion costs an API -------------------------------------------------------------

  /** Unreachable, timed out, and retryable HTTP errors count towards going offline; others do not. */
  lemma FailureCosts(db: Db, r: Reservation, e: GatewayError, now: int)
    requires Coherent(db) && Holds(db, r)
    ensures var result := CompleteAttemptFailure(db, r, e, now);
      && result.Ok? && result.value.apis.Keys == db.apis.Keys && r.apiId in db.apis
      && result.value.apis[r.apiId].leaseCount == db.apis[r.apiId].leaseCount - 1
      && result.value.apis[r.apiId].lastError == Some(e.message)
      && result.value.apis[r.apiId].failureCount == db.apis[r.apiId].failureCount +
           (match e.code
            case ProviderUnreachable => 1
            case ProviderTimeout => 1
            case ProviderHttpError => if e.retryable then 1 else 0
            case GatewayInternalError => 0
            case OtherCode(_) => 0)
      && (forall id | id in db.apis && id != r.apiId :: result.value.apis[id] == db.apis[id])
  {
    HolderFindsItsLease(db, r);
  }

  /** A success forgives all failures. */
  lemma SuccessForgives(db: Db, r: Reservation, output: Option<string>, now: int)
    requires Coherent(db) && Holds(db, r)
    ensures var result := CompleteSuccess(db, r, output, now);
      && result.Ok? && result.value.apis.Keys == db.apis.Keys && r.apiId in db.apis
      && result.value.apis[r.apiId].leaseCount == db.apis[r.apiId].leaseCount - 1
      && result.value.apis[r.apiId].lastError == None && result.value.apis[r.apiId].failureCount == 0
      && (forall id | id in db.apis && id != r.apiId :: result.value.apis[id] == db.apis[id])
  {
    HolderFindsItsLease(db, r);
  }

  /** The configured retry settings, or three attempts with 200 milliseconds between. */
  lemma PolicyFromConfig(c: ModelConfig)
    requires ValidConfig(c)
    ensures PolicyOf(c).maxAttempts == (if c.retryMaxAttempts.Some? then c.retryMaxAttempts.value else 3)
    ensures PolicyOf(c).baseBackoff == (if c.retryBaseBackoff.Some? then c.retryBaseBackoff.value else 200)
  {
  }

  // What the report counts -----------------------------------------------------------------------

  lemma {:induction false} SumSame(keys: set<Id>, f: Id -> int, g: Id -> int)
    requires forall k | k in keys :: f(k) == g(k)
    ensures SumOver(keys, f) == SumOver(keys, g)
    decreases keys
  {
    if keys != {} {
      var k :| k in keys;
      SumWithout(keys, f, k);
      SumWithout(keys, g, k);
      SumSame(keys - {k}, f, g);
    }
  }

  lemma SumChangesBy(keys: set<Id>, f: Id -> int, g: Id -> int, x: Id)
    requires x in keys && forall k | k in keys && k != x :: f(k) == g(k)
    ensures SumOver(keys, g) - SumOver(keys, f) == g(x) - f(x)
  {
    SumWithout(keys, f, x);
    SumWithout(keys, g, x);
    SumSame(keys - {x}, f, g);
  }

  lemma {:induction false} SumCounts(keys: set<Id>, f: Id -> int, s: set<Id>)
    requires forall k | k in keys :: f(k) == if k in s then 1 else 0
    ensures SumOver(keys, f) == |keys * s|
    decreases keys
  {
    if keys == {} {
      assert keys * s == {};
    } else {
      var k :| k in keys;
      SumWithout(keys, f, k);
      SumCounts(keys - {k}, f, s);
      assert (keys - {k}) * s == keys * s - {k};
    }
  }

  lemma {:induction false} SumAdds(keys: set<Id>, f: Id -> int, g: Id -> int, h: Id -> int)
    requires forall k | k in keys :: h(k) == f(k) + g(k)
    ensures SumOver(keys, h) == SumOver(keys, f) + SumOver(keys, g)
    decreases keys
  {
    if keys != {} {
      var k :| k in keys;
      SumWithout(keys, f, k);
      SumWithout(keys, g, k);
      SumWithout(keys, h, k);
      SumAdds(keys - {k}, f, g, h);
    }
  }

  lemma OfflineIsCounted(db: Db)
    ensures CapacityOf(db).offlineApis == |set id | id in db.apis && db.apis[id].status.Offline?|
    ensures CapacityOf(db).totalApis == |db.apis.Keys|
  {
    var s := set id | id in db.apis && db.apis[id].status.Offline?;
    SumCounts(db.apis.Keys, OfflineOf(db), s);
    assert db.apis.Keys * s == s;
  }

  /** With no API offline and none over its cap, the slots are the free and the leased ones. */
  lemma SlotsAddUp(db: Db)
    requires forall id | id in db.apis :: !db.apis[id].status.Offline? && db.apis[id].leaseCount <= db.apis[id].endpoint.maxConcurrent
    ensures CapacityOf(db).totalSlots == CapacityOf(db).availableSlots + CapacityOf(db).leasedSlots
  {
    SumAdds(db.apis.Keys, FreeOf(db), LeasesOf(db), SlotsOf(db));
  }

  lemma LeasedRow(db: Db, request: Request, id: Id, invocation: Id, attempt: Id)
    requires Coherent(db) && Usable(db, request, id)
    ensures var db' := ReserveOn(db, request, id, invocation, attempt);
      && db'.apis.Keys == db.apis.Keys && FreeSlots(db'.apis[id]) == FreeSlots(db.apis[id]) - 1 && !db'.apis[id].status.Offline?
      && db'.apis[id].leaseCount == db.apis[id].leaseCount + 1 && db'.apis[id].endpoint == db.apis[id].endpoint
      && (forall k | k in db.apis && k != id :: db'.apis[k] == db.apis[k])
  {
  }

  /** Each reservation takes one available slot and adds one leased one, until none is available. */
  lemma ReserveTakesOneSlot(db: Db, request: Request, id: Id, invocation: Id, attempt: Id)
    requires Coherent(db) && Usable(db, request, id)
    ensures var before, after := CapacityOf(db), CapacityOf(ReserveOn(db, request, id, invocation, attempt));
      && after.availableSlots == before.availableSlots - 1 && after.leasedSlots == before.leasedSlots + 1
      && after.totalSlots == before.totalSlots && after.offlineApis == before.offlineApis && after.totalApis == before.totalApis
  {
    LeasedRow(db, request, id, invocation, attempt);
    SlotMoves(db, ReserveOn(db, request, id, invocation, attempt), id);
  }

  lemma SlotMoves(db: Db, db': Db, id: Id)
    requires id in db.apis && db'.apis.Keys == db.apis.Keys && FreeSlots(db'.apis[id]) == FreeSlots(db.apis[id]) - 1
    requires !db.apis[id].status.Offline? && !db'.apis[id].status.Offline?
    requires db'.apis[id].leaseCount == db.apis[id].leaseCount + 1 && db'.apis[id].endpoint == db.apis[id].endpoint
    requires forall k | k in db.apis && k != id :: db'.apis[k] == db.apis[k]
    ensures SumOver(db'.apis.Keys, FreeOf(db')) == SumOver(db.apis.Keys, FreeOf(db)) - 1
    ensures SumOver(db'.apis.Keys, LeasesOf(db')) == SumOver(db.apis.Keys, LeasesOf(db)) + 1
    ensures SumOver(db'.apis.Keys, SlotsOf(db')) == SumOver(db.apis.Keys, SlotsOf(db))
    ensures SumOver(db'.apis.Keys, OfflineOf(db')) == SumOver(db.apis.Keys, OfflineOf(db)) && |db'.apis| == |db.apis|
  {
    SumChangesBy(db.apis.Keys, FreeOf(db), FreeOf(db'), id);
    SumChangesBy(db.apis.Keys, LeasesOf(db), LeasesOf(db'), id);
    SumChangesBy(db.apis.Keys, SlotsOf(db), SlotsOf(db'), id);
    SumChangesBy(db.apis.Keys, OfflineOf(db), OfflineOf(db'), id);
    assert |db'.apis| == |db'.apis.Keys| && |db.apis| == |db.apis.Keys|;
  }
}
