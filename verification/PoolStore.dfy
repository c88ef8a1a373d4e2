/**
  The Store of internal/poolgateway/store.go: four tables that each transaction updates in
  place. Every method is proved to do what its transaction function in PoolModel says, and to
  leave the tables as they were when it reports an error.
 */
module PoolStore {
  import opened Prelude
  import opened PoolModel
  import opened PoolCapacity

  /** ModelConfig.APIByID: the first entry with the id. */
  method ApiById(apis: seq<ApiConfig>, id: Id) returns (r: Option<ApiConfig>)
    ensures r.Some? <==> id in ConfiguredIds(apis)
    ensures r.Some? ==> r.value in apis && r.value.apiId == id && r.value.apiMode == ApiModeOf(apis, id)
  {
    var i := 0;
    while i < |apis|
      invariant 0 <= i <= |apis|
      invariant forall j | 0 <= j < i :: apis[j].apiId != id
      invariant id in ConfiguredIds(apis) <==> id in ConfiguredIds(apis[i..])
      invariant id in ConfiguredIds(apis) ==> ApiModeOf(apis, id) == ApiModeOf(apis[i..], id)
    {
      if apis[i].apiId == id {
        assert apis[i..][0].apiId == id;
        return Some(apis[i]);
      }
      assert apis[i..][1..] == apis[i + 1..];
      assert forall j | i < j < |apis| :: apis[i..][j - i] == apis[j] && apis[i + 1..][j - i - 1] == apis[j];
      i := i + 1;
    }
    return None;
  }

  class Store {
    var apis: map<Id, ApiRow>
    var invocations: map<Id, InvocationRow>
    var attempts: map<Id, AttemptRow>
    var meta: Meta

    function Tables(): Db
      reads this
    {
      Db(apis, invocations, attempts, meta)
    }

    constructor ()
      ensures Tables() == EMPTY_DB
    {
      apis, invocations, attempts, meta := map[], map[], map[], Meta(None, None, None);
    }

    method SyncFromModelConfig(c: ModelConfig)
      modifies this
      ensures Tables() == SyncConfig(old(Tables()), c)
    {
      if meta.configHash == Some(Digest(c)) {
        return;
      }
      ghost var before := apis;
      var i := 0;
      while i < |c.apis|
        invariant 0 <= i <= |c.apis|
        invariant apis == UpsertAll(before, c.apis[..i], c.offlineFailureThreshold)
        invariant invocations == old(invocations) && attempts == old(attempts) && meta == old(meta)
      {
        assert c.apis[..i + 1][..i] == c.apis[..i];
        apis := Upsert(apis, c.apis[i], c.offlineFailureThreshold);
        i := i + 1;
      }
      assert c.apis[..i] == c.apis;
      apis := DisableOthers(apis, ConfiguredIds(c.apis));
      meta := Meta(Some(c.globalMaxConcurrent), Some(c.offlineFailureThreshold), Some(Digest(c)));
    }

    /** SELECT ... ORDER BY lease_count, api_id LIMIT 1 */
    method PickRow(pinned: Option<Id>) returns (best: Option<Id>)
      ensures best.None? <==> !exists id :: Eligible(Tables(), pinned, id)
      ensures best.Some? ==> Picks(Tables(), pinned, best.value)
    {
      var rest := set id | id in apis && Eligible(Tables(), pinned, id);
      ghost var all := rest;
      ghost var seen: set<Id> := {};
      best := None;
      while rest != {}
        invariant rest <= all <= apis.Keys && seen == all - rest
        invariant best.None? ==> seen == {}
        invariant best.Some? ==> best.value in seen
        invariant best.Some? ==> forall id | id in seen && id != best.value :: PreferredTo(Tables(), best.value, id)
        decreases rest
      {
        var id :| id in rest;
        if best.None? {
          best := Some(id);
        } else if PreferredTo(Tables(), id, best.value) {
          forall x | x in seen ensures PreferredTo(Tables(), id, x) {
            if x != best.value && StrLess(id, best.value) && StrLess(best.value, x) {
              StrLessTransitive(id, best.value, x);
            }
          }
          best := Some(id);
        } else {
          StrLessTotal(id, best.value);
        }
        rest := rest - {id};
        seen := seen + {id};
      }
      assert forall id :: Eligible(Tables(), pinned, id) <==> id in all;
    }

    method ReserveAttemptTx(c: ModelConfig, request: Request, retryOf: Option<Id>, newId: Id, attempt: Id)
      returns (r: Result<Reservation, PoolError>)
      requires retryOf.None? ==> newId !in invocations
      modifies this
      ensures match ReserveAttempt(old(Tables()), c, request, retryOf, newId, attempt)
        case Ok((db, reservation)) => r == Ok(reservation) && Tables() == db
        case Err(e) => r == Err(e) && Tables() == old(Tables())
    {
      var limit := GlobalLimit(Tables());
      if limit.Some? && |ActiveInvocations(Tables(), retryOf)| >= limit.value {
        return Err(GlobalQuota);
      }
      ghost var before := Tables();
      var best := PickRow(request.pinned);
      assert Tables() == before;
      assert best.None? <==> !exists id :: Eligible(before, request.pinned, id);
      if best.None? {
        return Err(NoCapacity);
      }
      var api := best.value;
      PickUnique(Tables(), request.pinned, api, PickApi(Tables(), request.pinned));
      var entry := ApiById(c.apis, api);
      if entry.None? {
        return Err(ConfigNotFound(api));
      }
      if retryOf.Some? && retryOf.value !in invocations {
        return Err(InvocationNotFound(retryOf.value));
      }
      var endpoint := apis[api].endpoint;
      var invocation := newId;
      if retryOf.None? {
        invocations := invocations[newId := InvocationRow(request.requestId, request.nodeId, api, Running, None, None, None)];
      } else {
        invocation := retryOf.value;
        invocations := invocations[invocation :=
          invocations[invocation].(apiId := api, status := Running, finishedAt := None, output := None, error := None)];
      }
      apis := apis[api := TakeLease(apis[api])];
      attempts := attempts[attempt := AttemptRow(invocation, api, Running, None, None)];
      return Ok(Reservation(invocation, attempt, api, endpoint, entry.value.apiMode));
    }

    /** ReserveInvocation (retryOf absent) and ReserveRetryAttempt: one transaction with the sync. */
    method Reserve(c: ModelConfig, request: Request, retryOf: Option<Id>, newId: Id, attempt: Id)
      returns (r: Result<Reservation, PoolError>)
      requires retryOf.None? ==> newId !in invocations
      modifies this
      ensures match ReserveTx(old(Tables()), c, request, retryOf, newId, attempt)
        case Ok((db, reservation)) => r == Ok(reservation) && Tables() == db
        case Err(e) => r == Err(e) && Tables() == old(Tables())
    {
      var apis0, meta0 := apis, meta;
      SyncFromModelConfig(c);
      assert invocations == old(invocations) && attempts == old(attempts) by {
        assert Tables().invocations == old(Tables()).invocations && Tables().attempts == old(Tables()).attempts;
      }
      r := ReserveAttemptTx(c, request, retryOf, newId, attempt);
      if r.Err? {
        apis, meta := apis0, meta0;
      }
    }

    method CompleteInvocationSuccess(reservation: Reservation, output: Option<string>, now: int)
      returns (r: Result<InvocationRow, PoolError>)
      modifies this
      ensures match CompleteSuccess(old(Tables()), reservation, output, now)
        case Ok(db) => r == Ok(db.invocations[reservation.invocationId]) && Tables() == db
        case Err(e) => r == Err(e) && Tables() == old(Tables())
    {
      var row := RuntimeRow(Tables(), reservation);
      if row.Err? {
        return Err(row.error);
      }
      apis := SettleLease(Tables(), row.value, reservation.apiId, 0, None);
      attempts := FinishAttempt(Tables(), reservation.attemptId, Succeeded, now, None);
      invocations := invocations[reservation.invocationId := invocations[reservation.invocationId].(
        status := Succeeded, finishedAt := Some(now), output := output, error := None)];
      return Ok(invocations[reservation.invocationId]);
    }

    method RecordAttemptFailure(reservation: Reservation, e: GatewayError, now: int) returns (r: Result<(), PoolError>)
      modifies this
      ensures match CompleteAttemptFailure(old(Tables()), reservation, e, now)
        case Ok(db) => r == Ok(()) && Tables() == db
        case Err(error) => r == Err(error) && Tables() == old(Tables())
    {
      var row := RuntimeRow(Tables(), reservation);
      if row.Err? {
        return Err(row.error);
      }
      var failures := row.value.failureCount;
      if CountsTowardOffline(e) {
        failures := failures + 1;
      }
      apis := SettleLease(Tables(), row.value, reservation.apiId, failures, Some(e.message));
      attempts := FinishAttempt(Tables(), reservation.attemptId, Failed, now, Some(e));
      return Ok(());
    }

    method RecordInvocationFailure(invocation: Id, e: GatewayError, now: int) returns (r: Result<InvocationRow, PoolError>)
      modifies this
      ensures match CompleteInvocationFailure(old(Tables()), invocation, e, now)
        case Ok(db) => r == Ok(db.invocations[invocation]) && Tables() == db
        case Err(error) => r == Err(error) && Tables() == old(Tables())
    {
      if invocation !in invocations {
        return Err(InvocationNotFound(invocation));
      }
      invocations := invocations[invocation := invocations[invocation].(
        status := Failed, finishedAt := Some(now), output := None, error := Some(e))];
      return Ok(invocations[invocation]);
    }

    /** The aggregate query of capacityTx, visiting the rows in any order. */
    method Report() returns (report: Capacity)
      ensures report == CapacityOf(Tables())
    {
      var slots, free, leased, offline := 0, 0, 0, 0;
      var rest := apis.Keys;
      ghost var db := Tables();
      while rest != {}
        invariant rest <= apis.Keys
        invariant slots + SumOver(rest, SlotsOf(db)) == SumOver(apis.Keys, SlotsOf(db))
        invariant free + SumOver(rest, FreeOf(db)) == SumOver(apis.Keys, FreeOf(db))
        invariant leased + SumOver(rest, LeasesOf(db)) == SumOver(apis.Keys, LeasesOf(db))
        invariant offline + SumOver(rest, OfflineOf(db)) == SumOver(apis.Keys, OfflineOf(db))
        decreases rest
      {
        var id :| id in rest;
        SumWithout(rest, SlotsOf(db), id);
        SumWithout(rest, FreeOf(db), id);
        SumWithout(rest, LeasesOf(db), id);
        SumWithout(rest, OfflineOf(db), id);
        slots := slots + apis[id].endpoint.maxConcurrent;
        free := free + FreeSlots(apis[id]);
        leased := leased + apis[id].leaseCount;
        offline := offline + if apis[id].status == Offline then 1 else 0;
        rest := rest - {id};
      }
      var limit := GlobalLimit(Tables());
      report := Capacity(|apis|, slots, free, leased, offline,
                         limit.Some? && |ActiveInvocations(Tables(), None)| >= limit.value);
    }
  }
}
