/** capacityTx: what the capacity report says about leases and about the next reservation. */
module PoolCapacity {
  import opened Prelude
  import opened PoolModel
  import opened PoolInvariants
  import opened PoolConfig

  // SUM over the rows of a table ---------------------------------------------------------

  ghost function SumOver(keys: set<Id>, f: Id -> int): int
    decreases keys
  {
    if keys == {} then 0
    else
      var k :| k in keys;
      f(k) + SumOver(keys - {k}, f)
  }

  /** The sum does not depend on the order in which rows are visited. */
  lemma {:induction false} SumWithout(keys: set<Id>, f: Id -> int, k: Id)
    requires k in keys
    ensures SumOver(keys, f) == f(k) + SumOver(keys - {k}, f)
    decreases keys
  {
    var first :| first in keys && SumOver(keys, f) == f(first) + SumOver(keys - {first}, f);
    if first != k {
      SumWithout(keys - {first}, f, k);
      SumWithout(keys - {k}, f, first);
      assert keys - {first} - {k} == keys - {k} - {first};
    }
  }

  lemma {:induction false} SumPositiveIff(keys: set<Id>, f: Id -> int)
    requires forall k :: f(k) >= 0
    ensures SumOver(keys, f) >= 0
    ensures SumOver(keys, f) > 0 <==> exists k :: k in keys && f(k) > 0
    decreases keys
  {
    if keys != {} {
      var k :| k in keys;
      SumWithout(keys, f, k);
      SumPositiveIff(keys - {k}, f);
    }
  }

  /** Counting a set api by api. */
  lemma {:induction false} CountByApi(db: Db, keys: set<Id>, f: Id -> int)
    requires forall k | k in keys :: f(k) == |RunningOn(db, k)|
    ensures SumOver(keys, f) == |set a | a in db.attempts && IsRunning(db, a) && db.attempts[a].apiId in keys|
    decreases keys
  {
    var all := set a | a in db.attempts && IsRunning(db, a) && db.attempts[a].apiId in keys;
    if keys == {} {
      assert all == {};
    } else {
      var k :| k in keys;
      SumWithout(keys, f, k);
      CountByApi(db, keys - {k}, f);
      var rest := set a | a in db.attempts && IsRunning(db, a) && db.attempts[a].apiId in keys - {k};
      assert all == RunningOn(db, k) + rest;
      assert RunningOn(db, k) !! rest;
    }
  }

  // The report ---------------------------------------------------------------------------

  datatype Capacity = Capacity(
    totalApis: int, totalSlots: int, availableSlots: int, leasedSlots: int, offlineApis: int, throttled: bool)

  function FreeSlots(row: ApiRow): int {
    if row.status != Offline && row.endpoint.maxConcurrent - row.leaseCount > 0
    then row.endpoint.maxConcurrent - row.leaseCount else 0
  }

  ghost function SlotsOf(db: Db): Id -> int { id => if id in db.apis then db.apis[id].endpoint.maxConcurrent else 0 }
  ghost function LeasesOf(db: Db): Id -> int { id => if id in db.apis then db.apis[id].leaseCount else 0 }
  ghost function FreeOf(db: Db): Id -> int { id => if id in db.apis then FreeSlots(db.apis[id]) else 0 }
  ghost function OfflineOf(db: Db): Id -> int { id => if id in db.apis && db.apis[id].status == Offline then 1 else 0 }

  ghost function CapacityOf(db: Db): Capacity {
    Capacity(
      |db.apis|,
      SumOver(db.apis.Keys, SlotsOf(db)),
      SumOver(db.apis.Keys, FreeOf(db)),
      SumOver(db.apis.Keys, LeasesOf(db)),
      SumOver(db.apis.Keys, OfflineOf(db)),
      GlobalLimit(db).Some? && |ActiveInvocations(db, None)| >= GlobalLimit(db).value)
  }

  /** leased_slots is the number of attempts still running. */
  lemma LeasedSlotsAreRunningAttempts(db: Db)
    requires Coherent(db)
    ensures CapacityOf(db).leasedSlots == |RunningAttempts(db)|
  {
    CountByApi(db, db.apis.Keys, LeasesOf(db));
    assert RunningAttempts(db) == set a | a in db.attempts && IsRunning(db, a) && db.attempts[a].apiId in db.apis.Keys;
  }

  lemma FreeMeansEligible(db: Db)
    requires Coherent(db)
    ensures CapacityOf(db).availableSlots > 0 <==> exists id :: Eligible(db, None, id)
  {
    SumPositiveIff(db.apis.Keys, FreeOf(db));
    if id :| id in db.apis && FreeOf(db)(id) > 0 {
      assert db.apis[id].status == RowStatus(db.apis[id], Threshold(db));
      assert Eligible(db, None, id);
    }
    if id :| Eligible(db, None, id) {
      assert FreeOf(db)(id) > 0;
    }
  }

  /** An API that can be picked is listed in the configuration that was just synced. */
  lemma PickedApiIsConfigured(db: Db, c: ModelConfig, pinned: Option<Id>, id: Id)
    requires MatchesConfig(db, c) && Eligible(db, pinned, id)
    ensures id in ConfiguredIds(c.apis)
  {
  }

  /** The report promises a slot exactly when an unpinned reservation would get one. */
  lemma ReportMatchesReserve(db: Db, c: ModelConfig, request: Request, newId: Id, attempt: Id)
    requires Coherent(db) && MatchesConfig(db, c) && request.pinned.None?
    ensures var report := CapacityOf(db); var r := ReserveAttempt(db, c, request, None, newId, attempt);
      && (report.availableSlots > 0 && !report.throttled <==> r.Ok?)
      && (r.Err? ==> r.error == if report.throttled then GlobalQuota else NoCapacity)
  {
    FreeMeansEligible(db);
    assert CapacityOf(db).throttled <==> !QuotaAllows(db, None);
    if exists id :: Eligible(db, None, id) {
      PickedApiIsConfigured(db, c, None, PickApi(db, None));
    }
  }
}
