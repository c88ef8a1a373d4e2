/**
  A run in which the failure count of an API passes its offline threshold, as far as the bound of
  PoolLimits allows: threshold 1, two slots, and two attempts under way that both time out.
 */
module PoolExamples {
  import opened Prelude
  import opened PoolModel
  import opened PoolInvariants
  import opened PoolRetry
  import opened PoolSystem
  import opened PoolConfig
  import opened PoolLimits

  const X: Id := "x"
  const API := ApiConfig(X, "", "", "", "", "", 2, true, map[], "", None)
  const CONFIG := ModelConfig(None, 1, None, None, [API])
  const REQUEST := Request("", "", None, false)
  const POLICY := RetryPolicy(1, 0)
  const TIMEOUT := GatewayError(ProviderTimeout, "", true)

  /** The only API, with so many leases and failures, after a sync with CONFIG. */
  ghost predicate OneApi(db: Db, leases: int, failures: int) {
    && Coherent(db) && db.apis.Keys == {X} && db.apis[X].endpoint == EndpointOf(API)
    && db.apis[X].leaseCount == leases && db.apis[X].failureCount == failures
    && db.meta == Meta(Some(None), Some(1), Some(Digest(CONFIG)))
  }

  lemma FirstSync()
    ensures SyncConfig(EMPTY_DB, CONFIG) == FullSync(EMPTY_DB, CONFIG) && OneApi(FullSync(EMPTY_DB, CONFIG), 0, 0)
  {
    assert Coherent(EMPTY_DB);
    SyncKeepsCoherent(EMPTY_DB, CONFIG);
    assert ConfiguredIds(CONFIG.apis) == {X} by { assert CONFIG.apis[0].apiId == X; }
    UpsertAllRows(map[], CONFIG.apis, 1);
    assert CONFIG.apis[..0] == [];
    assert UpsertAll(map[], CONFIG.apis, 1) == Upsert(map[], API, 1);
  }

  lemma OnlyXEligible(db: Db, leases: int, failures: int)
    requires OneApi(db, leases, failures) && leases < 2 && failures < 1
    ensures Eligible(db, None, X) && PickApi(db, None) == X
  {
    assert db.apis[X].status == RowStatus(db.apis[X], Threshold(db));
    assert Eligible(db, None, X);
  }

  lemma ReserveIs(db: Db, leases: int, failures: int, newId: Id, attempt: Id)
    requires OneApi(db, leases, failures) && leases < 2 && failures < 1
    ensures ReserveAttempt(db, CONFIG, REQUEST, None, newId, attempt) ==
      Ok((ReserveOn(db, REQUEST, X, newId, attempt), Reservation(newId, attempt, X, EndpointOf(API), "")))
  {
    OnlyXEligible(db, leases, failures);
    assert X in ConfiguredIds(CONFIG.apis) by { assert CONFIG.apis[0].apiId == X; }
  }

  lemma ReserveOnX(db: Db, leases: int, failures: int, newId: Id, attempt: Id)
    requires OneApi(db, leases, failures) && leases < 2 && failures < 1 && newId !in db.invocations && attempt !in db.attempts
    ensures OneApi(ReserveOn(db, REQUEST, X, newId, attempt), leases + 1, failures)
  {
    OnlyXEligible(db, leases, failures);
    assert NothingRunning(db, newId);
    ReserveOnKeepsCoherent(db, REQUEST, X, newId, attempt);
  }

  lemma FailOnX(db: Db, leases: int, failures: int, r: Reservation)
    requires OneApi(db, leases, failures) && failures >= 0 && Holds(db, r) && r.apiId == X
    ensures var result := CompleteAttemptFailure(db, r, TIMEOUT, 0);
      result.Ok? && OneApi(result.value, leases - 1, failures + 1) && Coherent(result.value)
  {
    HolderFindsItsLease(db, r);
    AttemptFailureKeepsCoherent(db, r, TIMEOUT, 0);
  }

  // The run ----------------------------------------------------------------------------------

  function BeginStep(p: nat, newId: Id, attempt: Id): Step {
    Begin(p, CONFIG, REQUEST, POLICY, newId, attempt)
  }

  function FailStep(p: nat): Step {
    ProviderFails(p, TIMEOUT, 0, true)
  }

  ghost predicate HoldsX(s: System, p: nat) {
    p in s.procs && s.procs[p].phase.Holding? && s.procs[p].phase.reservation.apiId == X
  }

  lemma BeginApplies(s: System, synced: Db, leases: int, p: nat, newId: Id, attempt: Id)
    requires SyncConfig(s.db, CONFIG) == synced && OneApi(synced, leases, 0) && leases < 2 && p !in s.procs
    requires newId !in s.db.invocations && attempt !in s.db.attempts
    ensures Enabled(s, BeginStep(p, newId, attempt))
    ensures Apply(s, BeginStep(p, newId, attempt)) ==
      System(ReserveOn(synced, REQUEST, X, newId, attempt),
             s.procs[p := Process(CONFIG, REQUEST, POLICY, Holding(Reservation(newId, attempt, X, EndpointOf(API), ""), 1, 0))])
  {
    ReserveIs(synced, leases, 0, newId, attempt);
  }

  /** What a first reservation on X changes. */
  ghost predicate Began(s: System, s': System, leases: int, p: nat, newId: Id, attempt: Id) {
    && OneApi(s'.db, leases, 0) && HoldsX(s', p) && s'.procs == s.procs[p := s'.procs[p]]
    && s'.db.invocations.Keys == s.db.invocations.Keys + {newId} && s'.db.attempts.Keys == s.db.attempts.Keys + {attempt}
  }

  lemma BeganBy(s: System, synced: Db, s': System, leases: int, p: nat, newId: Id, attempt: Id)
    requires OneApi(s'.db, leases, 0) && X in synced.apis && s'.db == ReserveOn(synced, REQUEST, X, newId, attempt)
    requires synced.invocations == s.db.invocations && synced.attempts == s.db.attempts
    requires s'.procs == s.procs[p := Process(CONFIG, REQUEST, POLICY, Holding(Reservation(newId, attempt, X, EndpointOf(API), ""), 1, 0))]
    ensures Began(s, s', leases, p, newId, attempt)
  {
  }

  lemma BeginOnX(s: System, synced: Db, leases: int, p: nat, newId: Id, attempt: Id)
    requires SyncConfig(s.db, CONFIG) == synced && OneApi(synced, leases, 0) && leases < 2
    requires synced.invocations == s.db.invocations && synced.attempts == s.db.attempts && p !in s.procs
    requires newId !in s.db.invocations && attempt !in s.db.attempts
    ensures Enabled(s, BeginStep(p, newId, attempt)) && Began(s, Apply(s, BeginStep(p, newId, attempt)), leases + 1, p, newId, attempt)
  {
    BeginApplies(s, synced, leases, p, newId, attempt);
    ReserveOnX(synced, leases, 0, newId, attempt);
    BeganBy(s, synced, Apply(s, BeginStep(p, newId, attempt)), leases + 1, p, newId, attempt);
  }

  lemma FailApplies(s: System, p: nat)
    requires HoldsX(s, p) && CompleteAttemptFailure(s.db, s.procs[p].phase.reservation, TIMEOUT, 0).Ok?
    ensures Enabled(s, FailStep(p))
    ensures Apply(s, FailStep(p)).db == CompleteAttemptFailure(s.db, s.procs[p].phase.reservation, TIMEOUT, 0).value
    ensures forall q | q in s.procs && q != p :: q in Apply(s, FailStep(p)).procs && Apply(s, FailStep(p)).procs[q] == s.procs[q]
  {
  }

  lemma FailsOnX(s: System, leases: int, failures: int, p: nat)
    requires SystemOk(s) && OneApi(s.db, leases, failures) && failures >= 0 && HoldsX(s, p)
    ensures Enabled(s, FailStep(p))
    ensures OneApi(Apply(s, FailStep(p)).db, leases - 1, failures + 1)
    ensures forall q | q != p && HoldsX(s, q) :: HoldsX(Apply(s, FailStep(p)), q)
  {
    assert ProcessOk(s.db, s.procs[p]);
    FailOnX(s.db, leases, failures, s.procs[p].phase.reservation);
    FailApplies(s, p);
  }

  /** Some run ends in s. */
  ghost predicate Reached(states: seq<System>, steps: seq<Step>, s: System) {
    IsRun(states, steps) && states[|steps|] == s
  }

  lemma OneMore(states: seq<System>, steps: seq<Step>, s: System, step: Step)
    requires Reached(states, steps, s) && Enabled(s, step)
    ensures Reached(states + [Apply(s, step)], steps + [step], Apply(s, step)) && SystemOk(Apply(s, step))
  {
    ExtendsRun(states, steps, step);
    EveryStateOk(states, steps, |steps|);
    StepKeepsOk(s, step);
  }

  lemma Start()
    ensures Reached([INITIAL], [], INITIAL) && SystemOk(INITIAL)
  {
    assert IsRun([INITIAL], []);
    EveryStateOk([INITIAL], [], 0);
  }

  ghost predicate OneLease(s: System) {
    && SystemOk(s) && OneApi(s.db, 1, 0) && HoldsX(s, 0)
    && s.procs.Keys == {0} && s.db.invocations.Keys == {"i0"} && s.db.attempts.Keys == {"a0"}
  }

  lemma BeganFirst(s: System, s': System)
    requires s == INITIAL && Began(s, s', 1, 0, "i0", "a0") && SystemOk(s')
    ensures OneLease(s')
  {
  }

  lemma FirstLease() returns (s': System)
    ensures Reached([INITIAL] + [s'], [] + [BeginStep(0, "i0", "a0")], s') && OneLease(s')
  {
    Start();
    FirstSync();
    BeginOnX(INITIAL, FullSync(EMPTY_DB, CONFIG), 0, 0, "i0", "a0");
    OneMore([INITIAL], [], INITIAL, BeginStep(0, "i0", "a0"));
    s' := Apply(INITIAL, BeginStep(0, "i0", "a0"));
    BeganFirst(INITIAL, s');
  }

  lemma SecondLease(states: seq<System>, steps: seq<Step>, s: System) returns (s': System)
    requires Reached(states, steps, s) && OneLease(s)
    ensures Reached(states + [s'], steps + [BeginStep(1, "i1", "a1")], s') && SystemOk(s') && OneApi(s'.db, 2, 0)
    ensures HoldsX(s', 0) && HoldsX(s', 1)
  {
    assert "i1"[1] != "i0"[1] && "a1"[1] != "a0"[1];
    BeginOnX(s, s.db, 1, 1, "i1", "a1");
    OneMore(states, steps, s, BeginStep(1, "i1", "a1"));
    s' := Apply(s, BeginStep(1, "i1", "a1"));
  }

  lemma Failure(states: seq<System>, steps: seq<Step>, s: System, leases: int, failures: int, p: nat) returns (s': System)
    requires Reached(states, steps, s) && SystemOk(s) && OneApi(s.db, leases, failures) && failures >= 0 && HoldsX(s, p)
    ensures Reached(states + [s'], steps + [FailStep(p)], s') && SystemOk(s') && OneApi(s'.db, leases - 1, failures + 1)
    ensures forall q | q != p && HoldsX(s, q) :: HoldsX(s', q)
  {
    FailsOnX(s, leases, failures, p);
    OneMore(states, steps, s, FailStep(p));
    s' := Apply(s, FailStep(p));
  }

  lemma BothLeases() returns (states: seq<System>, steps: seq<Step>, s: System)
    ensures Reached(states, steps, s) && steps == [BeginStep(0, "i0", "a0"), BeginStep(1, "i1", "a1")]
    ensures SystemOk(s) && OneApi(s.db, 2, 0) && HoldsX(s, 0) && HoldsX(s, 1)
  {
    var s1 := FirstLease();
    s := SecondLease([INITIAL] + [s1], [] + [BeginStep(0, "i0", "a0")], s1);
    states, steps := [INITIAL] + [s1] + [s], [] + [BeginStep(0, "i0", "a0")] + [BeginStep(1, "i1", "a1")];
  }

  lemma BothFail(states: seq<System>, steps: seq<Step>, s: System) returns (states': seq<System>, last: System)
    requires Reached(states, steps, s) && SystemOk(s) && OneApi(s.db, 2, 0) && HoldsX(s, 0) && HoldsX(s, 1)
    ensures Reached(states', steps + [FailStep(0)] + [FailStep(1)], last) && OneApi(last.db, 0, 2)
  {
    var s3 := Failure(states, steps, s, 2, 0, 0);
    last := Failure(states + [s3], steps + [FailStep(0)], s3, 1, 1, 1);
    states' := states + [s3] + [last];
  }

  /** Two failures against a threshold of one: failures plus leases reach threshold - 1 + cap. */
  lemma OvershootIsReached() returns (states: seq<System>, steps: seq<Step>, last: System)
    ensures IsRun(states, steps) && states[|steps|] == last && FixedConfig(CONFIG)
    ensures steps == [BeginStep(0, "i0", "a0"), BeginStep(1, "i1", "a1")] + [FailStep(0)] + [FailStep(1)]
    ensures X in last.db.apis
    ensures var row := last.db.apis[X];
      && row.failureCount == 2 > CONFIG.offlineFailureThreshold && row.leaseCount == 0
      && row.failureCount + row.leaseCount == CONFIG.offlineFailureThreshold - 1 + row.endpoint.maxConcurrent
  {
    var begun, s;
    begun, steps, s := BothLeases();
    states, last := BothFail(begun, steps, s);
    steps := steps + [FailStep(0)] + [FailStep(1)];
  }
}
