/**
  The pool's tables and the transactions of internal/poolgateway/store.go, each as a function
  from the tables before to the tables after. A transaction that fails is rolled back, so an
  error carries no tables.
 */
module PoolModel {
  import opened Prelude
  import opened Sorting

  type Id = string

  datatype ApiStatus = Available | Leased | Offline

  datatype RunStatus = Running | Succeeded | Failed

  /** The codes the gateway tells apart, and any other. */
  datatype ErrorCode = ProviderUnreachable | ProviderTimeout | ProviderHttpError | GatewayInternalError | OtherCode(text: string)

  datatype GatewayError = GatewayError(code: ErrorCode, message: string, retryable: bool)

  datatype PoolError =
    | GlobalQuota
    | NoCapacity
    | ConfigNotFound(api: Id)
    | InvocationNotFound(invocation: Id)
    | LeaseUnderflow(api: Id)

  // Configuration ------------------------------------------------------------------------

  datatype Pricing = Pricing(input: Option<real>, output: Option<real>, cachedInput: Option<real>, reasoning: Option<real>)

  datatype ApiConfig = ApiConfig(
    apiId: Id,
    provider: string,
    apiMode: string,
    model: string,
    baseUrl: string,
    apiKey: string,
    maxConcurrent: int,
    enabled: bool,
    headers: map<string, string>,
    requestDefaults: string,
    pricing: Option<Pricing>)

  datatype ModelConfig = ModelConfig(
    globalMaxConcurrent: Option<int>,
    offlineFailureThreshold: int,
    retryMaxAttempts: Option<int>,
    retryBaseBackoff: Option<int>,
    apis: seq<ApiConfig>)

  /** What LoadModelConfig guarantees of every configuration it returns. */
  predicate ValidConfig(c: ModelConfig) {
    && c.offlineFailureThreshold >= 1
    && (forall i | 0 <= i < |c.apis| :: c.apis[i].maxConcurrent > 0)
    && (c.retryMaxAttempts.Some? ==> c.retryMaxAttempts.value > 0)
    && (c.retryBaseBackoff.Some? ==> c.retryBaseBackoff.value >= 0)
  }

  ghost predicate DistinctIds(apis: seq<ApiConfig>) {
    forall i, j | 0 <= i < j < |apis| :: apis[i].apiId != apis[j].apiId
  }

  function ConfiguredIds(apis: seq<ApiConfig>): set<Id> {
    set i | 0 <= i < |apis| :: apis[i].apiId
  }

  // Tables -------------------------------------------------------------------------------

  datatype Endpoint = Endpoint(
    provider: string, model: string, baseUrl: string, apiKey: string, maxConcurrent: int, enabled: bool)

  datatype ApiRow = ApiRow(
    endpoint: Endpoint, status: ApiStatus, leaseCount: int, failureCount: int, lastError: Option<string>)

  datatype InvocationRow = InvocationRow(
    requestId: string, nodeId: string, apiId: Id, status: RunStatus,
    finishedAt: Option<int>, output: Option<string>, error: Option<GatewayError>)

  datatype AttemptRow = AttemptRow(
    invocationId: Id, apiId: Id, status: RunStatus, finishedAt: Option<int>, error: Option<GatewayError>)

  /** globalLimit is Some(None) when the stored text is empty, None when there is no row. */
  datatype Meta = Meta(globalLimit: Option<Option<int>>, threshold: Option<int>, configHash: Option<ModelConfig>)

  datatype Db = Db(
    apis: map<Id, ApiRow>, invocations: map<Id, InvocationRow>, attempts: map<Id, AttemptRow>, meta: Meta)

  const EMPTY_DB := Db(map[], map[], map[], Meta(None, None, None))

  function GlobalLimit(db: Db): Option<int> {
    if db.meta.globalLimit.Some? then db.meta.globalLimit.value else None
  }

  function Threshold(db: Db): int {
    if db.meta.threshold.Some? then db.meta.threshold.value else 3
  }

  function ResolveStatus(enabled: bool, lease: int, cap: int, failures: int, threshold: int): ApiStatus {
    if !enabled then Offline
    else if failures >= threshold then Offline
    else if lease >= cap then Leased
    else Available
  }

  function RowStatus(row: ApiRow, threshold: int): ApiStatus {
    ResolveStatus(row.endpoint.enabled, row.leaseCount, row.endpoint.maxConcurrent, row.failureCount, threshold)
  }

  // Config sync --------------------------------------------------------------------------

  function EndpointOf(a: ApiConfig): Endpoint {
    Endpoint(a.provider, a.model, a.baseUrl, a.apiKey, a.maxConcurrent, a.enabled)
  }

  /** INSERT ... ON CONFLICT(api_id): counters and last_error of an existing row survive. */
  function Upsert(apis: map<Id, ApiRow>, a: ApiConfig, threshold: int): map<Id, ApiRow> {
    var lease := if a.apiId in apis then apis[a.apiId].leaseCount else 0;
    var failures := if a.apiId in apis then apis[a.apiId].failureCount else 0;
    var lastError := if a.apiId in apis then apis[a.apiId].lastError else None;
    var status := ResolveStatus(a.enabled, lease, a.maxConcurrent, failures, threshold);
    apis[a.apiId := ApiRow(EndpointOf(a), status, lease, failures, lastError)]
  }

  function UpsertAll(apis: map<Id, ApiRow>, configs: seq<ApiConfig>, threshold: int): map<Id, ApiRow> {
    if configs == [] then apis
    else Upsert(UpsertAll(apis, configs[..|configs| - 1], threshold), configs[|configs| - 1], threshold)
  }

  function Disable(row: ApiRow): ApiRow {
    row.(endpoint := row.endpoint.(enabled := false), status := Offline)
  }

  function DisableOthers(apis: map<Id, ApiRow>, configured: set<Id>): map<Id, ApiRow> {
    map id | id in apis :: if id in configured then apis[id] else Disable(apis[id])
  }

  predicate ConfigBefore(l: ApiConfig, r: ApiConfig) {
    if l.apiId != r.apiId then StrLess(l.apiId, r.apiId)
    else if l.provider != r.provider then StrLess(l.provider, r.provider)
    else if l.apiMode != r.apiMode then StrLess(l.apiMode, r.apiMode)
    else if l.model != r.model then StrLess(l.model, r.model)
    else StrLess(l.baseUrl, r.baseUrl)
  }

  /** The normal form that is hashed; a collision-free hash is represented by the form itself. */
  function Digest(c: ModelConfig): ModelConfig {
    c.(apis := SortBy(ConfigBefore, c.apis))
  }

  function FullSync(db: Db, c: ModelConfig): Db {
    db.(apis := DisableOthers(UpsertAll(db.apis, c.apis, c.offlineFailureThreshold), ConfiguredIds(c.apis)),
        meta := Meta(Some(c.globalMaxConcurrent), Some(c.offlineFailureThreshold), Some(Digest(c))))
  }

  function SyncConfig(db: Db, c: ModelConfig): Db {
    if db.meta.configHash == Some(Digest(c)) then db else FullSync(db, c)
  }

  // Reserving ----------------------------------------------------------------------------

  datatype Request = Request(requestId: string, nodeId: string, pinned: Option<Id>, streaming: bool)

  datatype Reservation = Reservation(
    invocationId: Id, attemptId: Id, apiId: Id, endpoint: Endpoint, apiMode: string)

  function ActiveInvocations(db: Db, exclude: Option<Id>): set<Id> {
    set i | i in db.invocations && db.invocations[i].status == Running && exclude != Some(i)
  }

  predicate QuotaAllows(db: Db, retryOf: Option<Id>) {
    GlobalLimit(db).Some? ==> |ActiveInvocations(db, retryOf)| < GlobalLimit(db).value
  }

  predicate Eligible(db: Db, pinned: Option<Id>, id: Id) {
    && id in db.apis
    && db.apis[id].endpoint.enabled
    && db.apis[id].status != Offline
    && db.apis[id].leaseCount < db.apis[id].endpoint.maxConcurrent
    && (pinned.Some? ==> id == pinned.value)
  }

  /** ORDER BY lease_count ASC, api_id ASC */
  predicate PreferredTo(db: Db, x: Id, y: Id)
    requires x in db.apis && y in db.apis
  {
    db.apis[x].leaseCount < db.apis[y].leaseCount
    || (db.apis[x].leaseCount == db.apis[y].leaseCount && StrLess(x, y))
  }

  ghost predicate Picks(db: Db, pinned: Option<Id>, id: Id) {
    && Eligible(db, pinned, id)
    && forall other | Eligible(db, pinned, other) && other != id :: PreferredTo(db, id, other)
  }

  lemma {:induction false} BestOfSet(db: Db, ids: set<Id>) returns (best: Id)
    requires ids != {} && ids <= db.apis.Keys
    ensures best in ids
    ensures forall other | other in ids && other != best :: PreferredTo(db, best, other)
    decreases ids
  {
    var first :| first in ids;
    best := first;
    var others := ids - {first};
    assert ids == others + {first};
    if others != {} {
      var rest := BestOfSet(db, others);
      best := if PreferredTo(db, rest, first) then rest else first;
      StrLessTotal(first, rest);
      forall other | other in ids && other != best ensures PreferredTo(db, best, other) {
        if other != first {
          assert other in others;
          if best == first && other != rest && StrLess(first, rest) && StrLess(rest, other) {
            StrLessTransitive(first, rest, other);
          }
        }
      }
    }
  }

  lemma PickExists(db: Db, pinned: Option<Id>)
    requires exists id :: Eligible(db, pinned, id)
    ensures exists id :: Picks(db, pinned, id)
  {
    var ids := set id | id in db.apis && Eligible(db, pinned, id);
    var witnessId :| Eligible(db, pinned, witnessId);
    assert witnessId in ids;
    var best := BestOfSet(db, ids);
    assert Picks(db, pinned, best);
  }

  lemma PickUnique(db: Db, pinned: Option<Id>, a: Id, b: Id)
    requires Picks(db, pinned, a) && Picks(db, pinned, b)
    ensures a == b
  {
    StrLessIsStrictOrder();
  }

  ghost function PickApi(db: Db, pinned: Option<Id>): (id: Id)
    requires exists id :: Eligible(db, pinned, id)
    ensures Picks(db, pinned, id)
  {
    PickExists(db, pinned);
    var id :| Picks(db, pinned, id);
    id
  }

  function ApiModeOf(apis: seq<ApiConfig>, id: Id): string
    requires id in ConfiguredIds(apis)
  {
    if apis[0].apiId == id then apis[0].apiMode else
      assert forall i | 0 < i < |apis| :: apis[1..][i - 1] == apis[i];
      ApiModeOf(apis[1..], id)
  }

  /** The row after one more lease; the status is the shortcut the reserve transaction uses. */
  function TakeLease(row: ApiRow): ApiRow {
    row.(leaseCount := row.leaseCount + 1,
         status := if row.leaseCount + 1 >= row.endpoint.maxConcurrent then Leased else Available)
  }

  /** Writes of a successful reserve: the lease, the (new or reopened) invocation, the attempt. */
  function ReserveOn(db: Db, request: Request, api: Id, invocation: Id, attempt: Id): Db
    requires api in db.apis
  {
    var inv := if invocation in db.invocations
               then db.invocations[invocation].(apiId := api, status := Running, finishedAt := None, output := None, error := None)
               else InvocationRow(request.requestId, request.nodeId, api, Running, None, None, None);
    db.(apis := db.apis[api := TakeLease(db.apis[api])],
        invocations := db.invocations[invocation := inv],
        attempts := db.attempts[attempt := AttemptRow(invocation, api, Running, None, None)])
  }

  /** reserveAttemptTx: retryOf is the invocation being retried, newId the id of a new one. */
  ghost function ReserveAttempt(db: Db, c: ModelConfig, request: Request, retryOf: Option<Id>, newId: Id, attempt: Id)
    : Result<(Db, Reservation), PoolError>
  {
    if !QuotaAllows(db, retryOf) then Err(GlobalQuota)
    else if !exists id :: Eligible(db, request.pinned, id) then Err(NoCapacity)
    else
      var api := PickApi(db, request.pinned);
      if api !in ConfiguredIds(c.apis) then Err(ConfigNotFound(api))
      else if retryOf.Some? && retryOf.value !in db.invocations then Err(InvocationNotFound(retryOf.value))
      else
        var invocation := if retryOf.Some? then retryOf.value else newId;
        Ok((ReserveOn(db, request, api, invocation, attempt),
            Reservation(invocation, attempt, api, db.apis[api].endpoint, ApiModeOf(c.apis, api))))
  }

  /** ReserveInvocation and ReserveRetryAttempt: sync and reserve in one transaction. */
  ghost function ReserveTx(db: Db, c: ModelConfig, request: Request, retryOf: Option<Id>, newId: Id, attempt: Id)
    : Result<(Db, Reservation), PoolError>
  {
    ReserveAttempt(SyncConfig(db, c), c, request, retryOf, newId, attempt)
  }

  // Completing ---------------------------------------------------------------------------

  predicate CountsTowardOffline(e: GatewayError) {
    e.code.ProviderUnreachable? || e.code.ProviderTimeout? || (e.code.ProviderHttpError? && e.retryable)
  }

  /** The row is read through invocations.api_id but written through the reservation's api. */
  function SettleLease(db: Db, row: ApiRow, api: Id, failures: int, lastError: Option<string>): map<Id, ApiRow> {
    if api !in db.apis then db.apis
    else
      var lease := row.leaseCount - 1;
      var status := ResolveStatus(row.endpoint.enabled, lease, row.endpoint.maxConcurrent, failures, Threshold(db));
      db.apis[api := db.apis[api].(leaseCount := lease, failureCount := failures, lastError := lastError, status := status)]
  }

  function RuntimeRow(db: Db, reservation: Reservation): Result<ApiRow, PoolError> {
    if reservation.invocationId !in db.invocations then Err(InvocationNotFound(reservation.invocationId))
    else if db.invocations[reservation.invocationId].apiId !in db.apis then Err(InvocationNotFound(reservation.invocationId))
    else
      var row := db.apis[db.invocations[reservation.invocationId].apiId];
      if row.leaseCount <= 0 then Err(LeaseUnderflow(reservation.apiId)) else Ok(row)
  }

  function FinishAttempt(db: Db, attempt: Id, status: RunStatus, now: int, error: Option<GatewayError>): map<Id, AttemptRow> {
    if attempt in db.attempts
    then db.attempts[attempt := db.attempts[attempt].(status := status, finishedAt := Some(now), error := error)]
    else db.attempts
  }

  function CompleteSuccess(db: Db, reservation: Reservation, output: Option<string>, now: int): Result<Db, PoolError> {
    var row := RuntimeRow(db, reservation);
    if row.Err? then Err(row.error)
    else
      var inv := db.invocations[reservation.invocationId].(
                 status := Succeeded, finishedAt := Some(now), output := output, error := None);
      Ok(db.(apis := SettleLease(db, row.value, reservation.apiId, 0, None),
             invocations := db.invocations[reservation.invocationId := inv],
             attempts := FinishAttempt(db, reservation.attemptId, Succeeded, now, None)))
  }

  function CompleteAttemptFailure(db: Db, reservation: Reservation, e: GatewayError, now: int): Result<Db, PoolError> {
    var row := RuntimeRow(db, reservation);
    if row.Err? then Err(row.error)
    else
      var failures := row.value.failureCount + if CountsTowardOffline(e) then 1 else 0;
      Ok(db.(apis := SettleLease(db, row.value, reservation.apiId, failures, Some(e.message)),
             attempts := FinishAttempt(db, reservation.attemptId, Failed, now, Some(e))))
  }

  function CompleteInvocationFailure(db: Db, invocation: Id, e: GatewayError, now: int): Result<Db, PoolError> {
    if invocation !in db.invocations then Err(InvocationNotFound(invocation))
    else
      Ok(db.(invocations := db.invocations[invocation := db.invocations[invocation].(
           status := Failed, finishedAt := Some(now), output := None, error := Some(e))]))
  }
}
