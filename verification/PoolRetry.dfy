/** internal/poolgateway/retry.go: the retry policy of the gateway. */
module PoolRetry {
  import opened Prelude
  import opened PoolModel

  datatype RetryPolicy = RetryPolicy(maxAttempts: int, baseBackoff: int)

  const DEFAULT_POLICY := RetryPolicy(3, 200)

  predicate IsNormal(p: RetryPolicy) {
    p.maxAttempts >= 1 && p.baseBackoff >= 0
  }

  function Normalized(p: RetryPolicy): (r: RetryPolicy)
    ensures IsNormal(r)
    ensures IsNormal(p) ==> r == p
    ensures p.maxAttempts < 1 ==> r.maxAttempts == 3
    ensures p.baseBackoff < 0 ==> r.baseBackoff == 0
    ensures (p.maxAttempts >= 1 ==> r.maxAttempts == p.maxAttempts) && (p.baseBackoff >= 0 ==> r.baseBackoff == p.baseBackoff)
  {
    var p' := if p.maxAttempts <= 0 then p.(maxAttempts := DEFAULT_POLICY.maxAttempts) else p;
    if p'.baseBackoff < 0 then p'.(baseBackoff := 0) else p'
  }

  function PolicyOf(c: ModelConfig): (r: RetryPolicy)
    ensures IsNormal(r)
  {
    Normalized(RetryPolicy(
      if c.retryMaxAttempts.Some? then c.retryMaxAttempts.value else DEFAULT_POLICY.maxAttempts,
      if c.retryBaseBackoff.Some? then c.retryBaseBackoff.value else DEFAULT_POLICY.baseBackoff))
  }

  predicate ShouldRetry(p: RetryPolicy, attempt: int, e: GatewayError) {
    attempt < Normalized(p).maxAttempts && e.retryable
  }

  function BackoffFor(p: RetryPolicy, attempt: int): (d: int)
    ensures d >= 0
  {
    if attempt <= 0 || Normalized(p).baseBackoff == 0 then 0 else attempt * Normalized(p).baseBackoff
  }

  /** Time slept before attempt k starts: the backoffs of the attempts before it. */
  function SleptBefore(p: RetryPolicy, k: nat): (d: int)
    ensures d >= 0
  {
    if k == 0 then 0 else SleptBefore(p, k - 1) + BackoffFor(p, k - 1)
  }

  lemma {:induction false} SleptBeforeIsTriangular(p: RetryPolicy, k: nat)
    requires IsNormal(p)
    ensures 2 * SleptBefore(p, k) == p.baseBackoff * (k * (k - 1))
  {
    if k > 0 {
      SleptBeforeIsTriangular(p, k - 1);
      assert BackoffFor(p, k - 1) == p.baseBackoff * (k - 1);
      assert p.baseBackoff * ((k - 1) * (k - 2)) + 2 * (p.baseBackoff * (k - 1)) == p.baseBackoff * (k * (k - 1));
    }
  }

  lemma {:induction false} SleptBeforeGrows(p: RetryPolicy, k: nat, n: nat)
    requires k <= n
    ensures SleptBefore(p, k) <= SleptBefore(p, n)
    decreases n - k
  {
    if k < n {
      SleptBeforeGrows(p, k, n - 1);
    }
  }

  /** All the backoffs of n attempts add up to BaseBackoff * n(n-1)/2. */
  lemma SleepCap(p: RetryPolicy, slept: int)
    requires IsNormal(p) && slept <= SleptBefore(p, p.maxAttempts)
    ensures 2 * slept <= p.baseBackoff * (p.maxAttempts * (p.maxAttempts - 1))
  {
    SleptBeforeIsTriangular(p, p.maxAttempts);
  }
}
