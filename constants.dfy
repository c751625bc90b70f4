/** The library's default retry configuration and the helper that computes the
    total time budget of a raced execution (src/constants.js). */
module Constants {
  import opened Powers

  /** Number of retries after the first attempt. */
  const RetryAttempts: int := 4
  /** Base timeout of a single attempt, in milliseconds. */
  const RetryTimeout: real := 500.0
  /** Factor by which the timeout grows after each failed attempt. */
  const RetryGrowthFactor: real := 2.0
  /** HTTP statuses that count as a failed attempt although a response arrived. */
  const RetryStatusCodes: seq<int> := [408, 500, 502, 503, 504, 506, 507, 508, 510]
  /** Whether the base timeout follows the observed mean response time. */
  const RetryDynamicTimeout: bool := true
  /** Upper clamp for the adapted timeout: JavaScript's Number.MAX_SAFE_INTEGER.
      Declared by the library, read by none of the modelled code. */
  const RetryDynamicMaxTimeout: real := 9007199254740991.0
  /** Lower clamp for the adapted timeout; declared, never read. */
  const RetryDynamicMinTimeout: real := 0.0
  /** Consecutive signals needed before an adjustment; declared, never read. */
  const RetryDynamicHeuristic: int := 3

  /** The closed form of the total time: the timeout grown by a factor of
      (1 + growthFactor) once per retry; no growth for a non-positive count. */
  function TotalTime(timeout: real, growthFactor: real, retries: int): real
  {
    timeout * Pow(1.0 + growthFactor, if retries > 0 then retries else 0)
  }

  /** getTotalTime: adds tempTimeout * growthFactor to tempTimeout once for
      every i from 1 to retries. */
  method GetTotalTime(timeout: real, growthFactor: real, retries: int) returns (total: real)
    ensures total == TotalTime(timeout, growthFactor, retries)
  {
    var tempTimeout := timeout;
    var i := 1;
    while i <= retries
      invariant 1 <= i <= (if retries > 0 then retries else 0) + 1
      invariant tempTimeout == timeout * Pow(1.0 + growthFactor, i - 1)
    {
      tempTimeout := tempTimeout + tempTimeout * growthFactor;
      i := i + 1;
    }
    total := tempTimeout;
  }

  /** With no retries the loop never runs and the timeout comes back as it was. */
  lemma TotalTimeWithoutRetries(timeout: real, growthFactor: real, retries: int)
    requires retries <= 0
    ensures TotalTime(timeout, growthFactor, retries) == timeout
  {
  }

  /** One more retry multiplies the total by (1 + growthFactor). */
  lemma TotalTimeStep(timeout: real, growthFactor: real, retries: int)
    requires retries >= 0
    ensures TotalTime(timeout, growthFactor, retries + 1)
            == TotalTime(timeout, growthFactor, retries) * (1.0 + growthFactor)
  {
    var x := 1.0 + growthFactor;
    assert Pow(x, retries + 1) == x * Pow(x, retries);
  }

  /** For a non-negative timeout and growth factor the total is never below the
      timeout, and never shrinks as the retry count grows. */
  lemma TotalTimeMonotone(timeout: real, growthFactor: real, fewer: int, more: int)
    requires timeout >= 0.0 && growthFactor >= 0.0 && fewer <= more
    ensures timeout <= TotalTime(timeout, growthFactor, fewer)
    ensures TotalTime(timeout, growthFactor, fewer) <= TotalTime(timeout, growthFactor, more)
  {
    var x := 1.0 + growthFactor;
    var m: nat := if fewer > 0 then fewer else 0;
    var n: nat := if more > 0 then more else 0;
    PowAtLeastOne(x, m);
    PowMonotone(x, m, n);
    assert timeout * 1.0 <= timeout * Pow(x, m);
    assert timeout * Pow(x, m) <= timeout * Pow(x, n);
  }

  /** The default configuration is well formed. */
  lemma DefaultsWellFormed()
    ensures RetryDynamicMinTimeout <= RetryTimeout <= RetryDynamicMaxTimeout
    ensures RetryGrowthFactor > 1.0
    ensures RetryAttempts >= 0
    ensures RetryDynamicHeuristic > 0
    ensures 408 in RetryStatusCodes && 401 !in RetryStatusCodes
  {
  }
}
