/** The sequential retry engine of src/retry.js: the module-level state (the
    exported retryOptions object and the two latency counters), the dynamic
    timeout controller updateBaseTimeout, and fetchWithRetry with its single
    request primitive replaced by a sequence of attempt outcomes. */
module Retry {
  import opened Powers
  import opened Constants

  datatype Option<T> = None | Some(value: T) {
    /** The held value, or the default when absent. */
    function GetOr(default: T): T {
      match this
      case Some(v) => v
      case None => default
    }
  }

  /** What one attempt of the request primitive produced, with the time that
      elapsed around it: a response with its HTTP status, or a rejection (the
      attempt's deadline aborted it, or the transport failed). */
  datatype AttemptOutcome =
    | Received(status: int, elapsed: real)
    | Rejected(elapsed: real)

  datatype Response = Response(status: int)

  /** What fetchWithRetry settles with: the response of the accepted attempt,
      or the error thrown once the retry budget is spent. */
  datatype FetchResult = Success(response: Response) | Failure(message: string)

  /** The fields of a caller's options object that fetchWithRetry reads; an
      absent field falls back to the shared retryOptions value. The request
      fields passed through to the transport are not modelled. */
  datatype RequestOptions = RequestOptions(
    retries: Option<int>,
    timeout: Option<real>,
    growthFactor: Option<real>,
    statusCodes: Option<seq<int>>)

  /** The options of one call once the defaults are filled in. */
  datatype Settings = Settings(retries: int, timeout: real, growthFactor: real, statusCodes: seq<int>)

  /** A snapshot of the module-level state of src/retry.js. */
  datatype ModuleState = ModuleState(
    retries: int,
    timeout: real,
    growthFactor: real,
    statusCodes: seq<int>,
    dynamicTimeout: bool,
    fetchCount: nat,
    fetchResponseTimeSum: real)

  /** The state when the module is loaded: the defaults and empty counters. */
  const InitialState: ModuleState :=
    ModuleState(RetryAttempts, RetryTimeout, RetryGrowthFactor, RetryStatusCodes,
                RetryDynamicTimeout, 0, 0.0)

  /** The error message once every attempt failed. */
  function ExhaustedMessage(url: string): string {
    "All retries failed. Url: " + url
  }

  // ---------------------------------------------------------------------------
  // The dynamic timeout controller
  // ---------------------------------------------------------------------------

  /** getAverageResponseTime: the cumulative mean of every recorded sample. */
  function AverageResponseTime(fetchCount: nat, fetchResponseTimeSum: real): (average: real)
    requires fetchCount > 0
    ensures average * fetchCount as real == fetchResponseTimeSum
  {
    fetchResponseTimeSum / fetchCount as real
  }

  /** adjusted is timeout unchanged, grown once, or contracted once. */
  predicate AtMostOneAdjustment(timeout: real, adjusted: real, growthFactor: real)
    requires growthFactor != 0.0
  {
    adjusted == timeout || adjusted == timeout * growthFactor ||
    adjusted == timeout * (1.0 / growthFactor) * 1.5
  }

  /** The timeout after one adjustment, given the new mean response time:
      grown when the mean is above half of it, scaled by 1.5 / growthFactor
      when the mean is below a quarter of it, and kept otherwise. */
  function NextTimeout(timeout: real, growthFactor: real, average: real): real
    requires growthFactor != 0.0
  {
    if average > timeout / 2.0 then timeout * growthFactor
    else if average < timeout / 4.0 then timeout * (1.0 / growthFactor) * 1.5
    else timeout
  }

  /** updateBaseTimeout on a snapshot: inert when the dynamic timeout is off;
      otherwise it records the sample and adjusts the shared timeout once. */
  function Observe(s: ModuleState, responseTime: real): (r: ModuleState)
    requires s.growthFactor != 0.0
    ensures r.retries == s.retries && r.growthFactor == s.growthFactor
    ensures r.statusCodes == s.statusCodes && r.dynamicTimeout == s.dynamicTimeout
    ensures !s.dynamicTimeout ==> r == s
    ensures s.dynamicTimeout ==>
              r.fetchCount == s.fetchCount + 1 &&
              r.fetchResponseTimeSum == s.fetchResponseTimeSum + responseTime
  {
    if !s.dynamicTimeout then s
    else
      var count := s.fetchCount + 1;
      var sum := s.fetchResponseTimeSum + responseTime;
      s.(fetchCount := count, fetchResponseTimeSum := sum,
         timeout := NextTimeout(s.timeout, s.growthFactor, AverageResponseTime(count, sum)))
  }

  /** The new timeout of an enabled call: the mean including the new sample is
      compared with the timeout before the call, for any growth factor. Above
      half of it the timeout is multiplied by growthFactor, below a quarter of
      it by 1.5 / growthFactor, and in between it is kept. A negative timeout
      is excluded because its two bands overlap and the first branch wins. */
  lemma ObserveTimeoutBands(s: ModuleState, responseTime: real)
    requires s.growthFactor != 0.0 && s.dynamicTimeout && s.timeout >= 0.0
    ensures var r := Observe(s, responseTime);
            var average := AverageResponseTime(r.fetchCount, r.fetchResponseTimeSum);
            average == (s.fetchResponseTimeSum + responseTime) / (s.fetchCount + 1) as real &&
            (average > s.timeout / 2.0 ==> r.timeout == s.timeout * s.growthFactor) &&
            (s.timeout / 4.0 <= average <= s.timeout / 2.0 ==> r.timeout == s.timeout) &&
            (average < s.timeout / 4.0 ==> r.timeout == s.timeout * (1.0 / s.growthFactor) * 1.5)
  {
  }

  /** The state after the controller has been fed the samples in order. */
  function ObserveAll(s: ModuleState, samples: seq<real>): ModuleState
    requires s.growthFactor != 0.0
    decreases |samples|
  {
    if samples == [] then s else ObserveAll(Observe(s, samples[0]), samples[1..])
  }

  function Sum(samples: seq<real>): real
    decreases |samples|
  {
    if samples == [] then 0.0 else samples[0] + Sum(samples[1..])
  }

  /** Each adjustment moves the timeout in the direction its band names, as
      long as growthFactor exceeds 1.5 (the default is 2): up exactly when the
      mean is above half the timeout, down exactly when it is below a quarter,
      and not at all in between. */
  lemma NextTimeoutDirection(timeout: real, growthFactor: real, average: real)
    requires timeout > 0.0 && growthFactor > 1.5
    ensures NextTimeout(timeout, growthFactor, average) > timeout <==> average > timeout / 2.0
    ensures NextTimeout(timeout, growthFactor, average) < timeout <==> average < timeout / 4.0
    ensures NextTimeout(timeout, growthFactor, average) == timeout
            <==> timeout / 4.0 <= average <= timeout / 2.0
  {
    if average > timeout / 2.0 {
      assert timeout * growthFactor > timeout * 1.0;
    } else if average < timeout / 4.0 {
      assert (1.0 / growthFactor) * 1.5 < 1.0;
      assert timeout * ((1.0 / growthFactor) * 1.5) < timeout * 1.0;
    }
  }

  /** The "reduce" branch reduces the timeout only for a growth factor above
      1.5; for a factor between 0 and 1.5 it keeps or even raises it. */
  lemma ContractionShrinksIff(timeout: real, growthFactor: real, average: real)
    requires timeout > 0.0 && growthFactor > 0.0 && average < timeout / 4.0
    ensures NextTimeout(timeout, growthFactor, average) < timeout <==> growthFactor > 1.5
  {
    var c := (1.0 / growthFactor) * 1.5;
    assert c * growthFactor == 1.5;
    if growthFactor > 1.5 {
      assert c < 1.0;
      assert timeout * c < timeout * 1.0;
    } else {
      assert c >= 1.0;
      assert timeout * c >= timeout * 1.0;
    }
  }

  /** With the default growth factor of 2 an expansion doubles the timeout and a
      contraction takes it to three quarters. */
  lemma DefaultAdjustmentFactors(timeout: real, average: real)
    requires timeout >= 0.0
    ensures average > timeout / 2.0 ==>
              NextTimeout(timeout, RetryGrowthFactor, average) == 2.0 * timeout
    ensures timeout / 4.0 <= average <= timeout / 2.0 ==>
              NextTimeout(timeout, RetryGrowthFactor, average) == timeout
    ensures average < timeout / 4.0 ==>
              NextTimeout(timeout, RetryGrowthFactor, average) == 0.75 * timeout
  {
    assert RetryGrowthFactor == 2.0;
    assert timeout * (1.0 / 2.0) * 1.5 == 0.75 * timeout;
  }

  /** Six contractions from 1600 with growth factor 2 and a 50 ms mean:
      1600, 1200, 900, 675, 506.25, 379.6875, 284.765625. */
  lemma ContractionChainExample()
    ensures NextTimeout(1600.0, 2.0, 50.0) == 1200.0
    ensures NextTimeout(1200.0, 2.0, 50.0) == 900.0
    ensures NextTimeout(900.0, 2.0, 50.0) == 675.0
    ensures NextTimeout(675.0, 2.0, 50.0) == 506.25
    ensures NextTimeout(506.25, 2.0, 50.0) == 379.6875
    ensures NextTimeout(379.6875, 2.0, 50.0) == 284.765625
    ensures 1600.0 * Pow(0.75, 6) == 284.765625
  {
  }

  /** Feeding the controller touches only the counters and the timeout. When
      it is off nothing changes; when it is on every sample is counted once
      and added to the running sum. */
  lemma {:induction false} ObserveAllCounters(s: ModuleState, samples: seq<real>)
    requires s.growthFactor != 0.0
    ensures ObserveAll(s, samples).retries == s.retries
    ensures ObserveAll(s, samples).growthFactor == s.growthFactor
    ensures ObserveAll(s, samples).statusCodes == s.statusCodes
    ensures ObserveAll(s, samples).dynamicTimeout == s.dynamicTimeout
    ensures !s.dynamicTimeout ==> ObserveAll(s, samples) == s
    ensures s.dynamicTimeout ==>
              ObserveAll(s, samples).fetchCount == s.fetchCount + |samples| &&
              ObserveAll(s, samples).fetchResponseTimeSum == s.fetchResponseTimeSum + Sum(samples)
    decreases |samples|
  {
    if samples != [] {
      ObserveAllCounters(Observe(s, samples[0]), samples[1..]);
    }
  }

  /** timeout multiplied a times by growthFactor and b times by 1.5 / growthFactor. */
  function Scaled(timeout: real, growthFactor: real, a: nat, b: nat): real
    requires growthFactor != 0.0
  {
    timeout * Pow(growthFactor, a) * Pow(1.5 / growthFactor, b)
  }

  lemma ScaledGrow(timeout: real, growthFactor: real, a: nat, b: nat)
    requires growthFactor != 0.0
    ensures Scaled(timeout * growthFactor, growthFactor, a, b) == Scaled(timeout, growthFactor, a + 1, b)
  {
    var x := Pow(growthFactor, a);
    var y := Pow(1.5 / growthFactor, b);
    assert Pow(growthFactor, a + 1) == growthFactor * x;
    assert (timeout * growthFactor) * x * y == timeout * (growthFactor * x) * y;
  }

  lemma ScaledShrink(timeout: real, growthFactor: real, a: nat, b: nat)
    requires growthFactor != 0.0
    ensures Scaled(timeout * (1.0 / growthFactor) * 1.5, growthFactor, a, b)
            == Scaled(timeout, growthFactor, a, b + 1)
  {
    var c := 1.5 / growthFactor;
    var x := Pow(growthFactor, a);
    var y := Pow(c, b);
    assert (1.0 / growthFactor) * 1.5 == c;
    assert timeout * (1.0 / growthFactor) * 1.5 == timeout * c;
    assert Pow(c, b + 1) == c * y;
    assert (timeout * c) * x * y == timeout * x * (c * y);
  }

  /** One call of the controller leaves the timeout as it was or applies
      exactly one of the two factors. */
  lemma ObserveOneAdjustment(s: ModuleState, responseTime: real)
    requires s.growthFactor != 0.0
    ensures AtMostOneAdjustment(s.timeout, Observe(s, responseTime).timeout, s.growthFactor)
  {
  }

  /** Prefixing one adjustment to a product of a + b factors gives a product
      of at most a + b + 1 factors. */
  lemma ScaledStep(timeout: real, adjusted: real, growthFactor: real, a: nat, b: nat)
    requires growthFactor != 0.0
    requires AtMostOneAdjustment(timeout, adjusted, growthFactor)
    ensures exists a': nat, b': nat :: a' + b' <= a + b + 1 &&
              Scaled(adjusted, growthFactor, a, b) == Scaled(timeout, growthFactor, a', b')
  {
    if adjusted == timeout * growthFactor {
      ScaledGrow(timeout, growthFactor, a, b);
      assert a + 1 + b <= a + b + 1;
    } else if adjusted == timeout * (1.0 / growthFactor) * 1.5 {
      ScaledShrink(timeout, growthFactor, a, b);
      assert a + (b + 1) <= a + b + 1;
    } else {
      assert Scaled(adjusted, growthFactor, a, b) == Scaled(timeout, growthFactor, a, b);
    }
  }

  /** At most one adjustment happens per sample: after n samples the timeout is
      the old one multiplied by growthFactor a times and by 1.5 / growthFactor
      b times, with a + b <= n. */
  lemma {:induction false} ObserveAllTimeoutFactors(s: ModuleState, samples: seq<real>)
    requires s.growthFactor != 0.0
    ensures exists a: nat, b: nat :: a + b <= |samples| &&
              ObserveAll(s, samples).timeout == Scaled(s.timeout, s.growthFactor, a, b)
    decreases |samples|
  {
    var g := s.growthFactor;
    if samples == [] {
      assert s.timeout == Scaled(s.timeout, g, 0, 0);
    } else {
      var s' := Observe(s, samples[0]);
      ObserveAllTimeoutFactors(s', samples[1..]);
      var a: nat, b: nat :| a + b <= |samples| - 1 &&
        ObserveAll(s', samples[1..]).timeout == Scaled(s'.timeout, g, a, b);
      ObserveOneAdjustment(s, samples[0]);
      ScaledStep(s.timeout, s'.timeout, g, a, b);
      var a': nat, b': nat :| a' + b' <= a + b + 1 &&
        Scaled(s'.timeout, g, a, b) == Scaled(s.timeout, g, a', b');
      assert ObserveAll(s, samples).timeout == Scaled(s.timeout, g, a', b');
    }
  }

  /** A positive timeout stays positive however the controller is fed. */
  lemma {:induction false} ObserveAllKeepsTimeoutPositive(s: ModuleState, samples: seq<real>)
    requires s.growthFactor > 0.0 && s.timeout > 0.0
    ensures ObserveAll(s, samples).timeout > 0.0
    decreases |samples|
  {
    if samples != [] {
      var s' := Observe(s, samples[0]);
      assert s'.timeout > 0.0 by {
        var g := s.growthFactor;
        assert s.timeout * g > 0.0;
        assert (1.0 / g) * 1.5 > 0.0;
        assert s.timeout * ((1.0 / g) * 1.5) > 0.0;
      }
      ObserveAllKeepsTimeoutPositive(s', samples[1..]);
    }
  }

  // ---------------------------------------------------------------------------
  // fetchWithRetry
  // ---------------------------------------------------------------------------

  /** The destructuring at the head of fetchWithRetry: caller's value, else the
      shared one. */
  function Resolve(o: RequestOptions, s: ModuleState): (p: Settings)
    ensures o.retries.Some? ==> p.retries == o.retries.value
    ensures o.retries.None? ==> p.retries == s.retries
    ensures o.timeout.Some? ==> p.timeout == o.timeout.value
    ensures o.timeout.None? ==> p.timeout == s.timeout
    ensures o.growthFactor.Some? ==> p.growthFactor == o.growthFactor.value
    ensures o.growthFactor.None? ==> p.growthFactor == s.growthFactor
    ensures o.statusCodes.Some? ==> p.statusCodes == o.statusCodes.value
    ensures o.statusCodes.None? ==> p.statusCodes == s.statusCodes
  {
    Settings(o.retries.GetOr(s.retries), o.timeout.GetOr(s.timeout),
             o.growthFactor.GetOr(s.growthFactor), o.statusCodes.GetOr(s.statusCodes))
  }

  /** The greatest number of attempts a retry count allows: the first attempt
      and one per retry. */
  function AttemptBudget(retries: int): nat {
    if retries > 0 then retries + 1 else 1
  }

  /** An attempt fails when it is rejected or when its status is one of the
      retry statuses. */
  predicate Retryable(outcome: AttemptOutcome, statusCodes: seq<int>) {
    outcome.Rejected? || outcome.status in statusCodes
  }

  /** A run of fetchWithRetry: what it settles with, the module state after it
      and the timeout handed to each attempt, in order. */
  datatype Run = Run(result: FetchResult, state: ModuleState, timeouts: seq<real>)

  function Prepend(timeouts: seq<real>, run: Run): Run {
    Run(run.result, run.state, timeouts + run.timeouts)
  }

  /** The options of the recursive call: a clone of the caller's options with
      one retry less and the timeout grown once; the caller's own value is
      left as it was. */
  function OptionsCopy(o: RequestOptions, p: Settings): (copy: RequestOptions)
    ensures forall s: ModuleState {:trigger Resolve(copy, s)} ::
              Resolve(copy, s).retries == p.retries - 1 &&
              Resolve(copy, s).timeout == p.timeout * p.growthFactor
    ensures copy.growthFactor == o.growthFactor && copy.statusCodes == o.statusCodes
  {
    o.(retries := Some(p.retries - 1), timeout := Some(p.timeout * p.growthFactor))
  }

  /** fetchWithRetry as the source writes it, a tail recursion over cloned
      options: outcomes[0] answers the first attempt, the rest answer the
      recursive call. */
  function RetryRun(s: ModuleState, url: string, o: RequestOptions, outcomes: seq<AttemptOutcome>): (run: Run)
    requires s.growthFactor != 0.0
    requires |outcomes| >= AttemptBudget(Resolve(o, s).retries)
    ensures 1 <= |run.timeouts| <= AttemptBudget(Resolve(o, s).retries)
    decreases |outcomes|
  {
    var p := Resolve(o, s);
    var s' := Observe(s, outcomes[0].elapsed);
    if !Retryable(outcomes[0], p.statusCodes) then
      Run(Success(Response(outcomes[0].status)), s', [p.timeout])
    else if p.retries > 0 then
      Prepend([p.timeout], RetryRun(s', url, OptionsCopy(o, p), outcomes[1..]))
    else
      Run(Failure(ExhaustedMessage(url)), s', [p.timeout])
  }

  /** One retry step of RetryRun: a failed attempt with retries left hands the
      recursive call one retry less, a grown timeout, and the same growth
      factor and status codes. */
  lemma RetryRunStep(s: ModuleState, url: string, o: RequestOptions, outcomes: seq<AttemptOutcome>)
    requires s.growthFactor != 0.0
    requires |outcomes| >= AttemptBudget(Resolve(o, s).retries)
    requires Retryable(outcomes[0], Resolve(o, s).statusCodes) && Resolve(o, s).retries > 0
    ensures var p := Resolve(o, s);
            var s' := Observe(s, outcomes[0].elapsed);
            var o' := OptionsCopy(o, p);
            s'.growthFactor == s.growthFactor &&
            Resolve(o', s') == Settings(p.retries - 1, p.timeout * p.growthFactor, p.growthFactor, p.statusCodes) &&
            |outcomes[1..]| >= AttemptBudget(p.retries - 1) &&
            RetryRun(s, url, o, outcomes) == Prepend([p.timeout], RetryRun(s', url, o', outcomes[1..]))
  {
  }

  /** The whole outcome of a run. It makes between one and R + 1 attempts for a
      budget of R retries. It succeeds with the status of the first attempt that
      did not fail, after exactly that many attempts. Otherwise every attempt
      within the budget failed, all R + 1 were made, and the error names the URL. */
  lemma {:induction false} RetryRunOutcome(s: ModuleState, url: string, o: RequestOptions,
                                           outcomes: seq<AttemptOutcome>)
    requires s.growthFactor != 0.0
    requires |outcomes| >= AttemptBudget(Resolve(o, s).retries)
    ensures var run := RetryRun(s, url, o, outcomes);
            var p := Resolve(o, s);
            var n := |run.timeouts|;
            1 <= n <= AttemptBudget(p.retries) &&
            (forall j :: 0 <= j < n - 1 ==> Retryable(outcomes[j], p.statusCodes)) &&
            (run.result.Success? ==>
               !Retryable(outcomes[n - 1], p.statusCodes) &&
               run.result.response == Response(outcomes[n - 1].status)) &&
            (run.result.Failure? ==>
               n == AttemptBudget(p.retries) &&
               Retryable(outcomes[n - 1], p.statusCodes) &&
               run.result.message == ExhaustedMessage(url))
    decreases |outcomes|
  {
    var p := Resolve(o, s);
    var s' := Observe(s, outcomes[0].elapsed);
    if Retryable(outcomes[0], p.statusCodes) && p.retries > 0 {
      var o' := OptionsCopy(o, p);
      var rest := outcomes[1..];
      RetryRunStep(s, url, o, outcomes);
      RetryRunOutcome(s', url, o', rest);
      var sub := RetryRun(s', url, o', rest);
      var n := |sub.timeouts|;
      forall j | 0 <= j < n
        ensures Retryable(outcomes[j], p.statusCodes)
      {
        if j > 0 {
          assert outcomes[j] == rest[j - 1];
        }
      }
      assert outcomes[n] == rest[n - 1];
    }
  }

  /** A run succeeds exactly when some attempt within the budget did not fail. */
  lemma SucceedsIffSomeAttemptAccepted(s: ModuleState, url: string, o: RequestOptions,
                                       outcomes: seq<AttemptOutcome>)
    requires s.growthFactor != 0.0
    requires |outcomes| >= AttemptBudget(Resolve(o, s).retries)
    ensures RetryRun(s, url, o, outcomes).result.Success?
            <==> exists k :: 0 <= k < AttemptBudget(Resolve(o, s).retries) &&
                             !Retryable(outcomes[k], Resolve(o, s).statusCodes)
  {
    RetryRunOutcome(s, url, o, outcomes);
    var run := RetryRun(s, url, o, outcomes);
    var p := Resolve(o, s);
    var n := |run.timeouts|;
    if run.result.Failure? {
      forall k | 0 <= k < AttemptBudget(p.retries)
        ensures Retryable(outcomes[k], p.statusCodes)
      {
        if k == n - 1 {
        }
      }
    } else {
      assert !Retryable(outcomes[n - 1], p.statusCodes);
    }
  }

  /** When every attempt within the budget fails, exactly R + 1 attempts are
      made for R >= 0 retries (one for R < 0), and the run ends with the
      exhausted-retries error naming the URL. */
  lemma ExhaustedAfterBudget(s: ModuleState, url: string, o: RequestOptions,
                             outcomes: seq<AttemptOutcome>)
    requires s.growthFactor != 0.0
    requires |outcomes| >= AttemptBudget(Resolve(o, s).retries)
    requires forall k :: 0 <= k < AttemptBudget(Resolve(o, s).retries) ==>
               Retryable(outcomes[k], Resolve(o, s).statusCodes)
    ensures RetryRun(s, url, o, outcomes).result == Failure(ExhaustedMessage(url))
    ensures |RetryRun(s, url, o, outcomes).timeouts| == AttemptBudget(Resolve(o, s).retries)
  {
    RetryRunOutcome(s, url, o, outcomes);
  }

  /** Each timeout is the previous one multiplied by growthFactor, starting at
      first. */
  predicate Geometric(ts: seq<real>, first: real, growthFactor: real)
    decreases |ts|
  {
    ts == [] || (ts[0] == first && Geometric(ts[1..], first * growthFactor, growthFactor))
  }

  /** The closed form of a geometric sequence: element k is first * growthFactor^k. */
  lemma {:induction false} GeometricAt(ts: seq<real>, first: real, growthFactor: real, k: nat)
    requires Geometric(ts, first, growthFactor) && k < |ts|
    ensures ts[k] == first * Pow(growthFactor, k)
    decreases k
  {
    if k > 0 {
      GeometricAt(ts[1..], first * growthFactor, growthFactor, k - 1);
      var x := Pow(growthFactor, k - 1);
      assert ts[k] == (first * growthFactor) * x;
      assert Pow(growthFactor, k) == growthFactor * x;
      assert (first * growthFactor) * x == first * (growthFactor * x);
    }
  }

  /** Putting first in front of a geometric sequence that starts at
      first * growthFactor gives a geometric sequence starting at first. */
  lemma GeometricPrepend(first: real, growthFactor: real, rest: seq<real>)
    requires Geometric(rest, first * growthFactor, growthFactor)
    ensures Geometric([first] + rest, first, growthFactor)
  {
    assert ([first] + rest)[1..] == rest;
  }

  /** Each retry hands its attempt the previous attempt's timeout multiplied by
      the growth factor. */
  lemma {:induction false} AttemptTimeoutsGrow(s: ModuleState, url: string, o: RequestOptions,
                                               outcomes: seq<AttemptOutcome>)
    requires s.growthFactor != 0.0
    requires |outcomes| >= AttemptBudget(Resolve(o, s).retries)
    ensures Geometric(RetryRun(s, url, o, outcomes).timeouts, Resolve(o, s).timeout, Resolve(o, s).growthFactor)
    decreases |outcomes|
  {
    var p := Resolve(o, s);
    var s' := Observe(s, outcomes[0].elapsed);
    if Retryable(outcomes[0], p.statusCodes) && p.retries > 0 {
      var o' := OptionsCopy(o, p);
      RetryRunStep(s, url, o, outcomes);
      AttemptTimeoutsGrow(s', url, o', outcomes[1..]);
      GeometricPrepend(p.timeout, p.growthFactor, RetryRun(s', url, o', outcomes[1..]).timeouts);
    } else {
      assert RetryRun(s, url, o, outcomes).timeouts == [p.timeout] + [];
      GeometricPrepend(p.timeout, p.growthFactor, []);
    }
  }

  function Elapsed(outcomes: seq<AttemptOutcome>): (samples: seq<real>)
    ensures |samples| == |outcomes|
    ensures forall i :: 0 <= i < |outcomes| ==> samples[i] == outcomes[i].elapsed
  {
    seq(|outcomes|, i requires 0 <= i < |outcomes| => outcomes[i].elapsed)
  }

  /** The controller is fed once per attempt, successful or not, with that
      attempt's elapsed time, in attempt order, and by nothing else. */
  lemma {:induction false} ControllerFedOncePerAttempt(s: ModuleState, url: string, o: RequestOptions,
                                                       outcomes: seq<AttemptOutcome>)
    requires s.growthFactor != 0.0
    requires |outcomes| >= AttemptBudget(Resolve(o, s).retries)
    ensures |RetryRun(s, url, o, outcomes).timeouts| <= |outcomes|
    ensures RetryRun(s, url, o, outcomes).state
            == ObserveAll(s, Elapsed(outcomes[..|RetryRun(s, url, o, outcomes).timeouts|]))
    decreases |outcomes|
  {
    var p := Resolve(o, s);
    var s' := Observe(s, outcomes[0].elapsed);
    var run := RetryRun(s, url, o, outcomes);
    var n := |run.timeouts|;
    if Retryable(outcomes[0], p.statusCodes) && p.retries > 0 {
      var o' := OptionsCopy(o, p);
      RetryRunStep(s, url, o, outcomes);
      ControllerFedOncePerAttempt(s', url, o', outcomes[1..]);
      var samples := Elapsed(outcomes[..n]);
      assert samples[0] == outcomes[0].elapsed;
      assert samples[1..] == Elapsed(outcomes[1..][..n - 1]);
    } else {
      assert Elapsed(outcomes[..n])[1..] == [];
    }
  }

  /** With the dynamic timeout on, a run adds exactly its number of attempts to
      fetchCount; with it off the run leaves the module state untouched. The
      shared retries, growthFactor and statusCodes never change. */
  lemma AttemptsCounted(s: ModuleState, url: string, o: RequestOptions,
                        outcomes: seq<AttemptOutcome>)
    requires s.growthFactor != 0.0
    requires |outcomes| >= AttemptBudget(Resolve(o, s).retries)
    ensures var run := RetryRun(s, url, o, outcomes);
            run.state.retries == s.retries && run.state.growthFactor == s.growthFactor &&
            run.state.statusCodes == s.statusCodes &&
            (s.dynamicTimeout ==> run.state.fetchCount == s.fetchCount + |run.timeouts|) &&
            (!s.dynamicTimeout ==> run.state == s)
  {
    var run := RetryRun(s, url, o, outcomes);
    ControllerFedOncePerAttempt(s, url, o, outcomes);
    ObserveAllCounters(s, Elapsed(outcomes[..|run.timeouts|]));
  }

  /** The caller's options used by the integration tests of the retry loop. */
  function TestOptions(timeout: real): RequestOptions {
    RequestOptions(Some(3), Some(timeout), Some(2.0), None)
  }

  /** A 408 is retried and the 200 of the next attempt is returned; a 401 is
      returned unchanged after a single attempt (default status codes). */
  lemma StatusExamples(s: ModuleState, url: string, e0: real, e1: real, rest: seq<AttemptOutcome>)
    requires s.growthFactor != 0.0 && s.statusCodes == RetryStatusCodes
    requires |rest| >= 2
    ensures RetryRun(s, url, TestOptions(500.0), [Received(408, e0), Received(200, e1)] + rest)
            == Run(Success(Response(200)),
                   ObserveAll(s, [e0, e1]), [500.0, 1000.0])
    ensures RetryRun(s, url, TestOptions(500.0), [Received(401, e0), Received(200, e1)] + rest)
            == Run(Success(Response(401)), Observe(s, e0), [500.0])
  {
    var o := TestOptions(500.0);
    var p := Resolve(o, s);
    assert p == Settings(3, 500.0, 2.0, RetryStatusCodes);
    assert 408 in RetryStatusCodes && 200 !in RetryStatusCodes && 401 !in RetryStatusCodes;
    var os := [Received(408, e0), Received(200, e1)] + rest;
    var s1 := Observe(s, e0);
    var o1 := OptionsCopy(o, p);
    assert os[1..] == [Received(200, e1)] + rest;
    assert Resolve(o1, s1) == Settings(2, 1000.0, 2.0, RetryStatusCodes);
    assert RetryRun(s1, url, o1, os[1..]) == Run(Success(Response(200)), Observe(s1, e1), [1000.0]);
    assert ObserveAll(s, [e0, e1]) == ObserveAll(s1, [e1]);
    assert [e0, e1][1..] == [e1] && [e1][1..] == [];
    assert ObserveAll(s1, [e1]) == ObserveAll(Observe(s1, e1), []);
  }

  /** Two attempts aborted at their 500 ms and 1000 ms deadlines, then a 200 on
      the third attempt, whose deadline is 2000 ms. */
  lemma SecondRetryExample(s: ModuleState, url: string, e: real, rest: seq<AttemptOutcome>)
    requires s.growthFactor != 0.0 && s.statusCodes == RetryStatusCodes
    requires |rest| >= 1
    ensures var run := RetryRun(s, url, TestOptions(500.0),
                                [Rejected(500.0), Rejected(1000.0), Received(200, e)] + rest);
            run.result == Success(Response(200)) && run.timeouts == [500.0, 1000.0, 2000.0]
  {
    var o := TestOptions(500.0);
    var p := Resolve(o, s);
    assert p == Settings(3, 500.0, 2.0, RetryStatusCodes);
    assert 200 !in RetryStatusCodes;
    var os := [Rejected(500.0), Rejected(1000.0), Received(200, e)] + rest;
    var s1 := Observe(s, 500.0);
    var o1 := OptionsCopy(o, p);
    var p1 := Resolve(o1, s1);
    assert p1 == Settings(2, 1000.0, 2.0, RetryStatusCodes);
    var s2 := Observe(s1, 1000.0);
    var o2 := OptionsCopy(o1, p1);
    assert Resolve(o2, s2) == Settings(1, 2000.0, 2.0, RetryStatusCodes);
    assert os[1..] == [Rejected(1000.0), Received(200, e)] + rest;
    assert os[1..][1..] == [Received(200, e)] + rest;
    var run2 := RetryRun(s2, url, o2, os[1..][1..]);
    assert run2.result == Success(Response(200)) && run2.timeouts == [2000.0];
    var run1 := RetryRun(s1, url, o1, os[1..]);
    assert run1 == Prepend([1000.0], run2);
    assert RetryRun(s, url, o, os) == Prepend([500.0], run1);
  }

  // ---------------------------------------------------------------------------
  // The module-level state as an object
  // ---------------------------------------------------------------------------

  /** The mutable module-level state of src/retry.js: the shared retryOptions
      fields, which callers may overwrite, and the controller's counters. */
  class RetryModule {
    var retries: int
    var timeout: real
    var growthFactor: real
    var statusCodes: seq<int>
    var dynamicTimeout: bool
    var fetchCount: nat
    var fetchResponseTimeSum: real

    function Snapshot(): ModuleState
      reads this
    {
      ModuleState(retries, timeout, growthFactor, statusCodes, dynamicTimeout,
                  fetchCount, fetchResponseTimeSum)
    }

    /** Module load: retryOptions holds the defaults, both counters are zero. */
    constructor ()
      ensures Snapshot() == InitialState
    {
      retries := RetryAttempts;
      timeout := RetryTimeout;
      growthFactor := RetryGrowthFactor;
      statusCodes := RetryStatusCodes;
      dynamicTimeout := RetryDynamicTimeout;
      fetchCount := 0;
      fetchResponseTimeSum := 0.0;
    }

    /** updateBaseTimeout(responseTime). */
    method UpdateBaseTimeout(responseTime: real)
      requires growthFactor != 0.0
      modifies this
      ensures Snapshot() == Observe(old(Snapshot()), responseTime)
      ensures !old(dynamicTimeout) ==> unchanged(this)
      ensures old(dynamicTimeout) ==>
                fetchCount == old(fetchCount) + 1 &&
                fetchResponseTimeSum == old(fetchResponseTimeSum) + responseTime
      ensures retries == old(retries) && growthFactor == old(growthFactor)
      ensures statusCodes == old(statusCodes) && dynamicTimeout == old(dynamicTimeout)
    {
      if !dynamicTimeout {
        return;
      }
      fetchCount := fetchCount + 1;
      fetchResponseTimeSum := fetchResponseTimeSum + responseTime;
      if AverageResponseTime(fetchCount, fetchResponseTimeSum) > timeout / 2.0 {
        timeout := timeout * growthFactor;
      } else if AverageResponseTime(fetchCount, fetchResponseTimeSum) < timeout / 4.0 {
        timeout := timeout * (1.0 / growthFactor) * 1.5;
      }
    }

    /** fetchWithRetry(url, options), with outcomes[k] answering attempt k.
        Each pass of the loop is one call of the source's recursion: it resolves
        the defaults, makes one attempt, feeds the controller, and either
        returns or continues with one retry less and a grown timeout. */
    method FetchWithRetry(url: string, options: RequestOptions, outcomes: seq<AttemptOutcome>)
      returns (result: FetchResult, timeouts: seq<real>)
      requires growthFactor != 0.0
      requires |outcomes| >= AttemptBudget(Resolve(options, Snapshot()).retries)
      modifies this
      ensures Run(result, Snapshot(), timeouts) == RetryRun(old(Snapshot()), url, options, outcomes)
    {
      var current := options;
      var k := 0;
      timeouts := [];
      while true
        invariant growthFactor == old(growthFactor)
        invariant 0 <= k <= |outcomes|
        invariant |outcomes[k..]| >= AttemptBudget(Resolve(current, Snapshot()).retries)
        invariant RetryRun(old(Snapshot()), url, options, outcomes)
                  == Prepend(timeouts, RetryRun(Snapshot(), url, current, outcomes[k..]))
        decreases |outcomes| - k
      {
        var p := Resolve(current, Snapshot());
        var outcome := outcomes[k];
        ghost var before := Snapshot();
        timeouts := timeouts + [p.timeout];
        if outcome.Received? && outcome.status !in p.statusCodes {
          UpdateBaseTimeout(outcome.elapsed);
          result := Success(Response(outcome.status));
          return;
        }
        UpdateBaseTimeout(outcome.elapsed);
        if p.retries > 0 {
          var next := OptionsCopy(current, p);
          assert outcomes[k..][1..] == outcomes[k + 1..];
          assert RetryRun(before, url, current, outcomes[k..])
                 == Prepend([p.timeout], RetryRun(Snapshot(), url, next, outcomes[k + 1..]));
          current := next;
          k := k + 1;
        } else {
          result := Failure(ExhaustedMessage(url));
          return;
        }
      }
    }
  }
}
