/**
 * The bounded retry with exponential backoff that wraps every vision-backend
 * call: up to three retries, only for rate-limit errors, waiting
 * 2^retries · 15000 ms before each. The three provider classes and the
 * bundled `generateAlt` handler run the same loop and differ only in which
 * message fragments mark a rate limit.
 *
 * The backend is an oracle `backend(req, k)`: what attempt `k` (0-based) of
 * the call with request `req` returns or throws. Waiting is not performed;
 * the model records the delays it would wait, in order.
 */
module Retry {
  import opened Common
  import opened Text

  const MaxRetries: nat := 3
  const BaseDelay: nat := 15000

  function Pow2(k: nat): (r: nat)
    ensures r >= 1
  {
    if k == 0 then 1 else 2 * Pow2(k - 1)
  }

  /** `Math.pow(2, retries) * 15000` */
  function Delay(retries: nat): nat
  {
    Pow2(retries) * BaseDelay
  }

  /** `err instanceof Error && (err.message.includes(m_1) || … )` */
  predicate IsRateLimit(e: Thrown, markers: seq<string>)
  {
    e.ErrorObject? && exists i :: 0 <= i < |markers| && Contains(e.message, markers[i])
  }

  /** How a call ended (its value, or the error it rethrew) and the delays waited before it ended. */
  datatype Run<T> = Run(result: Outcome<T>, waits: seq<nat>)

  /** The loop from attempt `retries` on, as a recursive definition. */
  function RetryFrom<R, T>(backend: (R, nat) -> Outcome<T>, req: R, markers: seq<string>, retries: nat): Run<T>
    requires retries <= MaxRetries
    decreases MaxRetries - retries
  {
    match backend(req, retries)
    case Ok(v) => Run(Ok(v), [])
    case Err(e) =>
      if IsRateLimit(e, markers) && retries < MaxRetries then
        var rest := RetryFrom(backend, req, markers, retries + 1);
        Run(rest.result, [Delay(retries)] + rest.waits)
      else Run(Err(e), [])
  }

  /**
   * The `while (retries <= maxRetries)` loop: call; on success stop; on a
   * rate-limit error with retries left, wait and count a retry; otherwise
   * rethrow (returned here as `Err`).
   */
  method CallWithBackoff<R, T>(backend: (R, nat) -> Outcome<T>, req: R, markers: seq<string>)
    returns (result: Outcome<T>, waits: seq<nat>)
    ensures Run(result, waits) == RetryFrom(backend, req, markers, 0)
  {
    var retries: nat := 0;
    waits := [];
    while retries <= MaxRetries
      invariant retries <= MaxRetries
      invariant RetryFrom(backend, req, markers, 0).result == RetryFrom(backend, req, markers, retries).result
      invariant RetryFrom(backend, req, markers, 0).waits == waits + RetryFrom(backend, req, markers, retries).waits
      decreases MaxRetries - retries
    {
      var outcome := backend(req, retries);
      if outcome.Ok? {
        return outcome, waits;
      }
      if IsRateLimit(outcome.error, markers) && retries < MaxRetries {
        waits := waits + [Delay(retries)];
        retries := retries + 1;
      } else {
        return outcome, waits;
      }
    }
    assert false;
  }

  /**
   * What a run from attempt `j` looks like: at most `MaxRetries - j` waits;
   * the k-th wait is `Delay(j + k)`; the run ends with what attempt
   * `j + |waits|` returned or threw; every earlier attempt threw a
   * rate-limit error; and a thrown error ends the run only when it is not a
   * rate limit or no retry is left.
   */
  ghost predicate ShapedFrom<R, T>(backend: (R, nat) -> Outcome<T>, req: R, markers: seq<string>, j: nat, run: Run<T>)
  {
    && j + |run.waits| <= MaxRetries
    && (forall k :: 0 <= k < |run.waits| ==> run.waits[k] == Delay(j + k))
    && run.result == backend(req, j + |run.waits|)
    && (forall k :: j <= k < j + |run.waits| ==> backend(req, k).Err? && IsRateLimit(backend(req, k).error, markers))
    && (run.result.Err? ==> !IsRateLimit(run.result.error, markers) || j + |run.waits| == MaxRetries)
  }

  /** The run from attempt `j` has the shape `ShapedFrom` describes. */
  lemma {:induction false} RetryFromShape<R, T>(backend: (R, nat) -> Outcome<T>, req: R, markers: seq<string>, j: nat)
    requires j <= MaxRetries
    ensures ShapedFrom(backend, req, markers, j, RetryFrom(backend, req, markers, j))
    decreases MaxRetries - j
  {
    var first := backend(req, j);
    if first.Err? && IsRateLimit(first.error, markers) && j < MaxRetries {
      RetryFromShape(backend, req, markers, j + 1);
      RetryStepShape(backend, req, markers, j, RetryFrom(backend, req, markers, j + 1));
    }
  }

  /** A rate-limited attempt `j` followed by a well-shaped run from `j + 1` is a well-shaped run from `j`. */
  lemma RetryStepShape<R, T>(backend: (R, nat) -> Outcome<T>, req: R, markers: seq<string>, j: nat, rest: Run<T>)
    requires j < MaxRetries && backend(req, j).Err? && IsRateLimit(backend(req, j).error, markers)
    requires ShapedFrom(backend, req, markers, j + 1, rest)
    ensures ShapedFrom(backend, req, markers, j, Run(rest.result, [Delay(j)] + rest.waits))
  {
    var waits := [Delay(j)] + rest.waits;
    forall k | 1 <= k < |waits| ensures waits[k] == Delay(j + k) {
      assert waits[k] == rest.waits[k - 1];
    }
  }

  /**
   * A whole call: at most four backend calls (at most three waits); wait k is
   * 2^k · 15000 ms; a returned value is what the last call returned, and
   * every call before it failed with a rate-limit error.
   */
  lemma RetryShape<R, T>(backend: (R, nat) -> Outcome<T>, req: R, markers: seq<string>)
    ensures var run := RetryFrom(backend, req, markers, 0);
            && |run.waits| <= MaxRetries
            && (forall k :: 0 <= k < |run.waits| ==> run.waits[k] == Pow2(k) * 15000)
            && run.result == backend(req, |run.waits|)
            && (forall k :: 0 <= k < |run.waits| ==> backend(req, k).Err? && IsRateLimit(backend(req, k).error, markers))
            && (run.result.Err? ==> !IsRateLimit(run.result.error, markers) || |run.waits| == MaxRetries)
  {
    RetryFromShape(backend, req, markers, 0);
  }

  /** An error that is not a rate limit is rethrown at once: one call, no wait. */
  lemma NonRateLimitNoWait<R, T>(backend: (R, nat) -> Outcome<T>, req: R, markers: seq<string>)
    requires backend(req, 0).Err? && !IsRateLimit(backend(req, 0).error, markers)
    ensures RetryFrom(backend, req, markers, 0) == Run(backend(req, 0), [])
  {
  }

  /** A rate-limit error on all four calls is rethrown after waiting 15 s, 30 s and 60 s. */
  lemma PersistentRateLimit<R, T>(backend: (R, nat) -> Outcome<T>, req: R, markers: seq<string>)
    requires forall k :: 0 <= k <= MaxRetries ==> backend(req, k).Err? && IsRateLimit(backend(req, k).error, markers)
    ensures RetryFrom(backend, req, markers, 0) == Run(backend(req, 3), [15000, 30000, 60000])
  {
    assert backend(req, 0).Err? && backend(req, 1).Err? && backend(req, 2).Err? && backend(req, 3).Err?;
    assert Delay(0) == 15000 && Delay(1) == 30000 && Delay(2) == 60000;
  }

  function Sum(xs: seq<nat>): nat
  {
    if xs == [] then 0 else Sum(xs[..|xs| - 1]) + xs[|xs| - 1]
  }

  /** The waits 2^0·d, …, 2^(n-1)·d add up to (2^n − 1)·d. */
  lemma {:induction false} GeometricSum(waits: seq<nat>)
    requires forall k :: 0 <= k < |waits| ==> waits[k] == Pow2(k) * BaseDelay
    ensures Sum(waits) == (Pow2(|waits|) - 1) * BaseDelay
    decreases |waits|
  {
    if waits != [] {
      var n := |waits| - 1;
      GeometricSum(waits[..n]);
      calc {
        Sum(waits);
        Sum(waits[..n]) + waits[n];
        (Pow2(n) - 1) * BaseDelay + Pow2(n) * BaseDelay;
        (2 * Pow2(n) - 1) * BaseDelay;
      }
    }
  }

  /** A call that succeeds after n rate-limited failures has waited 15000·(2^n − 1) ms in total. */
  lemma TotalWait<R, T>(backend: (R, nat) -> Outcome<T>, req: R, markers: seq<string>)
    ensures var run := RetryFrom(backend, req, markers, 0);
            Sum(run.waits) == 15000 * (Pow2(|run.waits|) - 1)
  {
    RetryShape(backend, req, markers);
    GeometricSum(RetryFrom(backend, req, markers, 0).waits);
  }
}
