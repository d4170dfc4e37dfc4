/** A step's retry loop and its backoff: flow/retry.go, over 64-bit durations. */
module FlowRetry {
  import opened Prelude
  import opened FlowWalk

  const MAX_INT64 := 0x7fff_ffff_ffff_ffff

  predicate Int64(x: int) {
    -MAX_INT64 - 1 <= x <= MAX_INT64
  }

  /** Go's wrap-around of a product or sum of 64-bit integers. */
  function Wrap(x: int): (r: int)
    ensures Int64(r) && (Int64(x) ==> r == x)
  {
    (x + MAX_INT64 + 1) % (2 * MAX_INT64 + 2) - MAX_INT64 - 1
  }

  datatype RetryPolicy = RetryPolicy(maxAttempts: int, baseDelay: int, maxDelay: int,
                                     retryable: Option<StepError -> bool>, jitter: Option<int -> int>)

  predicate ValidPolicy(p: RetryPolicy) {
    p.maxAttempts >= 1 && p.maxDelay > 0 && p.baseDelay >= 0
  }

  predicate Representable(p: RetryPolicy) {
    Int64(p.maxAttempts) && Int64(p.baseDelay) && Int64(p.maxDelay)
  }

  function Pow2(n: nat): (r: nat)
    ensures r > 0
  {
    if n == 0 then 1 else 2 * Pow2(n - 1)
  }

  function Min(a: int, b: int): (r: int) {
    if a <= b then a else b
  }

  /** The delay the policy asks for: exponential from the base, capped. */
  function Backoff(p: RetryPolicy, attempt: nat): (r: int)
    requires attempt >= 1
  {
    Min(p.maxDelay, p.baseDelay * Pow2(attempt - 1))
  }

  lemma DoubleStep(base: int, n: nat)
    ensures base * Pow2(n + 1) == 2 * (base * Pow2(n))
  {
  }

  lemma {:induction false} Pow2Grows(m: nat, n: nat)
    requires m <= n
    ensures Pow2(m) <= Pow2(n)
  {
    if m < n {
      Pow2Grows(m, n - 1);
    }
  }

  lemma ProductGrows(base: int, x: int, y: int)
    requires base >= 0 && x <= y
    ensures base * x <= base * y
  {
  }

  /** The first wait is the base delay, and each wait doubles the one before, up to the cap. */
  lemma BackoffDoubles(p: RetryPolicy, attempt: nat)
    requires ValidPolicy(p) && attempt >= 1
    ensures Backoff(p, 1) == if p.baseDelay <= p.maxDelay then p.baseDelay else p.maxDelay
    ensures Backoff(p, attempt + 1)
            == if 2 * Backoff(p, attempt) <= p.maxDelay then 2 * Backoff(p, attempt) else p.maxDelay
  {
    DoubleStep(p.baseDelay, attempt - 1);
    assert Pow2(0) == 1;
    ProductGrows(p.baseDelay, 0, Pow2(attempt - 1));
  }

  /** A later attempt never waits less, and no attempt waits longer than the cap or less than nothing. */
  lemma BackoffMonotone(p: RetryPolicy, early: nat, late: nat)
    requires ValidPolicy(p) && 1 <= early <= late
    ensures 0 <= Backoff(p, early) <= Backoff(p, late) <= p.maxDelay
  {
    Pow2Grows(early - 1, late - 1);
    ProductGrows(p.baseDelay, Pow2(early - 1), Pow2(late - 1));
    ProductGrows(p.baseDelay, 0, Pow2(early - 1));
  }

  /** NextDelay: the guard before each doubling keeps a valid policy inside 64 bits, so the wrapping
      multiply never wraps and the result is the exact capped exponential. */
  method NextDelay(p: RetryPolicy, attempt: int) returns (delay: int)
    requires Representable(p)
    ensures ValidPolicy(p) && attempt >= 1 && p.jitter.None? ==> delay == Backoff(p, attempt)
    ensures ValidPolicy(p) && attempt >= 1 && p.jitter.Some? ==> delay == p.jitter.value(Backoff(p, attempt))
  {
    delay := p.baseDelay;
    var i := 1;
    while i < attempt
      invariant 1 <= i && (attempt >= 1 ==> i <= attempt) && Int64(delay)
      invariant ValidPolicy(p) ==> 0 <= delay == p.baseDelay * Pow2(i - 1)
      decreases attempt - i
    {
      if delay > p.maxDelay / 2 {
        if ValidPolicy(p) {
          DoubleStep(p.baseDelay, i - 1);
          Pow2Grows(i, attempt - 1);
          ProductGrows(p.baseDelay, Pow2(i), Pow2(attempt - 1));
          assert p.maxDelay <= p.baseDelay * Pow2(attempt - 1);
        }
        delay := p.maxDelay;
        break;
      }
      assert ValidPolicy(p) ==> Int64(delay * 2);
      DoubleStep(p.baseDelay, i - 1);
      delay := Wrap(delay * 2);
      i := i + 1;
    }
    if delay > p.maxDelay {
      delay := p.maxDelay;
    }
    if p.jitter.Some? {
      delay := p.jitter.value(delay);
    }
  }

  /** Firing once, the n-th time, and the context's error after the n-th sleep. */
  datatype Attempts = Attempts(fire: nat -> FireResult, cancelled: nat -> Option<Err>)

  /** A policy without a predicate retries any error. */
  predicate MayRetry(p: Option<RetryPolicy>, e: StepError) {
    p.Some? && p.value.retryable.Some? ==> p.value.retryable.value(e)
  }

  /** fireWithRetry: stops at the first attempt that must not be retried, or at a cancelled sleep. A nil
      policy fires once. slept lists the delays it waited. */
  method FireWithRetry(p: Option<RetryPolicy>, a: Attempts) returns (r: FireResult, fired: nat, slept: seq<int>)
    requires p.Some? ==> Representable(p.value)
    ensures 1 <= fired && fired <= if p.None? || p.value.maxAttempts < 1 then 1 else p.value.maxAttempts
    // Every attempt before the last failed with a retryable error, and the sleep after it was not cancelled.
    ensures forall n :: 1 <= n < fired ==> && a.fire(n).err.Some? && a.cancelled(n).None?
                                           && MayRetry(p, a.fire(n).err.value)
    ensures var last := a.fire(fired);
      if p.Some? && last.err.Some? && fired < p.value.maxAttempts && MayRetry(p, last.err.value)
      then && a.cancelled(fired).Some? && r == last.(err := Some(StepError(a.cancelled(fired).value, None)))
           && |slept| == fired
      else r == last && |slept| == fired - 1
    ensures p.Some? && ValidPolicy(p.value) ==> forall i :: 0 <= i < |slept| ==>
      slept[i] == if p.value.jitter.None? then Backoff(p.value, i + 1)
                  else p.value.jitter.value(Backoff(p.value, i + 1))
  {
    slept, fired := [], 1;
    if p.None? {
      return a.fire(1), 1, [];
    }
    var policy := p.value;
    while true
      invariant 1 <= fired && fired <= (if policy.maxAttempts < 1 then 1 else policy.maxAttempts)
      invariant |slept| == fired - 1
      invariant forall n :: 1 <= n < fired ==> && a.fire(n).err.Some? && a.cancelled(n).None?
                                               && MayRetry(p, a.fire(n).err.value)
      invariant ValidPolicy(policy) ==> forall i :: 0 <= i < |slept| ==>
        slept[i] == if policy.jitter.None? then Backoff(policy, i + 1) else policy.jitter.value(Backoff(policy, i + 1))
      decreases policy.maxAttempts - fired
    {
      r := a.fire(fired);
      if r.err.None? {
        return;
      }
      if fired >= policy.maxAttempts {
        return;
      }
      if policy.retryable.Some? && !policy.retryable.value(r.err.value) {
        return;
      }
      var delay := NextDelay(policy, fired);
      slept := slept + [delay];
      var gone := a.cancelled(fired);
      if gone.Some? {
        r := r.(err := Some(StepError(gone.value, None)));
        return;
      }
      fired := fired + 1;
    }
  }
}
