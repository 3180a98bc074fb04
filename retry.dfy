/** `RetryUtils.executeWithRetry` (common/util/RetryUtils.java): run an
    operation again after an optimistic-locking failure, waiting longer each
    time.  The operation is given as the outcome of its n-th invocation,
    and whether the sleep before retry n is interrupted as a predicate;
    logging is left out. */
module Retry {
  import opened Wrappers
  import opened Text

  const DefaultMaxRetry := 3
  const InterruptedMessage := "재시도 중 인터럽트 발생"
  const UnexpectedMessage := "예상치 못한 오류"
  /** What `Thread.sleep` throws, as an `IllegalArgumentException`, for a
      negative wait. */
  const NegativeTimeoutMessage := "timeout value is negative"

  function Pow2(n: nat): (r: nat)
    ensures r >= 1
  {
    if n == 0 then 1 else 2 * Pow2(n - 1)
  }

  /** `50 * (1 << attempts)` in Java's `int`: the shift uses the low five
      bits of the distance and both operations wrap. */
  function BackoffMillis(attempts: nat): int
  {
    IntValue(50 * IntValue(Pow2(attempts % 32)))
  }

  /** Up to 25 retries the wait is exactly 50 * 2^k ms, doubling each time. */
  lemma BackoffDoubles(k: nat)
    requires k <= 25
    ensures BackoffMillis(k) == 50 * Pow2(k)
    ensures 1 <= k ==> BackoffMillis(k) == 2 * BackoffMillis(k - 1)
  {
    ExactBackoff(k);
    if k >= 1 {
      ExactBackoff(k - 1);
    }
  }

  lemma ExactBackoff(k: nat)
    requires k <= 25
    ensures BackoffMillis(k) == 50 * Pow2(k)
  {
    BackoffShift(k);
    Pow2Bound(k);
    var p := Pow2(k);
    assert IntValue(p) == p;
    assert IntValue(50 * p) == 50 * p;
  }

  /** Below 32 the shift distance is used as it is. */
  lemma BackoffShift(k: nat)
    requires k < 32
    ensures BackoffMillis(k) == IntValue(50 * IntValue(Pow2(k)))
  {
    assert k % 32 == k;
  }

  lemma Pow2Bound(k: nat)
    requires k <= 25
    ensures Pow2(k) <= 33554432
  {
    Pow2Monotone(k, 25);
    Pow2Value25();
  }

  lemma {:induction false} Pow2Monotone(a: nat, b: nat)
    requires a <= b
    ensures Pow2(a) <= Pow2(b)
    decreases b
  {
    if a < b {
      Pow2Monotone(a, b - 1);
    }
  }

  lemma Pow2Value25()
    ensures Pow2(25) == 33554432
  {
    assert Pow2(5) == 32;
    assert Pow2(10) == 1024;
    assert Pow2(15) == 32768;
    assert Pow2(20) == 1048576;
  }

  /** The 26th retry's wait wraps below zero: 50 * 2^26 does not fit in
      an `int`. */
  lemma BackoffNegativeAt26()
    ensures BackoffMillis(26) == -939524096
  {
    Pow2Value25();
    assert Pow2(26) == 67108864;
    BackoffShift(26);
  }

  /** The wait the authors evidently meant: 50 * 2^k ms, never wrapped. */
  function IntendedBackoff(attempts: nat): (r: int)
    ensures r >= 50
  {
    50 * Pow2(attempts)
  }

  /** What one call of `executeWithRetry` does: its result, how many times it
      invoked the operation and the waits it slept, in order. */
  datatype RetryRun<T> = RetryRun(result: Result<T>, invocations: nat, sleeps: seq<int>)

  /** The loop from `attempts` failed tries on, sleeping `wait(k)` before
      retry `k`: a success or any other exception ends the run at once; an
      optimistic-locking failure counts a try, is rethrown once `maxRetry`
      tries failed, and otherwise is followed by the wait. A negative wait
      makes `Thread.sleep` throw, which nothing catches; an interrupted
      wait ends the run. */
  function RetryLoop<T>(operation: nat -> Result<T>, interrupted: nat -> bool, maxRetry: int,
                        wait: nat -> int, attempts: nat): RetryRun<T>
    decreases if attempts < maxRetry then maxRetry - attempts else 0
  {
    if attempts >= maxRetry then RetryRun(Fail(Runtime(UnexpectedMessage)), attempts, [])
    else match operation(attempts)
      case Ok(v) => RetryRun(Ok(v), attempts + 1, [])
      case Fail(e) =>
        if e != OptimisticLockingFailure then RetryRun(Fail(e), attempts + 1, [])
        else if attempts + 1 >= maxRetry then RetryRun(Fail(e), attempts + 1, [])
        else if wait(attempts + 1) < 0 then
          RetryRun(Fail(IllegalArgument(NegativeTimeoutMessage)), attempts + 1, [])
        else if interrupted(attempts + 1) then
          RetryRun(Fail(Runtime(InterruptedMessage)), attempts + 1, [wait(attempts + 1)])
        else
          var rest := RetryLoop(operation, interrupted, maxRetry, wait, attempts + 1);
          RetryRun(rest.result, rest.invocations, [wait(attempts + 1)] + rest.sleeps)
  }

  /** The reference behaviour of the code as written, with the waits of
      `50 * (1 << attempts)` in `int`. */
  function RetrySpec<T>(operation: nat -> Result<T>, interrupted: nat -> bool, maxRetry: int, attempts: nat)
    : RetryRun<T>
  {
    RetryLoop(operation, interrupted, maxRetry, BackoffMillis, attempts)
  }

  /** The behaviour with the intended, never negative waits. */
  function IntendedRetrySpec<T>(operation: nat -> Result<T>, interrupted: nat -> bool, maxRetry: int, attempts: nat)
    : RetryRun<T>
  {
    RetryLoop(operation, interrupted, maxRetry, IntendedBackoff, attempts)
  }

  /** `executeWithRetry(operation, maxRetry, prefix)`. */
  method ExecuteWithRetry<T>(operation: nat -> Result<T>, interrupted: nat -> bool, maxRetry: int)
    returns (r: Result<T>, invocations: nat, sleeps: seq<int>)
    ensures RetryRun(r, invocations, sleeps) == RetrySpec(operation, interrupted, maxRetry, 0)
  {
    var attempts: nat := 0;
    sleeps := [];
    while attempts < maxRetry
      invariant var rest := RetrySpec(operation, interrupted, maxRetry, attempts);
        RetrySpec(operation, interrupted, maxRetry, 0) == RetryRun(rest.result, rest.invocations, sleeps + rest.sleeps)
      decreases maxRetry - attempts
    {
      var outcome := operation(attempts);
      if outcome.Ok? {
        return outcome, attempts + 1, sleeps;
      }
      if outcome.error != OptimisticLockingFailure {
        return outcome, attempts + 1, sleeps;
      }
      attempts := attempts + 1;
      if attempts >= maxRetry {
        return outcome, attempts, sleeps;
      }
      var millis := BackoffMillis(attempts);
      if millis < 0 {
        return Fail(IllegalArgument(NegativeTimeoutMessage)), attempts, sleeps;
      }
      sleeps := sleeps + [millis];
      if interrupted(attempts) {
        return Fail(Runtime(InterruptedMessage)), attempts, sleeps;
      }
    }
    return Fail(Runtime(UnexpectedMessage)), attempts, sleeps;
  }

  /** `executeWithRetry(operation, prefix)`: three tries. */
  method ExecuteWithDefaultRetry<T>(operation: nat -> Result<T>, interrupted: nat -> bool)
    returns (r: Result<T>, invocations: nat, sleeps: seq<int>)
    ensures RetryRun(r, invocations, sleeps) == RetrySpec(operation, interrupted, DefaultMaxRetry, 0)
  {
    r, invocations, sleeps := ExecuteWithRetry(operation, interrupted, DefaultMaxRetry);
  }

  /** Only optimistic-locking failures before try `k`. */
  predicate LockFailuresBefore<T>(operation: nat -> Result<T>, k: nat)
  {
    forall i :: 0 <= i < k ==> operation(i) == Fail(OptimisticLockingFailure)
  }

  /** No sleep up to retry `k` is interrupted. */
  predicate Uninterrupted(interrupted: nat -> bool, k: nat)
  {
    forall i :: 1 <= i <= k ==> !interrupted(i)
  }

  /** The waits before retries `from` .. `to - 1` are all allowed. */
  predicate NonNegativeWaits(wait: nat -> int, from: nat, to: nat)
  {
    forall i :: from <= i < to ==> wait(i) >= 0
  }

  /** The waits before retries `from` .. `to - 1`. */
  function Waits(wait: nat -> int, from: nat, to: nat): (r: seq<int>)
    ensures |r| == if from <= to then to - from else 0
    decreases if from <= to then to - from else 0
  {
    if from >= to then [] else [wait(from)] + Waits(wait, from + 1, to)
  }

  /** The `i`-th wait listed is the wait before retry `from + i`. */
  lemma {:induction false} WaitsIndex(wait: nat -> int, from: nat, to: nat, i: nat)
    requires from + i < to
    ensures Waits(wait, from, to)[i] == wait(from + i)
    decreases i
  {
    if i > 0 {
      WaitsIndex(wait, from + 1, to, i - 1);
    }
  }

  /** Up to the 25th retry the code's waits are 50 * 2^k and allowed. */
  lemma BackoffAllowedBelow26(to: nat)
    requires to <= 26
    ensures NonNegativeWaits(BackoffMillis, 0, to)
  {
    forall i | 0 <= i < to ensures BackoffMillis(i) >= 0 {
      ExactBackoff(i);
    }
  }

  /** The first success within the allowed tries is returned unchanged,
      after one wait per failed try. */
  lemma {:induction false} FirstSuccessReturned<T>(operation: nat -> Result<T>, interrupted: nat -> bool,
                                                   maxRetry: int, wait: nat -> int, k: nat, attempts: nat)
    requires attempts <= k < maxRetry
    requires LockFailuresBefore(operation, k) && operation(k).Ok? && Uninterrupted(interrupted, k)
    requires NonNegativeWaits(wait, attempts + 1, k + 1)
    ensures RetryLoop(operation, interrupted, maxRetry, wait, attempts)
      == RetryRun(operation(k), k + 1, Waits(wait, attempts + 1, k + 1))
    decreases k - attempts
  {
    if attempts < k {
      FirstSuccessReturned(operation, interrupted, maxRetry, wait, k, attempts + 1);
    }
  }

  /** After `maxRetry` optimistic-locking failures in a row, with every wait
      allowed, the last one is rethrown, the operation having run exactly
      `maxRetry` times. */
  lemma {:induction false} GivesUpAfterMaxRetry<T>(operation: nat -> Result<T>, interrupted: nat -> bool,
                                                   maxRetry: nat, wait: nat -> int, attempts: nat)
    requires attempts < maxRetry
    requires LockFailuresBefore(operation, maxRetry) && Uninterrupted(interrupted, maxRetry)
    requires NonNegativeWaits(wait, attempts + 1, maxRetry)
    ensures RetryLoop(operation, interrupted, maxRetry, wait, attempts)
      == RetryRun(Fail(OptimisticLockingFailure), maxRetry, Waits(wait, attempts + 1, maxRetry))
    decreases maxRetry - attempts
  {
    if attempts + 1 < maxRetry {
      GivesUpAfterMaxRetry(operation, interrupted, maxRetry, wait, attempts + 1);
    }
  }

  /** The first negative wait ends the run with `Thread.sleep`'s exception,
      right after the failed try before it. */
  lemma {:induction false} NegativeWaitThrows<T>(operation: nat -> Result<T>, interrupted: nat -> bool,
                                                 maxRetry: int, wait: nat -> int, k: nat, attempts: nat)
    requires attempts <= k && k + 1 < maxRetry
    requires LockFailuresBefore(operation, k + 1) && Uninterrupted(interrupted, k)
    requires NonNegativeWaits(wait, attempts + 1, k + 1) && wait(k + 1) < 0
    ensures RetryLoop(operation, interrupted, maxRetry, wait, attempts)
      == RetryRun(Fail(IllegalArgument(NegativeTimeoutMessage)), k + 1, Waits(wait, attempts + 1, k + 1))
    decreases k - attempts
  {
    if attempts < k {
      NegativeWaitThrows(operation, interrupted, maxRetry, wait, k, attempts + 1);
    }
  }

  /** As written: up to 26 tries, lock failures on every try end with the
      failure rethrown after exactly `maxRetry` calls. */
  lemma GivesUpWithin26<T>(operation: nat -> Result<T>, interrupted: nat -> bool, maxRetry: nat)
    requires 1 <= maxRetry <= 26
    requires LockFailuresBefore(operation, maxRetry) && Uninterrupted(interrupted, maxRetry)
    ensures RetrySpec(operation, interrupted, maxRetry, 0)
      == RetryRun(Fail(OptimisticLockingFailure), maxRetry, Waits(BackoffMillis, 1, maxRetry))
  {
    BackoffAllowedBelow26(maxRetry);
    GivesUpAfterMaxRetry(operation, interrupted, maxRetry, BackoffMillis, 0);
  }

  /** `NegativeWaitThrows` with the waits slept listed one by one. */
  lemma NegativeWaitThrowsListed<T>(operation: nat -> Result<T>, interrupted: nat -> bool,
                                    maxRetry: int, wait: nat -> int, k: nat)
    requires k + 1 < maxRetry
    requires LockFailuresBefore(operation, k + 1) && Uninterrupted(interrupted, k)
    requires NonNegativeWaits(wait, 1, k + 1) && wait(k + 1) < 0
    ensures var run := RetryLoop(operation, interrupted, maxRetry, wait, 0);
      run.result == Fail(IllegalArgument(NegativeTimeoutMessage)) && run.invocations == k + 1
      && |run.sleeps| == k && forall i :: 0 <= i < k ==> run.sleeps[i] == wait(i + 1)
  {
    NegativeWaitThrows(operation, interrupted, maxRetry, wait, k, 0);
    var sleeps := Waits(wait, 1, k + 1);
    forall i | 0 <= i < k
      ensures sleeps[i] == wait(i + 1)
    {
      WaitsIndex(wait, 1, k + 1, i);
    }
  }

  /** As written, with 27 or more allowed tries, 26 lock failures in a row
      end with `IllegalArgumentException` after 26 calls: the 25 waits of
      50 * 2^k ms before retries 1 .. 25 are slept, and the 26th wait is
      negative. */
  lemma ThrowsAtTry26<T>(operation: nat -> Result<T>, interrupted: nat -> bool, maxRetry: int)
    requires maxRetry >= 27
    requires LockFailuresBefore(operation, 26) && Uninterrupted(interrupted, 25)
    ensures var run := RetrySpec(operation, interrupted, maxRetry, 0);
      run.result == Fail(IllegalArgument(NegativeTimeoutMessage)) && run.invocations == 26
      && |run.sleeps| == 25 && forall i :: 0 <= i < 25 ==> run.sleeps[i] == 50 * Pow2(i + 1)
  {
    BackoffAllowedBelow26(26);
    BackoffNegativeAt26();
    NegativeWaitThrowsListed(operation, interrupted, maxRetry, BackoffMillis, 25);
    forall j | 1 <= j <= 25
      ensures BackoffMillis(j) == 50 * Pow2(j)
    {
      ExactBackoff(j);
    }
  }

  /** With the intended waits, lock failures on every try end with the
      failure rethrown after exactly `maxRetry` calls, whatever `maxRetry`. */
  lemma IntendedGivesUp<T>(operation: nat -> Result<T>, interrupted: nat -> bool, maxRetry: nat)
    requires 1 <= maxRetry
    requires LockFailuresBefore(operation, maxRetry) && Uninterrupted(interrupted, maxRetry)
    ensures IntendedRetrySpec(operation, interrupted, maxRetry, 0)
      == RetryRun(Fail(OptimisticLockingFailure), maxRetry, Waits(IntendedBackoff, 1, maxRetry))
  {
    GivesUpAfterMaxRetry(operation, interrupted, maxRetry, IntendedBackoff, 0);
  }

  /** Any other exception ends the run on its first occurrence, and a
      non-positive `maxRetry` throws without running the operation. */
  lemma OtherFailuresAndNoTries<T>(operation: nat -> Result<T>, interrupted: nat -> bool, maxRetry: int)
    ensures maxRetry <= 0
      ==> RetrySpec(operation, interrupted, maxRetry, 0) == RetryRun(Fail(Runtime(UnexpectedMessage)), 0, [])
    ensures maxRetry > 0 && operation(0).Fail? && operation(0).error != OptimisticLockingFailure
      ==> RetrySpec(operation, interrupted, maxRetry, 0) == RetryRun(operation(0), 1, [])
  {
  }

  /** The "unexpected" exception (when the operation itself never throws
      it) comes only from a run that allowed no try. */
  lemma {:induction false} UnexpectedOnlyWithoutTries<T>(operation: nat -> Result<T>, interrupted: nat -> bool,
                                                          maxRetry: int, wait: nat -> int, attempts: nat)
    requires forall i :: operation(i) != Fail(Runtime(UnexpectedMessage))
    ensures RetryLoop(operation, interrupted, maxRetry, wait, attempts).result == Fail(Runtime(UnexpectedMessage))
      ==> attempts >= maxRetry
    decreases if attempts < maxRetry then maxRetry - attempts else 0
  {
    if attempts < maxRetry && operation(attempts) == Fail(OptimisticLockingFailure)
      && attempts + 1 < maxRetry && wait(attempts + 1) >= 0 && !interrupted(attempts + 1)
    {
      UnexpectedOnlyWithoutTries(operation, interrupted, maxRetry, wait, attempts + 1);
    }
  }

  /** The waits slept are `wait(attempts + 1)`, `wait(attempts + 2)`, ... in
      order, none of them negative, never more of them than calls, and the
      operation never runs more than `maxRetry` times. */
  lemma {:induction false} InvocationsBounded<T>(operation: nat -> Result<T>, interrupted: nat -> bool,
                                                 maxRetry: int, wait: nat -> int, attempts: nat)
    requires attempts <= maxRetry
    ensures var run := RetryLoop(operation, interrupted, maxRetry, wait, attempts);
      run.sleeps == Waits(wait, attempts + 1, attempts + 1 + |run.sleeps|)
      && NonNegativeWaits(wait, attempts + 1, attempts + 1 + |run.sleeps|)
      && attempts + |run.sleeps| <= run.invocations <= maxRetry
    decreases maxRetry - attempts
  {
    if attempts < maxRetry && operation(attempts) == Fail(OptimisticLockingFailure)
      && attempts + 1 < maxRetry && wait(attempts + 1) >= 0 && !interrupted(attempts + 1)
    {
      InvocationsBounded(operation, interrupted, maxRetry, wait, attempts + 1);
    }
  }
}
