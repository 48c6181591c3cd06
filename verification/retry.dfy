/**
 * `MoleculeService.retry`: run an operation up to `retries` times, return the first
 * success, rethrow the error of the last attempt. The one-second pause between
 * attempts is not modelled. The operation is an oracle: `op(i)` is how attempt `i`
 * (counting from 0) settles.
 */
module RetryPolicy {
  import opened Wrappers
  import opened MoleculeErrors

  const MaxRetries: nat := 3

  /** How a call to `retry` settles, and how many times it invoked the operation. */
  datatype RetryResult<T> = RetryResult(result: Result<T, Error>, calls: nat)

  /** Attempts `i`, `i + 1`, ... up to `retries - 1`, stopping at the first success. */
  function RetryFrom<T>(op: nat -> Result<T, Error>, i: nat, retries: nat): (r: RetryResult<T>)
    requires i < retries
    ensures i < r.calls <= retries
    decreases retries - i
  {
    if op(i).Success? || i == retries - 1 then RetryResult(op(i), i + 1)
    else RetryFrom(op, i + 1, retries)
  }

  /** The whole `retry`: with no attempts allowed it throws 'Max retries reached'. */
  function RetrySpec<T>(op: nat -> Result<T, Error>, retries: nat): (r: RetryResult<T>)
    ensures r.calls <= retries
    ensures retries > 0 ==> r.calls > 0
  {
    if retries == 0 then RetryResult(Failure(MaxRetriesReached), 0) else RetryFrom(op, 0, retries)
  }

  /** The `for` loop of the source, invoking the operation once per iteration. */
  method Retry<T>(op: nat -> Result<T, Error>, retries: nat) returns (r: Result<T, Error>, calls: nat)
    ensures RetryResult(r, calls) == RetrySpec(op, retries)
    ensures calls <= retries
  {
    calls := 0;
    var i: nat := 0;
    while i < retries
      invariant i <= retries
      invariant retries > 0 ==> i < retries
      invariant calls == i
      invariant i < retries ==> RetrySpec(op, retries) == RetryFrom(op, i, retries)
    {
      var attempt := op(i);
      calls := calls + 1;
      if attempt.Success? {
        return attempt, calls;
      }
      if i == retries - 1 {
        return attempt, calls;
      }
      i := i + 1;
    }
    return Failure(MaxRetriesReached), calls;
  }

  /** Attempts before `k` all failed. */
  ghost predicate FailedBefore<T>(op: nat -> Result<T, Error>, k: nat)
  {
    forall j: nat :: j < k ==> op(j).Failure?
  }

  /**
   * What `RetryFrom` promises: between 1 and `retries - i` further calls, every attempt but
   * the last one failed, and the result is exactly the last attempt's outcome; a failure
   * means every attempt up to `retries - 1` was made.
   */
  lemma {:induction false} RetryFromFacts<T>(op: nat -> Result<T, Error>, i: nat, retries: nat)
    requires i < retries
    requires FailedBefore(op, i)
    ensures var rr := RetryFrom(op, i, retries);
      i < rr.calls <= retries && rr.result == op(rr.calls - 1) && FailedBefore(op, rr.calls - 1)
      && (rr.result.Failure? ==> rr.calls == retries)
    decreases retries - i
  {
    if !(op(i).Success? || i == retries - 1) {
      RetryFromFacts(op, i + 1, retries);
    }
  }

  /**
   * The contract of `retry`: when attempt `k < retries` is the first to succeed, its result
   * is returned after exactly `k + 1` calls; when every allowed attempt fails, the error of
   * the last one is rethrown after `retries` calls; the operation is never invoked more than
   * `retries` times.
   */
  lemma RetryContract<T>(op: nat -> Result<T, Error>, retries: nat)
    ensures RetrySpec(op, retries).calls <= retries
    ensures forall k: nat :: k < retries && op(k).Success? && FailedBefore(op, k) ==>
      RetrySpec(op, retries) == RetryResult(op(k), k + 1)
    ensures retries > 0 && FailedBefore(op, retries) ==>
      RetrySpec(op, retries) == RetryResult(op(retries - 1), retries)
    ensures retries == 0 ==> RetrySpec(op, retries) == RetryResult(Failure(MaxRetriesReached), 0)
  {
    if retries > 0 {
      RetryFromFacts(op, 0, retries);
      var rr := RetrySpec(op, retries);
      forall k: nat | k < retries && op(k).Success? && FailedBefore(op, k)
        ensures rr == RetryResult(op(k), k + 1)
      {
        assert rr.calls - 1 == k;
      }
    }
  }

  /** A lookup that fails twice and then succeeds returns the third attempt's result. */
  lemma FailTwiceThenSucceed<T>(op: nat -> Result<T, Error>)
    requires op(0).Failure? && op(1).Failure? && op(2).Success?
    ensures RetrySpec(op, MaxRetries) == RetryResult(op(2), 3)
  {
  }
}
