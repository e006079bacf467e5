/**
 Retrying a block with exponential backoff.

 The block is modelled by what its i-th call (0-based) does: `block(i)` is either
 `Success(v)` (the call returned v) or `Failure(e)` (the call threw e). Waiting is
 modelled by recording the amount passed to `delay`.
 */
module Backoff {
  import opened Models

  const UnknownError := "Unknown error"

  /** 2^i, the factor `1L shl i`, as an unbounded integer (no `Long` overflow). */
  function Pow2(i: nat): (p: nat)
    ensures p >= 1
  {
    if i == 0 then 1 else 2 * Pow2(i - 1)
  }

  /** The delays taken after the first n failed tries, in order. */
  function Schedule(baseDelayMs: int, n: nat): (s: seq<int>)
    ensures |s| == n
    ensures forall i :: 0 <= i < n ==> s[i] == baseDelayMs * Pow2(i)
  {
    if n == 0 then [] else Schedule(baseDelayMs, n - 1) + [baseDelayMs * Pow2(n - 1)]
  }

  /** Each delay of a schedule is twice the one before it. */
  lemma ScheduleDoubles(baseDelayMs: int, n: nat, i: nat)
    requires 0 < i < n
    ensures Schedule(baseDelayMs, n)[i] == 2 * Schedule(baseDelayMs, n)[i - 1]
  {
  }

  /** The index of the first successful call among the first n, if any. */
  function FirstSuccess<T>(block: nat -> Result<T>, n: nat): (k: Option<nat>)
    ensures k.Some? ==> k.value < n && block(k.value).Success?
    ensures k.Some? ==> forall j :: 0 <= j < k.value ==> block(j).Failure?
    ensures k.None? <==> forall j :: 0 <= j < n ==> block(j).Failure?
  {
    if n == 0 then None
    else match FirstSuccess(block, n - 1)
      case Some(k) => Some(k)
      case None => if block(n - 1).Success? then Some(n - 1) else None
  }

  /** `repeat(attempts)` runs max(attempts, 0) times. */
  function Budget(attempts: int): (n: nat)
  {
    if attempts > 0 then attempts else 0
  }

  /** Everything an observer sees of one retried run. */
  datatype RetryRun<T> = RetryRun(result: Result<T>, calls: nat, delays: seq<int>)

  /**
   The run of retryWithBackoff, described by where the first success falls:
   success at try k means k+1 calls and the k delays after the failed tries before it;
   no success means every budgeted try ran, a delay after each but the last, and
   the last failure (or "Unknown error" when no try ran) is thrown.
   */
  function Retry<T>(attempts: int, baseDelayMs: int, block: nat -> Result<T>): RetryRun<T>
  {
    var n := Budget(attempts);
    match FirstSuccess(block, n)
    case Some(k) => RetryRun(block(k), k + 1, Schedule(baseDelayMs, k))
    case None =>
      if n == 0 then RetryRun(Failure(IllegalState(UnknownError)), 0, [])
      else RetryRun(block(n - 1), n, Schedule(baseDelayMs, n - 1))
  }

  /** The loop of retryWithBackoff: try, return on success, remember the failure, back off. */
  method RetryWithBackoff<T>(attempts: int, baseDelayMs: int, block: nat -> Result<T>)
    returns (result: Result<T>, calls: nat, delays: seq<int>)
    ensures RetryRun(result, calls, delays) == Retry(attempts, baseDelayMs, block)
  {
    var last: Option<Throwable> := None;
    calls, delays := 0, [];
    var i := 0;
    while i < attempts
      invariant 0 <= i <= Budget(attempts)
      invariant calls == i
      invariant forall j :: 0 <= j < i ==> block(j).Failure?
      invariant delays == Schedule(baseDelayMs, if 0 < i && i == attempts then i - 1 else i)
      invariant last == if i == 0 then None else Some(block(i - 1).error)
    {
      calls := calls + 1;
      var outcome := block(i);
      if outcome.Success? {
        result := outcome;
        return;
      }
      last := Some(outcome.error);
      if i < attempts - 1 {
        delays := delays + [baseDelayMs * Pow2(i)];
      }
      i := i + 1;
    }
    result := Failure(if last.Some? then last.value else IllegalState(UnknownError));
  }

  /** Success at try k (with every earlier try failed) stops the loop there. */
  lemma RetryStopsAtFirstSuccess<T>(attempts: int, baseDelayMs: int, block: nat -> Result<T>, k: nat)
    requires k < attempts
    requires block(k).Success?
    requires forall j :: 0 <= j < k ==> block(j).Failure?
    ensures Retry(attempts, baseDelayMs, block) == RetryRun(block(k), k + 1, Schedule(baseDelayMs, k))
  {
  }

  /** A first try that succeeds means one call and no delay at all. */
  lemma RetryFirstTrySucceeds<T>(attempts: int, baseDelayMs: int, block: nat -> Result<T>)
    requires attempts >= 1
    requires block(0).Success?
    ensures Retry(attempts, baseDelayMs, block) == RetryRun(block(0), 1, [])
  {
  }

  /** When every try fails: `attempts` calls, `attempts - 1` delays, the last failure thrown. */
  lemma RetryAllFail<T>(attempts: int, baseDelayMs: int, block: nat -> Result<T>)
    requires attempts >= 1
    requires forall j :: 0 <= j < attempts ==> block(j).Failure?
    ensures Retry(attempts, baseDelayMs, block).calls == attempts
    ensures Retry(attempts, baseDelayMs, block).delays == Schedule(baseDelayMs, attempts - 1)
    ensures Retry(attempts, baseDelayMs, block).result == Failure(block(attempts - 1).error)
  {
  }

  /** With no budget the block never runs and "Unknown error" is thrown. */
  lemma RetryNoAttempts<T>(attempts: int, baseDelayMs: int, block: nat -> Result<T>)
    requires attempts <= 0
    ensures Retry(attempts, baseDelayMs, block)
         == RetryRun(Failure(IllegalState(UnknownError)), 0, [])
  {
  }

  /**
   Facts about every run: the budget bounds the calls, there is one delay between
   each two consecutive calls and none after the last, the run succeeds exactly when
   some budgeted try succeeds, and what it returns or throws is the last call's outcome.
   */
  lemma RetryShape<T>(attempts: int, baseDelayMs: int, block: nat -> Result<T>)
    ensures Retry(attempts, baseDelayMs, block).calls <= Budget(attempts)
    ensures Retry(attempts, baseDelayMs, block).calls == 0 <==> attempts <= 0
    ensures Retry(attempts, baseDelayMs, block).delays
         == Schedule(baseDelayMs, if attempts <= 0 then 0 else Retry(attempts, baseDelayMs, block).calls - 1)
    ensures Retry(attempts, baseDelayMs, block).result.Success?
        <==> exists k :: 0 <= k < attempts && block(k).Success?
    ensures attempts > 0 ==>
              Retry(attempts, baseDelayMs, block).result == block(Retry(attempts, baseDelayMs, block).calls - 1)
  {
  }
}
