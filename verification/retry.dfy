/**
 * The retrying caller shared by the AI and CV calls. The remote call is replaced by a
 * script of outcomes, one per attempt; attempts beyond the end of the script fail (time out).
 * The caller's fallback is applied by its user: a run without a reply means "use the fallback".
 */
module Retry {
  import opened Wrappers
  import opened Registry

  /** What one attempt at the remote call did: replied after `elapsed` ms, or threw. */
  datatype Outcome<+T> = Ok(value: T, elapsed: nat) | Fail

  /** The backoff unit: the k-th retry waits k times this many milliseconds. */
  const BackoffStepMs: nat := 1000

  /**
   * One call through the retrying caller: the live reply if an attempt succeeded, the
   * descriptor afterwards, the waits made between attempts, and the number of attempts.
   */
  datatype RetryRun<+T> = RetryRun(reply: Option<T>, service: ServiceDescriptor, waits: seq<nat>, attempts: nat)

  function Next<T>(outcomes: seq<Outcome<T>>): Outcome<T> {
    if |outcomes| == 0 then Fail else outcomes[0]
  }

  function Rest<T>(outcomes: seq<Outcome<T>>): seq<Outcome<T>> {
    if |outcomes| == 0 then [] else outcomes[1..]
  }

  /** The script's outcome for attempt `j` (counting from 0). */
  function OutcomeAt<T>(outcomes: seq<Outcome<T>>, j: nat): Outcome<T> {
    if j < |outcomes| then outcomes[j] else Fail
  }

  /** The caller only ever touches `retryCount` and `responseTime`; never the health status. */
  predicate OnlyRetryStateChanged(before: ServiceDescriptor, after: ServiceDescriptor) {
    after == before.(retryCount := after.retryCount, responseTime := after.responseTime)
  }

  /**
   * `callAIServiceWithFallback` / `callCVServiceWithFallback` without the fallback: skip the
   * service unless it is healthy; otherwise attempt, and on failure count the retry, wait
   * 1000·retryCount ms and go again while retryCount <= maxRetries.
   */
  function CallWithRetry<T>(s: ServiceDescriptor, outcomes: seq<Outcome<T>>): (run: RetryRun<T>)
    ensures OnlyRetryStateChanged(s, run.service)
    ensures s.status != Healthy ==> run.attempts == 0 && run.reply.None? && run.service == s && run.waits == []
    ensures s.status == Healthy ==> 1 <= run.attempts && |run.waits| == run.attempts - 1
    ensures run.attempts <= if s.retryCount < s.maxRetries then s.maxRetries - s.retryCount + 1 else 1
    ensures forall k :: 0 <= k < |run.waits| ==> run.waits[k] == BackoffStepMs * (s.retryCount + k + 1)
    ensures forall j :: 0 <= j < run.attempts - 1 ==> OutcomeAt(outcomes, j).Fail?
    ensures run.reply.Some? ==>
      && OutcomeAt(outcomes, run.attempts - 1).Ok?
      && OutcomeAt(outcomes, run.attempts - 1).value == run.reply.value
      && run.service.retryCount == 0
      && run.service.responseTime == Some(OutcomeAt(outcomes, run.attempts - 1).elapsed)
    ensures run.reply.None? && s.status == Healthy ==>
      && OutcomeAt(outcomes, run.attempts - 1).Fail?
      && run.service.retryCount == s.retryCount + run.attempts
      && run.service.retryCount > s.maxRetries
      && run.service.responseTime == s.responseTime
    decreases s.maxRetries - s.retryCount
  {
    if s.status != Healthy then
      RetryRun(None, s, [], 0)
    else
      match Next(outcomes)
      case Ok(v, elapsed) =>
        RetryRun(Some(v), s.(responseTime := Some(elapsed), retryCount := 0), [], 1)
      case Fail =>
        var s1 := s.(retryCount := s.retryCount + 1);
        if s1.retryCount <= s1.maxRetries then
          var rest := CallWithRetry(s1, Rest(outcomes));
          assert forall j :: 1 <= j ==> OutcomeAt(outcomes, j) == OutcomeAt(Rest(outcomes), j - 1);
          RetryRun(rest.reply, rest.service, [BackoffStepMs * s1.retryCount] + rest.waits, rest.attempts + 1)
        else
          RetryRun(None, s1, [], 1)
  }

  /** A healthy service whose first attempt replies returns that reply at once, with a fresh budget. */
  lemma FirstReplyIsUsed<T>(s: ServiceDescriptor, outcomes: seq<Outcome<T>>)
    requires s.status == Healthy && Next(outcomes).Ok?
    ensures var run := CallWithRetry(s, outcomes);
      run.reply == Some(Next(outcomes).value) && run.attempts == 1 && run.waits == [] && run.service.retryCount == 0
  {
  }

  /** Every scripted attempt fails. */
  predicate AllFail<T>(outcomes: seq<Outcome<T>>) {
    forall j :: 0 <= j < |outcomes| ==> outcomes[j].Fail?
  }

  /**
   * A healthy service whose calls keep failing, starting from retry count `c <= maxRetries`,
   * is tried `maxRetries - c + 1` times, waits 1000·k ms before the k-th retry, and is left
   * with `retryCount == maxRetries + 1`; the caller then falls back.
   */
  lemma {:induction false} FailingCallExhaustsBudget<T>(s: ServiceDescriptor, outcomes: seq<Outcome<T>>)
    requires s.status == Healthy && s.retryCount <= s.maxRetries
    requires AllFail(outcomes)
    ensures var run := CallWithRetry(s, outcomes);
      && run.reply.None?
      && run.attempts == s.maxRetries - s.retryCount + 1
      && run.waits == Backoffs(s.retryCount, s.maxRetries)
      && run.service.retryCount == s.maxRetries + 1
  {
    var run := CallWithRetry(s, outcomes);
    var expected := Backoffs(s.retryCount, s.maxRetries);
    assert |run.waits| == |expected|;
    forall k | 0 <= k < |expected|
      ensures run.waits[k] == expected[k]
    {
    }
  }

  /** The waits `[1000·(c+1), ..., 1000·m]` made by a call that starts at retry count `c`. */
  function Backoffs(c: nat, m: nat): (w: seq<nat>)
    ensures |w| == if c < m then m - c else 0
    ensures forall k :: 0 <= k < |w| ==> w[k] == BackoffStepMs * (c + k + 1)
    decreases m - c
  {
    if c < m then [BackoffStepMs * (c + 1)] + Backoffs(c + 1, m) else []
  }

  /**
   * Once the count is past `maxRetries` (a previous call ran out of retries and nothing
   * reset it), the next failing call makes a single attempt and falls back at once,
   * pushing the count one higher.
   */
  lemma ExhaustedCountIsNotReset<T>(s: ServiceDescriptor, outcomes: seq<Outcome<T>>)
    requires s.status == Healthy && s.retryCount > s.maxRetries
    requires Next(outcomes).Fail?
    ensures var run := CallWithRetry(s, outcomes);
      run.reply.None? && run.attempts == 1 && run.waits == [] && run.service.retryCount == s.retryCount + 1
  {
  }

  /** Two failing calls in a row: the second gets a single attempt. */
  lemma SecondFailingCallTriesOnce<T>(s: ServiceDescriptor, first: seq<Outcome<T>>, second: seq<Outcome<T>>)
    requires s.status == Healthy && s.retryCount <= s.maxRetries
    requires AllFail(first) && AllFail(second)
    ensures var run1 := CallWithRetry(s, first);
      var run2 := CallWithRetry(run1.service, second);
      run2.reply.None? && run2.attempts == 1 && run2.service.retryCount == s.maxRetries + 2
  {
    FailingCallExhaustsBudget(s, first);
    var run1 := CallWithRetry(s, first);
    ExhaustedCountIsNotReset(run1.service, second);
  }

  /** A success on the first attempt resets the count, so the full budget is available again. */
  lemma SuccessRestoresBudget<T>(s: ServiceDescriptor, v: T, elapsed: nat, rest: seq<Outcome<T>>)
    requires s.status == Healthy
    ensures var run := CallWithRetry(s, [Ok(v, elapsed)] + rest);
      run.reply == Some(v) && run.attempts == 1 && run.service.retryCount == 0
      && run.service.responseTime == Some(elapsed)
  {
  }

  function Sum(w: seq<nat>): nat
    decreases |w|
  {
    if |w| == 0 then 0 else w[0] + Sum(w[1..])
  }

  /** 1 + 2 + ... + n. */
  function Triangle(n: nat): nat
    decreases n
  {
    if n == 0 then 0 else n + Triangle(n - 1)
  }

  lemma {:induction false} TriangleMonotone(a: nat, b: nat)
    requires a <= b
    ensures Triangle(a) <= Triangle(b)
    decreases b - a
  {
    if a < b {
      TriangleMonotone(a, b - 1);
    }
  }

  /** Waits of 1000·(c+1), 1000·(c+2), ... add up to 1000·(Triangle(c + n) - Triangle(c)). */
  lemma {:induction false} BackoffSum(w: seq<nat>, c: nat)
    requires forall k :: 0 <= k < |w| ==> w[k] == BackoffStepMs * (c + k + 1)
    ensures Sum(w) == BackoffStepMs * (Triangle(c + |w|) - Triangle(c))
    decreases |w|
  {
    if |w| > 0 {
      BackoffSum(w[1..], c + 1);
      TriangleMonotone(c + 1, c + |w|);
      assert Triangle(c + 1) == c + 1 + Triangle(c);
    }
  }

  /**
   * Whatever the service's state and the script, one call spends at most
   * 1000·(1 + 2 + ... + maxRetries) ms in backoff and makes at most maxRetries + 1 attempts.
   */
  lemma WaitingIsBounded<T>(s: ServiceDescriptor, outcomes: seq<Outcome<T>>)
    ensures var run := CallWithRetry(s, outcomes);
      Sum(run.waits) <= BackoffStepMs * Triangle(s.maxRetries) && run.attempts <= s.maxRetries + 1
  {
    var run := CallWithRetry(s, outcomes);
    if |run.waits| > 0 {
      BackoffSum(run.waits, s.retryCount);
      TriangleMonotone(s.retryCount + |run.waits|, s.maxRetries);
    }
  }
}
