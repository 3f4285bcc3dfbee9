/**
 * The orchestrator's request counters, the smoothed response time and the one-minute window
 * of request timestamps.
 */
module Metrics {
  import Seqs

  /** The length of the requests-per-minute window, in milliseconds. */
  const WindowMs: int := 60000

  datatype Metrics = Metrics(
    totalRequests: nat,
    successfulRequests: nat,
    failedRequests: nat,
    averageResponseTime: real,
    requestsPerMinute: nat,
    lastMinuteRequests: seq<int>)

  const Initial: Metrics := Metrics(0, 0, 0, 0.0, 0, [])

  /** Every request counted as started has been counted as succeeded or failed. */
  predicate Balanced(m: Metrics) {
    m.successfulRequests + m.failedRequests == m.totalRequests
  }

  /** `updateMetrics('request_started')`: count the request and remember when it started. */
  function RecordStart(m: Metrics, now: int): (r: Metrics)
    ensures r.totalRequests == m.totalRequests + 1
    ensures r.lastMinuteRequests == m.lastMinuteRequests + [now]
    ensures r == m.(totalRequests := r.totalRequests, lastMinuteRequests := r.lastMinuteRequests)
  {
    m.(totalRequests := m.totalRequests + 1, lastMinuteRequests := m.lastMinuteRequests + [now])
  }

  /**
   * `updateAverageResponseTime`: an average of exactly zero is treated as "no sample yet" and
   * replaced; otherwise the new sample gets weight 0.2.
   */
  function UpdateAverage(average: real, sample: real): (r: real)
    ensures average == 0.0 ==> r == sample
    ensures average != 0.0 && average <= sample ==> average <= r <= sample
    ensures average != 0.0 && sample <= average ==> sample <= r <= average
  {
    if average == 0.0 then sample else average * 0.8 + sample * 0.2
  }

  /**
   * The smoothing weights are 0.8 for the old average and 0.2 for the sample: each update
   * moves the average a fifth of the way to the sample, so the sample can be read back.
   */
  lemma UpdateAverageWeights(average: real, sample: real)
    ensures average != 0.0 ==> UpdateAverage(average, sample) - average == (sample - average) / 5.0
    ensures average != 0.0 ==> sample == 5.0 * UpdateAverage(average, sample) - 4.0 * average
  {
  }

  /** `updateMetrics('request_success', t)`. */
  function RecordSuccess(m: Metrics, processingTime: int): (r: Metrics)
    ensures r.successfulRequests == m.successfulRequests + 1
    ensures r.averageResponseTime == UpdateAverage(m.averageResponseTime, processingTime as real)
    ensures r == m.(successfulRequests := r.successfulRequests, averageResponseTime := r.averageResponseTime)
  {
    m.(successfulRequests := m.successfulRequests + 1,
       averageResponseTime := UpdateAverage(m.averageResponseTime, processingTime as real))
  }

  /** `updateMetrics('request_failed', t)`: the failure's duration is not averaged in. */
  function RecordFailure(m: Metrics): (r: Metrics)
    ensures r.failedRequests == m.failedRequests + 1
    ensures r == m.(failedRequests := r.failedRequests)
  {
    m.(failedRequests := m.failedRequests + 1)
  }

  /** Once the average is within `[lo, hi]`, samples from `[lo, hi]` keep it there. */
  lemma AverageStaysInRange(average: real, sample: real, lo: real, hi: real)
    requires lo <= sample <= hi
    requires average == 0.0 || lo <= average <= hi
    ensures lo <= UpdateAverage(average, sample) <= hi
  {
  }

  /** Successive successes with the given processing times, in order. */
  function RecordSuccesses(m: Metrics, times: seq<int>): (r: Metrics)
    ensures r.successfulRequests == m.successfulRequests + |times|
    ensures r == m.(successfulRequests := r.successfulRequests, averageResponseTime := r.averageResponseTime)
    decreases |times|
  {
    if |times| == 0 then m else RecordSuccesses(RecordSuccess(m, times[0]), times[1..])
  }

  /**
   * When every processing time lies in `[lo, hi]` and the average is unset or already there,
   * the smoothed average is in `[lo, hi]` after any non-empty run of successes.
   */
  lemma {:induction false} SuccessesKeepAverageInRange(m: Metrics, times: seq<int>, lo: real, hi: real)
    requires forall k :: 0 <= k < |times| ==> lo <= times[k] as real <= hi
    requires m.averageResponseTime == 0.0 || lo <= m.averageResponseTime <= hi
    ensures |times| > 0 ==> lo <= RecordSuccesses(m, times).averageResponseTime <= hi
    decreases |times|
  {
    if |times| > 0 {
      AverageStaysInRange(m.averageResponseTime, times[0] as real, lo, hi);
      if |times| > 1 {
        SuccessesKeepAverageInRange(RecordSuccess(m, times[0]), times[1..], lo, hi);
      }
    }
  }

  /** Started at `now`: not older than the window. */
  function InWindow(now: int): int -> bool {
    (ts: int) => ts > now - WindowMs
  }

  /** The number of remembered requests that started within the last minute. */
  function CountRecent(window: seq<int>, now: int): (n: nat)
    ensures n <= |window|
  {
    |Seqs.Filter(InWindow(now), window)|
  }

  /** `calculateRequestsPerMinute`. */
  function CalculateRequestsPerMinute(m: Metrics, now: int): (r: Metrics)
    ensures r.requestsPerMinute <= |m.lastMinuteRequests|
    ensures r.requestsPerMinute == CountRecent(m.lastMinuteRequests, now)
    ensures r == m.(requestsPerMinute := r.requestsPerMinute)
  {
    m.(requestsPerMinute := CountRecent(m.lastMinuteRequests, now))
  }

  /** The once-a-minute reset of the window. */
  function ResetWindow(m: Metrics): (r: Metrics)
    ensures forall now :: CountRecent(r.lastMinuteRequests, now) == 0
    ensures r == m.(lastMinuteRequests := r.lastMinuteRequests)
  {
    m.(lastMinuteRequests := [])
  }

  /** A request started now is counted by a recount made at the same instant. */
  lemma StartIsCounted(m: Metrics, now: int)
    ensures CalculateRequestsPerMinute(RecordStart(m, now), now).requestsPerMinute
         == CalculateRequestsPerMinute(m, now).requestsPerMinute + 1
  {
    Seqs.FilterAppend(InWindow(now), m.lastMinuteRequests, [now]);
  }

  /** As the clock advances, requests only ever leave the window. */
  lemma CountRecentMonotone(window: seq<int>, earlier: int, later: int)
    requires earlier <= later
    ensures CountRecent(window, later) <= CountRecent(window, earlier)
  {
    Seqs.FilterStronger(InWindow(later), InWindow(earlier), window);
    Seqs.SubsequenceLength(Seqs.Filter(InWindow(later), window), Seqs.Filter(InWindow(earlier), window));
  }

  /** A minute after the newest remembered request, nothing is counted. */
  lemma WindowEmptiesAfterAMinute(window: seq<int>, now: int)
    requires forall k :: 0 <= k < |window| ==> window[k] <= now - WindowMs
    ensures CountRecent(window, now) == 0
  {
    Seqs.FilterDropsAll(InWindow(now), window);
  }

  /** Recording a start keeps the counters balanced up to the one request in flight. */
  lemma StartThenFinishBalanced(m: Metrics, now: int, processingTime: int, succeeded: bool)
    requires Balanced(m)
    ensures Balanced(if succeeded then RecordSuccess(RecordStart(m, now), processingTime)
                     else RecordFailure(RecordStart(m, now)))
  {
  }
}
