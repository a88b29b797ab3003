/** The request counters that every call and every worker updates. */
module Metrics {

  const MAX_SAMPLES := 1024
  const WINDOW_MS := 60000

  /** How a worker leaves `handle_request`; a dropped request is not counted by the metrics. */
  datatype Outcome = Succeeded | TimedOut | Failed | Dropped

  /** The request counters of `MetricsCollector`. */
  datatype Counters = Counters(total: nat, success: nat, failed: nat, timeouts: nat, queueRejects: nat)

  function AcceptCounted(m: Counters): Counters { m.(total := m.total + 1) }

  function RejectCounted(m: Counters): Counters { m.(queueRejects := m.queueRejects + 1, failed := m.failed + 1) }

  function Recorded(m: Counters, outcome: Outcome): Counters {
    match outcome
    case Succeeded => m.(success := m.success + 1)
    case TimedOut => m.(timeouts := m.timeouts + 1, failed := m.failed + 1)
    case Failed => m.(failed := m.failed + 1)
    case Dropped => m
  }

  // ----- Samples and times -----

  /** The last samples, with a new one; negative values are no samples. */
  function Sampled(values: seq<int>, value: int): seq<int> {
    if value < 0 then values
    else
      var all := values + [value];
      if |all| > MAX_SAMPLES then all[|all| - MAX_SAMPLES..] else all
  }

  /** The samples are the latest ones: a suffix, and the whole until there are 1024. */
  lemma SampledExactly(values: seq<int>, value: int)
    ensures var kept := Sampled(values, value);
      if value < 0 then kept == values
      else
        && |kept| == (if |values| + 1 <= 1024 then |values| + 1 else 1024)
        && kept == (values + [value])[|values| + 1 - |kept|..]
  {
  }

  /** Old times leave at the front. */
  function Trimmed(times: seq<int>, now: int): seq<int> {
    if times != [] && now - times[0] > WINDOW_MS then Trimmed(times[1..], now) else times
  }

  /** The times within the window. */
  function Recent(times: seq<int>, now: int): seq<int> {
    if times == [] then []
    else (if now - times[0] > WINDOW_MS then [] else [times[0]]) + Recent(times[1..], now)
  }

  ghost predicate Sorted(times: seq<int>) {
    forall i, j :: 0 <= i < j < |times| ==> times[i] <= times[j]
  }

  /** When times come in order, trimming at the front keeps exactly those within the window. */
  lemma {:induction false} TrimIsRecent(times: seq<int>, now: int)
    requires Sorted(times)
    ensures Trimmed(times, now) == Recent(times, now)
  {
    if times != [] {
      if now - times[0] > WINDOW_MS {
        TrimIsRecent(times[1..], now);
      } else {
        AllRecent(times, now);
      }
    }
  }

  lemma {:induction false} AllRecent(times: seq<int>, now: int)
    requires forall i :: 0 <= i < |times| ==> now - times[i] <= WINDOW_MS
    ensures Recent(times, now) == times
  {
    if times != [] {
      AllRecent(times[1..], now);
      assert times == [times[0]] + times[1..];
    }
  }

  method PushSample(values: seq<int>, value: int) returns (r: seq<int>)
    ensures r == Sampled(values, value)
  {
    r := values;
    if value < 0 {
      return;
    }
    r := r + [value];
    ghost var all := r;
    while |r| > MAX_SAMPLES
      invariant |r| <= |all| && r == all[|all| - |r|..]
      invariant |r| >= MAX_SAMPLES || r == all
    {
      r := r[1..];
    }
  }

  /** The metrics object; each method runs under its own lock. */
  class MetricsCollector {
    var totalRequests: nat
    var successRequests: nat
    var failedRequests: nat
    var timeoutRequests: nat
    var degradedRequests: nat
    var queueRejectCount: nat
    var requestTimes: seq<int>
    var latencies: seq<int>
    var queueWaits: seq<int>
    var firstTokenLatencies: seq<int>

    function View(): Counters
      reads this
    {
      Counters(totalRequests, successRequests, failedRequests, timeoutRequests, queueRejectCount)
    }

    method OnRequestAccepted(time: int)
      modifies this`totalRequests, this`requestTimes
      ensures View() == AcceptCounted(old(View()))
      ensures requestTimes == Trimmed(old(requestTimes) + [time], time)
    {
      totalRequests := totalRequests + 1;
      requestTimes := requestTimes + [time];
      while requestTimes != [] && time - requestTimes[0] > WINDOW_MS
        invariant totalRequests == old(totalRequests) + 1
        invariant Trimmed(requestTimes, time) == Trimmed(old(requestTimes) + [time], time)
        decreases |requestTimes|
      {
        requestTimes := requestTimes[1..];
      }
    }

    method OnQueueReject()
      modifies this`queueRejectCount, this`failedRequests
      ensures View() == RejectCounted(old(View()))
    {
      queueRejectCount := queueRejectCount + 1;
      failedRequests := failedRequests + 1;
    }

    method OnRequestFinish(ok: bool, timeout: bool, degraded: bool, total: int, wait: int, firstToken: int)
      modifies this`successRequests, this`failedRequests, this`timeoutRequests, this`degradedRequests,
        this`latencies, this`queueWaits, this`firstTokenLatencies
      ensures View() == Recorded(old(View()), if ok then Succeeded else if timeout then TimedOut else Failed)
      ensures degradedRequests == old(degradedRequests) + if degraded then 1 else 0
      ensures latencies == Sampled(old(latencies), total) && queueWaits == Sampled(old(queueWaits), wait)
      ensures firstTokenLatencies == Sampled(old(firstTokenLatencies), firstToken)
    {
      if ok {
        successRequests := successRequests + 1;
      } else if timeout {
        timeoutRequests := timeoutRequests + 1;
        failedRequests := failedRequests + 1;
      } else {
        failedRequests := failedRequests + 1;
      }
      if degraded {
        degradedRequests := degradedRequests + 1;
      }
      latencies := PushSample(latencies, total);
      queueWaits := PushSample(queueWaits, wait);
      if firstToken >= 0 {
        firstTokenLatencies := PushSample(firstTokenLatencies, firstToken);
      }
    }
  }
}
