/**
 * One backend endpoint: its circuit breaker, its health flag and its in-flight counters, as the
 * router probes it and as request results and health checks update it.
 */
module Endpoint {

  datatype Circuit = Closed | Open | HalfOpen

  datatype Thresholds = Thresholds(recovery: int, unhealthy: int, circuit: int, openMs: int)

  /** The mutable part of an endpoint that routing decisions read. */
  datatype Runtime = Runtime(
    healthy: bool,
    circuit: Circuit,
    inflight: int,
    halfOpenInflight: int,
    failures: int,        // consecutive
    successes: int,       // consecutive
    openUntil: int,
    avgLatency: real)

  const FRESH := Runtime(true, Closed, 0, 0, 0, 0, 0, 0.0)

  /** What looking at an endpoint does to it: an open circuit whose time is up becomes half open. */
  function Probe(rt: Runtime, now: int): Runtime {
    if rt.circuit.Open? && now >= rt.openUntil then rt.(circuit := HalfOpen, halfOpenInflight := 0) else rt
  }

  /** Whether a probed endpoint may take one more request. */
  predicate Available(rt: Runtime, maxConcurrency: int) {
    && !rt.circuit.Open?
    && !(rt.circuit.HalfOpen? && rt.halfOpenInflight > 0)
    && (rt.healthy || rt.circuit.HalfOpen?)
    && rt.inflight < maxConcurrency
  }

  /** Taking a request. */
  function Acquire(rt: Runtime): Runtime {
    rt.(inflight := rt.inflight + 1,
        halfOpenInflight := if rt.circuit.HalfOpen? then rt.halfOpenInflight + 1 else rt.halfOpenInflight)
  }

  /** Giving it back, with the source's guards against going below zero. */
  function Release(rt: Runtime): Runtime {
    rt.(inflight := if rt.inflight > 0 then rt.inflight - 1 else rt.inflight,
        halfOpenInflight := if rt.halfOpenInflight > 0 then rt.halfOpenInflight - 1 else rt.halfOpenInflight)
  }

  function Averaged(avg: real, latency: int, keep: real): real {
    if latency <= 0 then avg
    else if avg <= 0.0 then latency as real
    else avg * keep + latency as real * (1.0 - keep)
  }

  lemma AveragedIdle(avg: real, latency: int)
    ensures latency <= 0 ==> Averaged(avg, latency, 0.8) == avg == Averaged(avg, latency, 0.9)
  {
  }

  function Failure(rt: Runtime, now: int, th: Thresholds): Runtime {
    var n := rt.failures + 1;
    var trips := n >= th.circuit;
    rt.(failures := n, successes := 0,
        healthy := if n >= th.unhealthy then false else rt.healthy,
        circuit := if trips then Open else rt.circuit,
        openUntil := if trips then now + th.openMs else rt.openUntil)
  }

  /** A request came back. */
  function Result(rt: Runtime, ok: bool, latency: int, now: int, th: Thresholds): Runtime {
    var back := Release(rt).(avgLatency := Averaged(rt.avgLatency, latency, 0.8));
    if ok then
      var n := rt.successes + 1;
      back.(successes := n, failures := 0,
            healthy := if n >= th.recovery then true else rt.healthy,
            circuit := if n >= th.recovery then Closed else rt.circuit)
    else
      Failure(back, now, th)
  }

  /** A health check finished. */
  function Checked(rt: Runtime, ok: bool, latency: int, now: int, th: Thresholds): Runtime {
    var seen := rt.(avgLatency := Averaged(rt.avgLatency, latency, 0.9));
    if ok then
      var n := rt.successes + 1;
      seen.(successes := n, failures := 0,
            healthy := if n >= th.recovery then true else rt.healthy,
            circuit := if n >= th.recovery && (rt.circuit.HalfOpen? || rt.circuit.Open?) then Closed else rt.circuit)
    else
      Failure(seen, now, th)
  }

  /**
   * The average moves a fifth of the way to the latency of a request, and a tenth of the way to that of a
   * health check; the first latency is taken as it is, and one that is not positive is not counted.
   */
  lemma AverageMoves(rt: Runtime, ok: bool, latency: int, now: int, th: Thresholds)
    ensures var result := Result(rt, ok, latency, now, th).avgLatency;
      var checked := Checked(rt, ok, latency, now, th).avgLatency;
      if latency <= 0 then result == rt.avgLatency == checked
      else if rt.avgLatency <= 0.0 then result == latency as real == checked
      else
        && 5.0 * (result - rt.avgLatency) == latency as real - rt.avgLatency
        && 10.0 * (checked - rt.avgLatency) == latency as real - rt.avgLatency
  {
  }

  /** The endpoint object; each method runs under the endpoints lock. */
  class VllmEndpoint {
    const baseUrl: string
    const servedModel: string
    var role: string
    var logicalModels: seq<string>
    var weight: int
    var maxContextLen: int
    var maxConcurrency: int
    var healthy: bool
    var circuitState: Circuit
    var inflight: int
    var consecutiveFailures: int
    var consecutiveSuccesses: int
    var halfOpenInflight: int
    var circuitOpenUntilMs: int
    var avgLatencyMs: real
    var lastHealthCheckMs: int
    var lastLatencyMs: int
    var successCount: nat
    var failureCount: nat
    var circuitOpenCount: nat

    constructor (baseUrl: string, servedModel: string, role: string, logicalModels: seq<string>,
                 weight: int, maxContextLen: int, maxConcurrency: int)
      ensures View() == FRESH
      ensures this.baseUrl == baseUrl && this.servedModel == servedModel && this.role == role
      ensures this.logicalModels == logicalModels && this.weight == weight
      ensures this.maxContextLen == maxContextLen && this.maxConcurrency == maxConcurrency
    {
      this.baseUrl, this.servedModel, this.role := baseUrl, servedModel, role;
      this.logicalModels, this.weight := logicalModels, weight;
      this.maxContextLen, this.maxConcurrency := maxContextLen, maxConcurrency;
      healthy, circuitState := true, Closed;
      inflight, halfOpenInflight, consecutiveFailures, consecutiveSuccesses := 0, 0, 0, 0;
      circuitOpenUntilMs, avgLatencyMs := 0, 0.0;
      lastHealthCheckMs, lastLatencyMs, successCount, failureCount, circuitOpenCount := 0, 0, 0, 0, 0;
    }

    function View(): Runtime
      reads this
    {
      Runtime(healthy, circuitState, inflight, halfOpenInflight, consecutiveFailures, consecutiveSuccesses,
              circuitOpenUntilMs, avgLatencyMs)
    }

    method IsAvailable(now: int) returns (available: bool)
      modifies this`circuitState, this`halfOpenInflight
      ensures View() == Probe(old(View()), now)
      ensures available == Available(View(), maxConcurrency)
    {
      if circuitState == Open {
        if now >= circuitOpenUntilMs {
          circuitState := HalfOpen;
          halfOpenInflight := 0;
        } else {
          return false;
        }
      }
      if circuitState == HalfOpen && halfOpenInflight > 0 {
        return false;
      }
      if !healthy && circuitState != HalfOpen {
        return false;
      }
      if inflight >= maxConcurrency {
        return false;
      }
      return true;
    }

    method Take()
      modifies this`inflight, this`halfOpenInflight
      ensures View() == Acquire(old(View()))
    {
      inflight := inflight + 1;
      if circuitState == HalfOpen {
        halfOpenInflight := halfOpenInflight + 1;
      }
    }

    method UpdateResult(ok: bool, latencyMs: int, now: int, th: Thresholds)
      modifies this`healthy, this`circuitState, this`inflight, this`consecutiveFailures,
        this`consecutiveSuccesses, this`halfOpenInflight, this`circuitOpenUntilMs, this`avgLatencyMs,
        this`lastLatencyMs, this`successCount, this`failureCount, this`circuitOpenCount
      ensures View() == Result(old(View()), ok, latencyMs, now, th)
      ensures lastLatencyMs == latencyMs
      ensures successCount == old(successCount) + if ok then 1 else 0
      ensures failureCount == old(failureCount) + if ok then 0 else 1
      ensures circuitOpenCount == old(circuitOpenCount)
                + if !old(circuitState).Open? && circuitState.Open? then 1 else 0
    {
      hide Averaged, Failure;
      AveragedIdle(avgLatencyMs, latencyMs);
      GiveBack();
      lastLatencyMs := latencyMs;
      if latencyMs > 0 {
        Smooth(latencyMs, 0.8);
      }
      if ok {
        successCount := successCount + 1;
        consecutiveSuccesses := consecutiveSuccesses + 1;
        consecutiveFailures := 0;
        if consecutiveSuccesses >= th.recovery {
          healthy := true;
          circuitState := Closed;
        }
      } else {
        failureCount := failureCount + 1;
        CountFailure(now, th);
      }
    }

    method UpdateHealth(ok: bool, latencyMs: int, now: int, th: Thresholds)
      modifies this`healthy, this`circuitState, this`consecutiveFailures,
        this`consecutiveSuccesses, this`circuitOpenUntilMs, this`avgLatencyMs,
        this`lastHealthCheckMs, this`lastLatencyMs, this`circuitOpenCount
      ensures View() == Checked(old(View()), ok, latencyMs, now, th)
      ensures lastHealthCheckMs == now
      ensures lastLatencyMs == if latencyMs > 0 then latencyMs else old(lastLatencyMs)
      ensures circuitOpenCount == old(circuitOpenCount)
                + if !old(circuitState).Open? && circuitState.Open? then 1 else 0
    {
      hide Averaged;
      AveragedIdle(avgLatencyMs, latencyMs);
      lastHealthCheckMs := now;
      if latencyMs > 0 {
        lastLatencyMs := latencyMs;
        Smooth(latencyMs, 0.9);
      }
      if ok {
        consecutiveSuccesses := consecutiveSuccesses + 1;
        consecutiveFailures := 0;
        if consecutiveSuccesses >= th.recovery {
          healthy := true;
          if circuitState == HalfOpen || circuitState == Open {
            circuitState := Closed;
          }
        }
      } else {
        CountFailure(now, th);
      }
    }

    method GiveBack()
      modifies this`inflight, this`halfOpenInflight
      ensures View() == Release(old(View()))
    {
      if inflight > 0 {
        inflight := inflight - 1;
      }
      if halfOpenInflight > 0 {
        halfOpenInflight := halfOpenInflight - 1;
      }
    }

    /** The average that both updaters keep, with their own weights. */
    method Smooth(latencyMs: int, keep: real)
      requires latencyMs > 0
      modifies this`avgLatencyMs
      ensures avgLatencyMs == Averaged(old(avgLatencyMs), latencyMs, keep)
    {
      if avgLatencyMs <= 0.0 {
        avgLatencyMs := latencyMs as real;
      } else {
        avgLatencyMs := avgLatencyMs * keep + latencyMs as real * (1.0 - keep);
      }
    }

    /** The failure branch that both updaters share. */
    method CountFailure(now: int, th: Thresholds)
      modifies this`healthy, this`circuitState, this`consecutiveFailures,
        this`consecutiveSuccesses, this`circuitOpenUntilMs, this`circuitOpenCount
      ensures View() == Failure(old(View()), now, th)
      ensures circuitOpenCount == old(circuitOpenCount)
                + if !old(circuitState).Open? && circuitState.Open? then 1 else 0
    {
      consecutiveFailures := consecutiveFailures + 1;
      consecutiveSuccesses := 0;
      if consecutiveFailures >= th.unhealthy {
        healthy := false;
      }
      if consecutiveFailures >= th.circuit {
        if circuitState != Open {
          circuitOpenCount := circuitOpenCount + 1;
        }
        circuitState := Open;
        circuitOpenUntilMs := now + th.openMs;
      }
    }
  }
}
