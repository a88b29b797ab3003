/** The circuit breaker specified over the history of an endpoint's outcomes, without counters. */
module BreakerHistory {
  import opened Endpoint

  /** One outcome, of a request or of a health check. */
  datatype Outcome = Outcome(ok: bool, at: int)

  type History = seq<Outcome>

  /** Length of the run of outcomes equal to `ok` that ends the history. */
  function Run(h: History, ok: bool): nat {
    if h == [] || h[|h| - 1].ok != ok then 0 else 1 + Run(h[..|h| - 1], ok)
  }

  /** The last outcome is a failure, and its run has reached `limit`. */
  predicate Trips(h: History, limit: int) {
    h != [] && !h[|h| - 1].ok && Run(h, false) >= limit
  }

  /** The last outcome is a success, and its run has reached `limit`. */
  predicate Recovers(h: History, limit: int) {
    h != [] && h[|h| - 1].ok && Run(h, true) >= limit
  }

  /** Some failure run reached `limit`, and no success run has reached `recovery` since. */
  ghost predicate Latched(h: History, limit: int, recovery: int) {
    exists i :: 0 < i <= |h| && Trips(h[..i], limit)
             && forall j :: i < j <= |h| ==> !Recovers(h[..j], recovery)
  }

  /** When the latest outcome that tripped `limit` happened; 0 if none did. */
  function LastTrip(h: History, limit: int): int {
    if h == [] then 0
    else if Trips(h, limit) then h[|h| - 1].at
    else LastTrip(h[..|h| - 1], limit)
  }

  /**
   * The counters of an endpoint, seen at time `clock`, are what its history says. The last two
   * conjuncts tie the open window to the latest trip.
   */
  ghost predicate Refines(rt: Runtime, h: History, th: Thresholds, clock: int) {
    && rt.failures == Run(h, false)
    && rt.successes == Run(h, true)
    && (rt.healthy <==> !Latched(h, th.unhealthy, th.recovery))
    && (rt.circuit.Closed? <==> !Latched(h, th.circuit, th.recovery))
    && (rt.circuit.Open? ==> rt.openUntil == LastTrip(h, th.circuit) + th.openMs)
    && (rt.circuit.HalfOpen? ==> LastTrip(h, th.circuit) + th.openMs <= clock)
  }

  /** A latch remembers the later of its last trip and its last recovery. */
  lemma LatchedSnoc(h: History, e: Outcome, limit: int, recovery: int)
    ensures Latched(h + [e], limit, recovery)
            <==> !Recovers(h + [e], recovery) && (Trips(h + [e], limit) || Latched(h, limit, recovery))
  {
    var g := h + [e];
    assert forall i :: 0 <= i <= |h| ==> g[..i] == h[..i];
    assert g[..|g|] == g;
    if Latched(g, limit, recovery) {
      var i :| 0 < i <= |g| && Trips(g[..i], limit) && forall j :: i < j <= |g| ==> !Recovers(g[..j], recovery);
      if i < |g| {
        assert Trips(h[..i], limit);
      }
    }
    if !Recovers(g, recovery) && Trips(g, limit) {
      assert Trips(g[..|g|], limit);
    }
    if !Recovers(g, recovery) && Latched(h, limit, recovery) {
      var i :| 0 < i <= |h| && Trips(h[..i], limit) && forall j :: i < j <= |h| ==> !Recovers(h[..j], recovery);
      assert Trips(g[..i], limit);
    }
  }

  lemma RunSnoc(h: History, e: Outcome)
    ensures Run(h + [e], e.ok) == 1 + Run(h, e.ok)
    ensures Run(h + [e], !e.ok) == 0
  {
    assert (h + [e])[..|h|] == h;
  }

  lemma LastTripSnoc(h: History, e: Outcome, limit: int)
    ensures LastTrip(h + [e], limit) == if Trips(h + [e], limit) then e.at else LastTrip(h, limit)
  {
    assert (h + [e])[..|h|] == h;
  }

  /** The effect of one more outcome on everything `Refines` mentions. */
  lemma Snoc(h: History, e: Outcome, th: Thresholds)
    ensures var g := h + [e];
      && Run(g, e.ok) == 1 + Run(h, e.ok)
      && Run(g, !e.ok) == 0
      && (Latched(g, th.unhealthy, th.recovery) <==>
            if e.ok then Run(g, true) < th.recovery && Latched(h, th.unhealthy, th.recovery)
            else Run(g, false) >= th.unhealthy || Latched(h, th.unhealthy, th.recovery))
      && (Latched(g, th.circuit, th.recovery) <==>
            if e.ok then Run(g, true) < th.recovery && Latched(h, th.circuit, th.recovery)
            else Run(g, false) >= th.circuit || Latched(h, th.circuit, th.recovery))
      && LastTrip(g, th.circuit)
         == if !e.ok && Run(g, false) >= th.circuit then e.at else LastTrip(h, th.circuit)
  {
    RunSnoc(h, e);
    LatchedSnoc(h, e, th.unhealthy, th.recovery);
    LatchedSnoc(h, e, th.circuit, th.recovery);
    LastTripSnoc(h, e, th.circuit);
    hide Latched, Run, LastTrip;
  }

  /** Request results and health checks, different as their code is, both extend the history. */
  lemma OutcomeRefines(rt: Runtime, h: History, th: Thresholds, clock: int, ok: bool, latency: int, now: int)
    requires Refines(rt, h, th, clock) && clock <= now
    ensures Refines(Result(rt, ok, latency, now, th), h + [Outcome(ok, now)], th, now)
    ensures Refines(Checked(rt, ok, latency, now, th), h + [Outcome(ok, now)], th, now)
  {
    Snoc(h, Outcome(ok, now), th);
    hide Latched, Run, LastTrip, Averaged;
  }

  lemma ProbeRefines(rt: Runtime, h: History, th: Thresholds, clock: int, now: int)
    requires Refines(rt, h, th, clock) && clock <= now
    ensures Refines(Probe(rt, now), h, th, now)
  {
    hide Latched, Run, LastTrip;
  }

  /**
   * While the breaker is latched, no endpoint is available before the open window of its latest
   * trip is over; and an unlatched but unhealthy one is never available.
   */
  lemma NeverEarly(rt: Runtime, h: History, th: Thresholds, clock: int, now: int, maxConcurrency: int)
    requires Refines(rt, h, th, clock) && clock <= now
    requires Available(Probe(rt, now), maxConcurrency)
    ensures Latched(h, th.circuit, th.recovery) ==> now >= LastTrip(h, th.circuit) + th.openMs
    ensures Latched(h, th.unhealthy, th.recovery) ==> Latched(h, th.circuit, th.recovery)
  {
    hide Latched, Run, LastTrip;
  }

  /** Whether a probe is in flight: an open circuit whose window is over starts without one. */
  predicate Probing(rt: Runtime) { rt.circuit.HalfOpen? && rt.halfOpenInflight > 0 }

  /**
   * When an endpoint is available, in terms of its history: it has room; and either no trip of the breaker
   * lasts and it is healthy, or the window of the latest trip is over and no probe is in flight.
   */
  lemma AvailableExactly(rt: Runtime, h: History, th: Thresholds, clock: int, now: int, maxConcurrency: int)
    requires Refines(rt, h, th, clock) && clock <= now
    ensures Available(Probe(rt, now), maxConcurrency) <==>
      && rt.inflight < maxConcurrency
      && if Latched(h, th.circuit, th.recovery) then now >= LastTrip(h, th.circuit) + th.openMs && !Probing(rt)
         else !Latched(h, th.unhealthy, th.recovery)
  {
    hide Latched, Run, LastTrip;
  }
}
