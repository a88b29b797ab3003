/**
 * Endpoint selection: which endpoints may serve a request, how they are ranked and scored, and what
 * the single pass over the endpoint list returns.
 */
module Router {
  import opened Sequences
  import opened Endpoint

  /** The configured part of an endpoint. */
  datatype Config = Config(
    baseUrl: string,
    servedModel: string,
    role: string,
    logicalModels: seq<string>,
    weight: int,
    maxContextLen: int,
    maxConcurrency: int)

  datatype RouteRequest = RouteRequest(
    logicalModel: string,
    fallbackChain: seq<string>,
    allowDegrade: bool,
    priority: int,
    promptSize: nat,
    maxTokens: int)

  predicate FallbackAllows(requested: string, served: string, chain: seq<string>) {
    served == requested ||
    (IndexOf(chain, requested).Some? && IndexOf(chain, served).Some?
     && IndexOf(chain, served).value >= IndexOf(chain, requested).value)
  }

  predicate IsDegraded(c: Config, req: RouteRequest) {
    && c.servedModel != req.logicalModel
    && !(req.fallbackChain != [] && c.servedModel == req.fallbackChain[0])
    && !(c.role == "primary" && req.logicalModel in c.logicalModels)
  }

  predicate Supports(c: Config, req: RouteRequest) {
    || c.servedModel == req.logicalModel
    || req.logicalModel in c.logicalModels
    || (req.allowDegrade && FallbackAllows(req.logicalModel, c.servedModel, req.fallbackChain))
  }

  /** The position in the fallback chain; `None` stands for the source's INT_MAX. */
  function Rank(c: Config, req: RouteRequest): Option<nat> {
    var served := IndexOf(req.fallbackChain, c.servedModel);
    if served.Some? then served
    else if c.servedModel == req.logicalModel || req.logicalModel in c.logicalModels then Some(0)
    else None
  }

  predicate Fits(c: Config, req: RouteRequest) {
    c.maxContextLen > 0 ==> req.promptSize / 4 + req.maxTokens <= c.maxContextLen
  }

  /** Conversion of a double to int truncates toward zero. */
  function Truncated(x: real): int {
    if x >= 0.0 then x.Floor else -((-x).Floor)
  }

  /** C++ division of a possibly negative count by a positive divisor truncates toward zero. */
  function Quotient(x: int, d: int): int
    requires d > 0
  {
    if x >= 0 then x / d else -((-x) / d)
  }

  function Score(c: Config, rt: Runtime, req: RouteRequest, high: int): int {
    c.weight * 10
    - Quotient(rt.inflight * 500, if c.maxConcurrency > 1 then c.maxConcurrency else 1)
    - Truncated(rt.avgLatency / 20.0)
    - rt.failures * 250
    - (if IsDegraded(c, req) then 2000 else 0)
    - (if c.role == "fallback" && req.priority >= high then 500 else 0)
    - (if c.role == "overflow" then 50 else 0)
    - (if rt.circuit.HalfOpen? then 300 else 0)
  }

  // ----- The pass over the list, on what it learns about each endpoint -----

  /**
   * An endpoint is skipped by a filter, or it is eligible, or it passes every filter but is a
   * degraded choice that the request does not allow. The pass still ranks the latter.
   */
  datatype Candidate = Skip | Blocked(rank: nat) | Eligible(rank: nat, score: int)

  function Judge(c: Config, probed: Runtime, req: RouteRequest, high: int): Candidate {
    if !Supports(c, req) || !Available(probed, c.maxConcurrency) || !Fits(c, req) || Rank(c, req).None? then Skip
    else if IsDegraded(c, req) && !req.allowDegrade then Blocked(Rank(c, req).value)
    else Eligible(Rank(c, req).value, Score(c, probed, req, high))
  }

  datatype Choice = Choice(index: nat, rank: nat, score: int)

  /** The loop body. A strictly better rank discards the choice even when its owner is blocked. */
  function Consider(best: Option<Choice>, i: nat, c: Candidate): Option<Choice> {
    if c.Skip? || (best.Some? && c.rank > best.value.rank) then best
    else
      var kept := if best.Some? && c.rank < best.value.rank then None else best;
      if c.Eligible? && (kept.None? || c.score > kept.value.score) then Some(Choice(i, c.rank, c.score)) else kept
  }

  function Pick(cs: seq<Candidate>): Option<Choice> {
    if cs == [] then None else Consider(Pick(cs[..|cs| - 1]), |cs| - 1, cs[|cs| - 1])
  }

  /** Lexicographic preference: rank, then score, then position. */
  predicate Beats(cs: seq<Candidate>, i: nat, j: nat)
    requires i < |cs| && j < |cs| && cs[i].Eligible? && cs[j].Eligible?
  {
    || cs[i].rank < cs[j].rank
    || (cs[i].rank == cs[j].rank && cs[i].score > cs[j].score)
    || (cs[i].rank == cs[j].rank && cs[i].score == cs[j].score && i <= j)
  }

  ghost predicate IsOptimum(cs: seq<Candidate>, o: nat) {
    && o < |cs| && cs[o].Eligible?
    && forall j :: 0 <= j < |cs| && cs[j].Eligible? ==> Beats(cs, o, j)
  }

  /** A blocked endpoint listed after `o` whose rank is better than `o`'s. */
  ghost predicate Wiped(cs: seq<Candidate>, o: nat)
    requires o < |cs| && cs[o].Eligible?
  {
    exists j :: o < j < |cs| && cs[j].Blocked? && cs[j].rank < cs[o].rank
  }

  /** Whatever the pass returns is an eligible endpoint of the list. */
  lemma {:induction false} PickSound(cs: seq<Candidate>)
    ensures Pick(cs).Some? ==>
      var p := Pick(cs).value;
      p.index < |cs| && cs[p.index] == Eligible(p.rank, p.score)
  {
    if cs != [] { PickSound(cs[..|cs| - 1]); }
  }

  /** A discarded endpoint never comes back. */
  lemma {:induction false} PickForgets(cs: seq<Candidate>, o: nat, n: nat)
    requires o < n <= |cs|
    requires Pick(cs[..n]).Some? ==> Pick(cs[..n]).value.index != o
    ensures Pick(cs).Some? ==> Pick(cs).value.index != o
    decreases |cs| - n
  {
    if n == |cs| {
      assert cs[..n] == cs;
    } else {
      assert cs[..n + 1][..n] == cs[..n];
      PickForgets(cs, o, n + 1);
    }
  }

  /** An endpoint not wiped away keeps the pass from ending empty, or on a worse rank. */
  lemma {:induction false} PickAtMost(cs: seq<Candidate>, u: nat, n: nat)
    requires u < n <= |cs| && cs[u].Eligible?
    requires forall j :: u < j < n && cs[j].Blocked? ==> cs[j].rank >= cs[u].rank
    ensures Pick(cs[..n]).Some? && Pick(cs[..n]).value.rank <= cs[u].rank
    decreases n
  {
    PickNext(cs, n - 1);
    if n > u + 1 {
      PickAtMost(cs, u, n - 1);
    }
  }

  /** The pass ends empty exactly when every eligible endpoint has a blocked one of better rank after it. */
  lemma PickNone(cs: seq<Candidate>)
    ensures Pick(cs).None? <==> forall i :: 0 <= i < |cs| && cs[i].Eligible? ==> Wiped(cs, i)
  {
    assert cs[..|cs|] == cs;
    KeptUnwiped(cs, |cs|);
    assert Pick(cs).Some? ==> !Wiped(cs, Pick(cs).value.index);
    if u :| 0 <= u < |cs| && cs[u].Eligible? && !Wiped(cs, u) {
      PickAtMost(cs, u, |cs|);
    }
  }

  /** What is kept at any time was not wiped away, and beats everything after it so far. */
  lemma {:induction false} KeptUnwiped(cs: seq<Candidate>, n: nat)
    requires n <= |cs|
    ensures Pick(cs[..n]).Some? ==>
      var p := Pick(cs[..n]).value;
      && p.index < n && cs[p.index] == Eligible(p.rank, p.score)
      && (forall j :: p.index < j < n && cs[j].Blocked? ==> cs[j].rank >= p.rank)
      && (forall j :: p.index < j < n && cs[j].Eligible? ==> Beats(cs, p.index, j))
  {
    if n > 0 {
      KeptUnwiped(cs, n - 1);
      PickNext(cs, n - 1);
    }
  }

  /** A rival before `o` is gone by then if a blocked endpoint of better rank lies between. */
  ghost predicate GoneBefore(cs: seq<Candidate>, j: nat, o: nat)
    requires j < |cs| && cs[j].Eligible?
  {
    exists i :: j < i < o && i < |cs| && cs[i].Blocked? && cs[i].rank < cs[j].rank
  }

  /** `o` is not wiped away, and beats every other endpoint that was not gone before it. */
  ghost predicate Survives(cs: seq<Candidate>, o: nat) {
    && o < |cs| && cs[o].Eligible? && !Wiped(cs, o)
    && forall j :: 0 <= j < |cs| && cs[j].Eligible? && !GoneBefore(cs, j, o) ==> Beats(cs, o, j)
  }

  /** A survivor is taken when its turn comes. */
  lemma SurvivorTaken(cs: seq<Candidate>, o: nat)
    requires Survives(cs, o)
    ensures Pick(cs[..o + 1]) == Some(Choice(o, cs[o].rank, cs[o].score))
  {
    PickNext(cs, o);
    KeptUnwiped(cs, o);
    if Pick(cs[..o]).Some? {
      var p := Pick(cs[..o]).value;
      assert !GoneBefore(cs, p.index, o);
      assert Beats(cs, o, p.index);
    }
  }

  lemma {:induction false} SurvivorKept(cs: seq<Candidate>, o: nat, n: nat)
    requires Survives(cs, o) && o < n <= |cs|
    ensures Pick(cs[..n]) == Some(Choice(o, cs[o].rank, cs[o].score))
  {
    if n == o + 1 {
      SurvivorTaken(cs, o);
    } else {
      SurvivorKept(cs, o, n - 1);
      PickNext(cs, n - 1);
      assert cs[n - 1].Eligible? ==> !GoneBefore(cs, n - 1, o) && Beats(cs, o, n - 1);
      assert cs[n - 1].Blocked? ==> cs[n - 1].rank >= cs[o].rank;
    }
  }

  /** What the pass keeps beats each earlier rival, unless the rival was gone before it. */
  lemma PickBeatsEarlier(cs: seq<Candidate>, j: nat)
    requires Pick(cs).Some?
    requires j < Pick(cs).value.index < |cs| && cs[j].Eligible? && !GoneBefore(cs, j, Pick(cs).value.index)
    requires cs[Pick(cs).value.index].Eligible?
    ensures Beats(cs, Pick(cs).value.index, j)
  {
    var o := Pick(cs).value.index;
    assert cs[..|cs|] == cs;
    if !Beats(cs, o, j) {
      StaysAhead(cs, j, o, o);
      KeptUnwiped(cs, o);
      PickNext(cs, o);
      PickForgets(cs, o, o + 1);
    }
  }

  /** From a rival `j` of `o` that was not wiped away, what is kept until `o` is as good a rival. */
  lemma {:induction false} StaysAhead(cs: seq<Candidate>, j: nat, o: nat, n: nat)
    requires j < n <= o < |cs| && cs[j].Eligible? && cs[o].Eligible?
    requires !GoneBefore(cs, j, o) && !Beats(cs, o, j)
    ensures Pick(cs[..n]).Some?
    ensures var p := Pick(cs[..n]).value;
      p.rank < cs[o].rank || (p.rank == cs[o].rank && p.score >= cs[o].score)
    ensures Pick(cs[..n]).value.rank <= cs[j].rank
    decreases n
  {
    PickNext(cs, n - 1);
    if n > j + 1 {
      StaysAhead(cs, j, o, n - 1);
      assert cs[n - 1].Blocked? ==> cs[n - 1].rank >= cs[j].rank;
    }
  }

  /** Which endpoint the pass returns, in every case. */
  lemma PickIsSurvivor(cs: seq<Candidate>, o: nat)
    ensures Pick(cs).Some? && Pick(cs).value.index == o <==> Survives(cs, o)
  {
    assert cs[..|cs|] == cs;
    if Survives(cs, o) {
      SurvivorKept(cs, o, |cs|);
    } else if Pick(cs).Some? && Pick(cs).value.index == o {
      KeptUnwiped(cs, |cs|);
      forall j | 0 <= j < |cs| && cs[j].Eligible? && !GoneBefore(cs, j, o) ensures Beats(cs, o, j) {
        if j < o {
          PickBeatsEarlier(cs, j);
        }
      }
      assert false;
    }
  }

  /**
   * The pass returns the optimum - least rank, then greatest score, then first listed - exactly when
   * no blocked endpoint of better rank is listed after it.
   */
  lemma PickExact(cs: seq<Candidate>, o: nat)
    requires IsOptimum(cs, o)
    ensures Pick(cs) == Some(Choice(o, cs[o].rank, cs[o].score)) <==> !Wiped(cs, o)
  {
    PickIsSurvivor(cs, o);
    PickSound(cs);
    hide Pick, Wiped;
  }

  lemma {:induction false} OptimumExists(cs: seq<Candidate>) returns (o: nat)
    requires exists i :: 0 <= i < |cs| && cs[i].Eligible?
    ensures IsOptimum(cs, o)
  {
    var n := |cs| - 1;
    if i :| 0 <= i < n && cs[i].Eligible? {
      assert cs[..n][i].Eligible?;
      o := OptimumExists(cs[..n]);
      forall j | 0 <= j < n && cs[j].Eligible? ensures Beats(cs, o, j) {
        assert cs[..n][j].Eligible?;
        assert Beats(cs[..n], o, j);
      }
      if cs[n].Eligible? && !Beats(cs, o, n) {
        o := n;
      }
    } else {
      o := n;
    }
  }

  // ----- What it means for the endpoints -----

  /** Any endpoint that supports a request has a rank, so the INT_MAX skip is never taken. */
  lemma SupportedIsRanked(c: Config, req: RouteRequest)
    requires Supports(c, req)
    ensures Rank(c, req).Some?
  {
  }

  function Candidates(configs: seq<Config>, probed: seq<Runtime>, req: RouteRequest, high: int): (cs: seq<Candidate>)
    requires |configs| == |probed|
    ensures |cs| == |configs|
    ensures forall i :: 0 <= i < |cs| ==> cs[i] == Judge(configs[i], probed[i], req, high)
  {
    seq(|configs|, i requires 0 <= i < |configs| => Judge(configs[i], probed[i], req, high))
  }

  /** The filters, without the ranking. */
  predicate Servable(c: Config, probed: Runtime, req: RouteRequest) {
    Supports(c, req) && Available(probed, c.maxConcurrency) && Fits(c, req)
  }

  /**
   * With degrading allowed, the pass finds nothing exactly when no endpoint is servable, and
   * otherwise returns the servable endpoint of least rank, then greatest score, then first listed.
   */
  lemma RouteOptimal(configs: seq<Config>, probed: seq<Runtime>, req: RouteRequest, high: int)
    requires |configs| == |probed| && req.allowDegrade
    ensures var pick := Pick(Candidates(configs, probed, req, high));
      && (pick.None? <==> forall i :: 0 <= i < |configs| ==> !Servable(configs[i], probed[i], req))
      && (pick.Some? ==>
            var b := pick.value.index;
            && b < |configs| && Servable(configs[b], probed[b], req)
            && forall i :: 0 <= i < |configs| && Servable(configs[i], probed[i], req) ==>
                 var ri, rb := Rank(configs[i], req), Rank(configs[b], req);
                 && ri.Some? && rb.Some?
                 && (|| rb.value < ri.value
                     || (rb == ri && Score(configs[b], probed[b], req, high) > Score(configs[i], probed[i], req, high))
                     || (rb == ri && Score(configs[b], probed[b], req, high) == Score(configs[i], probed[i], req, high)
                         && b <= i)))
  {
    var cs := Candidates(configs, probed, req, high);
    hide Score, Rank, Available, Fits;
    forall i | 0 <= i < |configs| ensures cs[i].Eligible? <==> Servable(configs[i], probed[i], req) {
      if Supports(configs[i], req) { SupportedIsRanked(configs[i], req); }
    }
    if i :| 0 <= i < |configs| && Servable(configs[i], probed[i], req) {
      assert cs[i].Eligible?;
      var o := OptimumExists(cs);
      PickExact(cs, o);
      assert Pick(cs).value.index == o;
      forall j | 0 <= j < |configs| && Servable(configs[j], probed[j], req) ensures Beats(cs, o, j) {
        assert cs[j].Eligible?;
      }
    } else {
      PickNone(cs);
    }
  }

  /** The endpoint serves the model asked for, or the head of the chain, or is a primary for that model. */
  predicate Straight(c: Config, req: RouteRequest) {
    || c.servedModel == req.logicalModel
    || (req.fallbackChain != [] && req.fallbackChain[0] == c.servedModel)
    || (c.role == "primary" && req.logicalModel in c.logicalModels)
  }

  /**
   * With degrading forbidden, the pass finds nothing exactly when every servable straight endpoint is followed
   * by a servable one that is not straight and has a smaller rank.
   */
  lemma RouteStrict(configs: seq<Config>, probed: seq<Runtime>, req: RouteRequest, high: int)
    requires |configs| == |probed| && !req.allowDegrade
    ensures Pick(Candidates(configs, probed, req, high)).None? <==>
      forall i :: 0 <= i < |configs| && Servable(configs[i], probed[i], req) && Straight(configs[i], req) ==>
        exists j :: i < j < |configs| && Servable(configs[j], probed[j], req) && !Straight(configs[j], req)
                    && Rank(configs[j], req).Some? && Rank(configs[i], req).Some?
                    && Rank(configs[j], req).value < Rank(configs[i], req).value
  {
    var cs := Candidates(configs, probed, req, high);
    PickNone(cs);
    hide Score, Rank, Available, Fits, Pick;
    forall i | 0 <= i < |configs|
      ensures cs[i].Eligible? <==> Servable(configs[i], probed[i], req) && Straight(configs[i], req)
      ensures cs[i].Blocked? <==> Servable(configs[i], probed[i], req) && !Straight(configs[i], req)
      ensures !cs[i].Skip? ==> Rank(configs[i], req) == Some(cs[i].rank)
    {
      if Supports(configs[i], req) { SupportedIsRanked(configs[i], req); }
    }
    hide Servable, Straight, Judge, Candidates;
    forall i | 0 <= i < |configs| && cs[i].Eligible?
      ensures Wiped(cs, i) <==>
        exists j :: i < j < |configs| && Servable(configs[j], probed[j], req) && !Straight(configs[j], req)
                    && Rank(configs[j], req).Some? && Rank(configs[i], req).Some?
                    && Rank(configs[j], req).value < Rank(configs[i], req).value
    {
    }
  }

  /** In every case the endpoint returned passes every filter, and is degraded only if allowed. */
  lemma RouteSound(configs: seq<Config>, probed: seq<Runtime>, req: RouteRequest, high: int)
    requires |configs| == |probed|
    ensures var pick := Pick(Candidates(configs, probed, req, high));
      pick.Some? ==>
        var b := pick.value.index;
        && b < |configs| && Servable(configs[b], probed[b], req)
        && (req.allowDegrade || Straight(configs[b], req))
  {
    PickSound(Candidates(configs, probed, req, high));
  }

  // ----- The filters and the score, in terms of the configuration -----

  /** The chain allows a model that does not come before the one asked for, first positions compared. */
  lemma FallbackExactly(requested: string, served: string, chain: seq<string>)
    requires served != requested
    ensures FallbackAllows(requested, served, chain) <==>
      exists i :: 0 <= i < |chain| && chain[i] == requested && requested !in chain[..i] && served !in chain[..i]
                  && served in chain[i..]
  {
    var r, s := IndexOf(chain, requested), IndexOf(chain, served);
    if FallbackAllows(requested, served, chain) {
      assert forall k :: 0 <= k < r.value ==> chain[..r.value][k] == chain[..s.value][k];
      assert chain[r.value..][s.value - r.value] == served;
    }
    if i :| 0 <= i < |chain| && chain[i] == requested && requested !in chain[..i] && served !in chain[..i]
            && served in chain[i..] {
      IndexIs(chain, i, requested);
      assert served in chain;
      assert forall k :: 0 <= k < i ==> chain[k] in chain[..i];
    }
  }

  /** An endpoint supports a request by its model, by a name it lists, or, if that is allowed, by the chain. */
  lemma SupportsExactly(c: Config, req: RouteRequest)
    ensures Supports(c, req) <==>
      || c.servedModel == req.logicalModel
      || (exists i :: 0 <= i < |c.logicalModels| && c.logicalModels[i] == req.logicalModel)
      || (req.allowDegrade
          && exists i :: 0 <= i < |req.fallbackChain| && req.fallbackChain[i] == req.logicalModel
                         && req.logicalModel !in req.fallbackChain[..i] && c.servedModel !in req.fallbackChain[..i]
                         && c.servedModel in req.fallbackChain[i..])
  {
    if c.servedModel != req.logicalModel {
      FallbackExactly(req.logicalModel, c.servedModel, req.fallbackChain);
    }
    hide FallbackAllows;
  }

  /** The rank is the first position in the chain, or 0 for an endpoint outside it that goes by the name asked for. */
  lemma RankExactly(c: Config, req: RouteRequest, n: nat)
    ensures Rank(c, req) == Some(n) <==>
      || (n < |req.fallbackChain| && req.fallbackChain[n] == c.servedModel && c.servedModel !in req.fallbackChain[..n])
      || (n == 0 && c.servedModel !in req.fallbackChain
          && (c.servedModel == req.logicalModel || req.logicalModel in c.logicalModels))
  {
    if n < |req.fallbackChain| && req.fallbackChain[n] == c.servedModel && c.servedModel !in req.fallbackChain[..n] {
      IndexIs(req.fallbackChain, n, c.servedModel);
    }
  }

  /** A prompt fits if four characters a token leave room for the answer, or no limit is configured. */
  lemma FitsExactly(c: Config, req: RouteRequest)
    ensures Fits(c, req) <==> c.maxContextLen <= 0 || req.promptSize < 4 * (c.maxContextLen - req.maxTokens + 1)
  {
  }

  /** The pass takes the first of two endpoints, in whichever order they are listed. */
  predicate Preferred(c: Config, rt: Runtime, c': Config, rt': Runtime, req: RouteRequest, high: int) {
    && Pick(Candidates([c, c'], [rt, rt'], req, high)).Some?
    && Pick(Candidates([c, c'], [rt, rt'], req, high)).value.index == 0
    && Pick(Candidates([c', c], [rt', rt], req, high)).Some?
    && Pick(Candidates([c', c], [rt', rt], req, high)).value.index == 1
  }

  /** Two endpoints that can serve the request, of the same rank. */
  predicate Rivals(c: Config, rt: Runtime, c': Config, rt': Runtime, req: RouteRequest) {
    req.allowDegrade && Servable(c, rt, req) && Servable(c', rt', req) && Rank(c, req) == Rank(c', req)
  }

  lemma TwoPicked(a: Candidate, b: Candidate)
    requires a.Eligible? && b.Eligible? && a.rank == b.rank
    ensures Pick([a, b]) == Some(if b.score > a.score then Choice(1, b.rank, b.score) else Choice(0, a.rank, a.score))
  {
    PickNext([a, b], 0);
    PickNext([a, b], 1);
    assert [a, b][..0] == [] && [a, b][..2] == [a, b];
  }

  lemma PreferredByScore(c: Config, rt: Runtime, c': Config, rt': Runtime, req: RouteRequest, high: int)
    requires Rivals(c, rt, c', rt', req)
    ensures Preferred(c, rt, c', rt', req, high) <==> Score(c, rt, req, high) > Score(c', rt', req, high)
  {
    SupportedIsRanked(c, req);
    SupportedIsRanked(c', req);
    hide Score, Rank, Available, Fits, Supports, Pick;
    var a, b := Judge(c, rt, req, high), Judge(c', rt', req, high);
    assert a.Eligible? && b.Eligible? && a.rank == b.rank;
    TwoPicked(a, b);
    TwoPicked(b, a);
    assert Candidates([c, c'], [rt, rt'], req, high) == [a, b];
    assert Candidates([c', c], [rt', rt], req, high) == [b, a];
  }

  /** In a list of any length, an endpoint is not returned if a servable one of its rank is preferred to it. */
  lemma PreferredRules(configs: seq<Config>, probed: seq<Runtime>, req: RouteRequest, high: int, i: nat, j: nat)
    requires |configs| == |probed| && i < |configs| && j < |configs|
    requires Rivals(configs[i], probed[i], configs[j], probed[j], req)
    requires Preferred(configs[i], probed[i], configs[j], probed[j], req, high)
    ensures var pick := Pick(Candidates(configs, probed, req, high)); pick.Some? && pick.value.index != j
  {
    PreferredByScore(configs[i], probed[i], configs[j], probed[j], req, high);
    RouteOptimal(configs, probed, req, high);
    hide Score, Rank, Available, Fits, Supports, Pick, Preferred, Candidates;
  }

  /** `c'` is `c` with `extra` points of weight. */
  function Heavier(c: Config, extra: int): Config { c.(weight := c.weight + extra) }

  /** More weight is preferred; and a failure in a row costs 25 of it. */
  lemma FailuresCost(c: Config, rt: Runtime, k: int, extra: int, req: RouteRequest, high: int)
    requires Rivals(c, rt, Heavier(c, extra), rt.(failures := rt.failures + k), req)
    ensures Preferred(c, rt, Heavier(c, extra), rt.(failures := rt.failures + k), req, high) <==> extra < 25 * k
  {
    PreferredByScore(c, rt, Heavier(c, extra), rt.(failures := rt.failures + k), req, high);
    hide Preferred, Rivals;
  }

  /** A full load costs 50 of weight, and a part of it its share, in tenths rounded down. */
  lemma LoadCosts(c: Config, rt: Runtime, n: int, extra: int, req: RouteRequest, high: int)
    requires 0 <= rt.inflight && 0 <= n && c.maxConcurrency >= 1
    requires Rivals(c, rt, Heavier(c, extra), rt.(inflight := n), req)
    ensures Preferred(c, rt, Heavier(c, extra), rt.(inflight := n), req, high)
            <==> 10 * extra < 500 * n / c.maxConcurrency - 500 * rt.inflight / c.maxConcurrency
  {
    PreferredByScore(c, rt, Heavier(c, extra), rt.(inflight := n), req, high);
    hide Preferred, Rivals;
  }

  /** Twenty milliseconds of average latency cost a tenth of a point of weight. */
  lemma LatencyCosts(c: Config, rt: Runtime, avg: real, extra: int, req: RouteRequest, high: int)
    requires 0.0 <= rt.avgLatency && 0.0 <= avg
    requires Rivals(c, rt, Heavier(c, extra), rt.(avgLatency := avg), req)
    ensures Preferred(c, rt, Heavier(c, extra), rt.(avgLatency := avg), req, high)
            <==> 10 * extra < (avg / 20.0).Floor - (rt.avgLatency / 20.0).Floor
  {
    PreferredByScore(c, rt, Heavier(c, extra), rt.(avgLatency := avg), req, high);
    hide Preferred, Rivals;
  }

  /** A half-open circuit costs 30 of weight. */
  lemma HalfOpenCosts(c: Config, rt: Runtime, extra: int, req: RouteRequest, high: int)
    requires rt.circuit.Closed?
    requires Rivals(c, rt, Heavier(c, extra), rt.(circuit := HalfOpen), req)
    ensures Preferred(c, rt, Heavier(c, extra), rt.(circuit := HalfOpen), req, high) <==> extra < 30
  {
    PreferredByScore(c, rt, Heavier(c, extra), rt.(circuit := HalfOpen), req, high);
    hide Preferred, Rivals;
  }

  /** Against a role that is none of the three, overflow costs 5 of weight, and fallback 50 at high priority. */
  lemma RoleCosts(c: Config, rt: Runtime, role: string, extra: int, req: RouteRequest, high: int)
    requires c.role !in {"primary", "fallback", "overflow"} && role in {"fallback", "overflow"}
    requires Rivals(c, rt, Heavier(c, extra).(role := role), rt, req)
    ensures Preferred(c, rt, Heavier(c, extra).(role := role), rt, req, high)
            <==> extra < (if role == "overflow" then 5 else if req.priority >= high then 50 else 0)
  {
    PreferredByScore(c, rt, Heavier(c, extra).(role := role), rt, req, high);
    hide Preferred, Rivals;
  }

  /** Straying from the model asked for costs 200 of weight. */
  lemma StrayingCosts(c: Config, rt: Runtime, c': Config, extra: int, req: RouteRequest, high: int)
    requires Straight(c, req) && !Straight(c', req)
    requires c' == Heavier(c, extra).(servedModel := c'.servedModel, logicalModels := c'.logicalModels)
    requires Rivals(c, rt, c', rt, req)
    ensures Preferred(c, rt, c', rt, req, high) <==> extra < 200
  {
    PreferredByScore(c, rt, c', rt, req, high);
    hide Preferred, Rivals;
  }

  const EXACT := Config("http://a", "m", "primary", ["m"], 100, 0, 1)
  const ALIAS := Config("http://b", "x", "overflow", ["m", "x"], 10, 0, 1)
  const STRICT := RouteRequest("m", ["big", "m"], false, 5, 0, 10)

  /**
   * Without degrading, an endpoint that serves the very model asked for can be lost: an overflow
   * alias listed later, too degraded to use but of better rank, makes the pass forget it.
   */
  lemma BlockedAliasHidesModel()
    ensures Servable(EXACT, FRESH, STRICT) && !IsDegraded(EXACT, STRICT)
    ensures Pick(Candidates([EXACT, ALIAS], [FRESH, FRESH], STRICT, 7)).None?
  {
    var cs := Candidates([EXACT, ALIAS], [FRESH, FRESH], STRICT, 7);
    assert STRICT.fallbackChain[1..] == ["m"];
    assert IndexOf(["m"], "m") == Some(0) && IndexOf(STRICT.fallbackChain, "m") == Some(1);
    assert Rank(EXACT, STRICT) == Some(1) && Rank(ALIAS, STRICT) == Some(0);
    assert cs[0].Eligible? && cs[0].rank == 1 && cs[1] == Blocked(0);
    hide Judge;
    PickNext(cs, 0);
    PickNext(cs, 1);
    assert cs[..2] == cs;
  }

  // ----- The pass as the router runs it -----

  function ConfigOf(e: VllmEndpoint): Config
    reads e
  {
    Config(e.baseUrl, e.servedModel, e.role, e.logicalModels, e.weight, e.maxContextLen, e.maxConcurrency)
  }

  function Configs(es: seq<VllmEndpoint>): (cs: seq<Config>)
    reads es
    ensures |cs| == |es|
    ensures forall i :: 0 <= i < |es| ==> cs[i] == ConfigOf(es[i])
  {
    if es == [] then [] else Configs(es[..|es| - 1]) + [ConfigOf(es[|es| - 1])]
  }

  function Probed(es: seq<VllmEndpoint>, now: int): (rs: seq<Runtime>)
    reads es
    ensures |rs| == |es|
    ensures forall i :: 0 <= i < |es| ==> rs[i] == Probe(es[i].View(), now)
  {
    if es == [] then [] else Probed(es[..|es| - 1], now) + [Probe(es[|es| - 1].View(), now)]
  }

  /** What the pass leaves behind on an endpoint it does not choose. */
  function Looked(c: Config, rt: Runtime, req: RouteRequest, now: int): Runtime {
    if Supports(c, req) then Probe(rt, now) else rt
  }

  /** The filters of the loop body, up to and including the score. */
  method Weigh(ep: VllmEndpoint, req: RouteRequest, now: int, high: int) returns (cand: Candidate)
    modifies ep`circuitState, ep`halfOpenInflight
    ensures ConfigOf(ep) == old(ConfigOf(ep))
    ensures ep.View() == Looked(old(ConfigOf(ep)), old(ep.View()), req, now)
    ensures cand == Judge(old(ConfigOf(ep)), Probe(old(ep.View()), now), req, high)
  {
    hide Score, Rank, Fits;
    var c := ConfigOf(ep);
    if !Supports(c, req) {
      return Skip;
    }
    var available := ep.IsAvailable(now);
    if !available || !Fits(c, req) {
      return Skip;
    }
    var rank := Rank(c, req);
    if rank.None? {
      return Skip;
    }
    if IsDegraded(c, req) && !req.allowDegrade {
      return Blocked(rank.value);
    }
    return Eligible(rank.value, Score(c, ep.View(), req, high));
  }

  /**
   * Endpoints may be listed twice: two configuration entries with the same URL and model share one
   * object. Looking twice is the same as looking once.
   */
  method SelectEndpoint(endpoints: seq<VllmEndpoint>, req: RouteRequest, now: int, high: int)
    returns (best: Option<nat>)
    modifies endpoints
    ensures forall e :: e in endpoints ==> ConfigOf(e) == old(ConfigOf(e))
    ensures var pick := Pick(Candidates(old(Configs(endpoints)), old(Probed(endpoints, now)), req, high));
      best == if pick.Some? then Some(pick.value.index) else None
    ensures best.Some? ==> best.value < |endpoints|
    ensures forall e :: e in endpoints ==>
      e.View() == (var seen := Looked(old(ConfigOf(e)), old(e.View()), req, now);
                   if best.Some? && e == endpoints[best.value] then Acquire(seen) else seen)
  {
    ghost var cs := Candidates(Configs(endpoints), Probed(endpoints, now), req, high);
    var choice := RankAll(endpoints, req, now, high);
    best := None;
    if choice.Some? {
      PickSound(cs);
      best := Some(choice.value.index);
      endpoints[best.value].Take();
    }
  }

  method RankAll(endpoints: seq<VllmEndpoint>, req: RouteRequest, now: int, high: int)
    returns (best: Option<Choice>)
    modifies endpoints
    ensures best == Pick(Candidates(old(Configs(endpoints)), old(Probed(endpoints, now)), req, high))
    ensures forall e :: e in endpoints ==>
      ConfigOf(e) == old(ConfigOf(e)) && e.View() == Looked(old(ConfigOf(e)), old(e.View()), req, now)
  {
    hide Judge, Looked, Pick, Consider, Probe;
    ghost var cs := Candidates(Configs(endpoints), Probed(endpoints, now), req, high);
    best := None;
    PickEmpty();
    for i := 0 to |endpoints|
      invariant forall e :: e in endpoints ==> ConfigOf(e) == old(ConfigOf(e))
      invariant forall e :: e in endpoints ==>
        e.View() == if e in endpoints[..i] then Looked(old(ConfigOf(e)), old(e.View()), req, now) else old(e.View())
      invariant best == Pick(cs[..i])
    {
      var ep := endpoints[i];
      JudgeAgain(old(ConfigOf(ep)), old(ep.View()), req, now, high);
      var cand := Weigh(ep, req, now, high);
      best := Compare(best, i, cand);
      PickNext(cs, i);
      assert forall e :: e in endpoints[..i + 1] <==> e in endpoints[..i] || e == ep;
    }
    assert cs[..|cs|] == cs;
    assert endpoints[..|endpoints|] == endpoints;
  }

  lemma PickEmpty()
    ensures Pick([]).None?
  {
  }

  lemma JudgeAgain(c: Config, rt: Runtime, req: RouteRequest, now: int, high: int)
    ensures Looked(c, Looked(c, rt, req, now), req, now) == Looked(c, rt, req, now)
    ensures Judge(c, Probe(Looked(c, rt, req, now), now), req, high) == Judge(c, Probe(rt, now), req, high)
  {
  }

  /** The rest of the loop body: reset on a better rank, then keep the better score. */
  method Compare(soFar: Option<Choice>, i: nat, cand: Candidate) returns (best: Option<Choice>)
    ensures best == Consider(soFar, i, cand)
  {
    best := soFar;
    if cand.Skip? {
      return;
    }
    if best.Some? && cand.rank > best.value.rank {
      return;
    }
    if best.None? || cand.rank < best.value.rank {
      best := None;
    }
    if cand.Blocked? {
      return;
    }
    if best.None? || cand.score > best.value.score {
      best := Some(Choice(i, cand.rank, cand.score));
    }
  }

  lemma PickNext(cs: seq<Candidate>, i: nat)
    requires i < |cs|
    ensures Pick(cs[..i + 1]) == Consider(Pick(cs[..i]), i, cs[i])
  {
    assert cs[..i + 1][..i] == cs[..i];
  }
}
