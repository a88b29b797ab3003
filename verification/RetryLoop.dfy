/**
 * What a worker does with one request: attempts on endpoints until one succeeds, output starts, or
 * the attempts, the deadline or the endpoints run out; and the messages the client sees.
 */
module RetryLoop {
  import opened Sequences
  import opened StreamFraming
  import opened Metrics
  import Decimal

  datatype Request = Request(enstream: bool, enoutput: bool, maxRetries: int)

  datatype Message =
    | DeltaMessage(index: nat, text: string)
    | Finish(index: nat)
    | Text(text: string)
    | Error(code: int, message: string)

  /** What the HTTP library reports for one attempt: the pieces it delivered, and how it ended. */
  datatype Transfer =
    | NoHandle
    | Transferred(pieces: seq<string>, curlError: Option<string>, httpCode: int)

  /** What the JSON of a complete response body holds; reading it is a parameter. */
  datatype Extracted = Found(text: string) | Missing(message: string)

  datatype Backend = Backend(parse: Parser, extract: string -> Extracted)

  /** What attempt `k` observes: whether the task is stopping, the deadline, an endpoint, a transfer. */
  datatype Observation = Observation(stopping: bool, deadline: bool, endpoint: bool, transfer: Transfer)

  const DEADLINE := "deadline exceeded"
  const NO_ENDPOINT := "no healthy endpoint or endpoint capacity timeout"
  const AFTER_OUTPUT := "vLLM stream failed after output started: "
  const GENERIC := "vLLM request failed"
  const DEADLINE_CODE := -42
  const FAILURE_CODE := -41

  /** The deltas of a reader as messages; nothing when output is disabled. */
  function Shown(req: Request, deltas: seq<Delta>): (ms: seq<Message>)
    ensures |ms| == if req.enoutput then |deltas| else 0
    ensures forall i :: 0 <= i < |ms| ==> ms[i] == DeltaMessage(deltas[i].index, deltas[i].text)
  {
    if !req.enoutput then []
    else seq(|deltas|, i requires 0 <= i < |deltas| => DeltaMessage(deltas[i].index, deltas[i].text))
  }

  function Emit(req: Request, m: Message): seq<Message> { if req.enoutput then [m] else [] }

  datatype CallResult = CallResult(ok: bool, started: bool, error: string, out: seq<Message>)

  /** One attempt on an endpoint. */
  function Call(req: Request, t: Transfer, b: Backend): CallResult {
    if t.NoHandle? then CallResult(false, false, "curl_easy_init failed", [])
    else
      var r := if req.enstream then FeedAll(START, t.pieces, b.parse) else START;
      var body := if req.enstream then "" else Concat(t.pieces);
      var shown := Shown(req, r.emitted);
      if t.curlError.Some? then CallResult(false, r.started, t.curlError.value, shown)
      else if t.httpCode < 200 || t.httpCode >= 300 then
        CallResult(false, r.started, "HTTP " + Decimal.PrintInt(t.httpCode) + ": " + body, shown)
      else if req.enstream then
        if r.failed then CallResult(false, r.started, r.error, shown)
        else CallResult(true, r.started, "", shown + Emit(req, Finish(r.index)))
      else
        match b.extract(body)
        case Missing(message) => CallResult(false, r.started, message, shown)
        case Found(text) => CallResult(true, r.started, "", shown + Emit(req, Text(text)))
  }

  /** The end of the loop. */
  datatype Looped = Looped(out: seq<Message>, attempts: nat, ok: bool, error: string)

  /** The attempts from number `k` on, `error` being the message of the attempt before. */
  function Attempts(req: Request, env: nat -> Observation, b: Backend, k: nat, error: string): Looped
    decreases req.maxRetries + 1 - k
  {
    var o := env(k);
    if k > req.maxRetries || o.stopping then Looped([], 0, false, error)
    else if o.deadline then Looped([], 0, false, DEADLINE)
    else if !o.endpoint then Looped([], 0, false, NO_ENDPOINT)
    else
      var c := Call(req, o.transfer, b);
      if c.ok then Looped(c.out, 1, true, "")
      else if c.started then Looped(c.out, 1, false, AFTER_OUTPUT + c.error)
      else
        var rest := Attempts(req, env, b, k + 1, c.error);
        Looped(c.out + rest.out, 1 + rest.attempts, rest.ok, rest.error)
  }

  datatype Handled = Handled(out: seq<Message>, attempts: nat, outcome: Outcome)

  /** `stopped` is what the last look at the stop flag saw. */
  function Handle(req: Request, env: nat -> Observation, b: Backend, stopped: bool): Handled {
    var loop := Attempts(req, env, b, 0, "");
    if loop.ok then Handled(loop.out, loop.attempts, Succeeded)
    else if stopped then Handled(loop.out, loop.attempts, Dropped)
    else
      var message := if loop.error == "" then GENERIC else loop.error;
      var code := if message == DEADLINE then DEADLINE_CODE else FAILURE_CODE;
      Handled(loop.out + [Error(code, message)], loop.attempts, if code == DEADLINE_CODE then TimedOut else Failed)
  }

  // ----- The client's view -----

  ghost predicate Deltas(out: seq<Message>, n: nat) {
    n <= |out| && forall i :: 0 <= i < n ==> out[i].DeltaMessage? && out[i].index == i && out[i].text != ""
  }

  /** Deltas numbered `0..n-1`, then one finish numbered `n` or one error; or one text or one error. */
  ghost predicate CompleteTrace(req: Request, out: seq<Message>) {
    if req.enstream then
      exists n: nat :: Deltas(out, n) && |out| == n + 1 && (out[n] == Finish(n) || out[n].Error?)
    else
      |out| == 1 && (out[0].Text? || out[0].Error?)
  }

  /** The output of a single attempt: numbered deltas, and a terminal message exactly when it is ok. */
  ghost predicate OneAttempt(req: Request, c: CallResult) {
    if req.enstream then
      exists n: nat :: Deltas(c.out, n) && (c.started <==> n > 0)
               && if c.ok then |c.out| == n + 1 && c.out[n] == Finish(n) else |c.out| == n
    else
      && !c.started
      && if c.ok then |c.out| == 1 && c.out[0].Text? else c.out == []
  }

  lemma CallIsOneAttempt(req: Request, t: Transfer, b: Backend)
    requires req.enoutput
    ensures OneAttempt(req, Call(req, t, b))
  {
    var c := Call(req, t, b);
    if t.Transferred? && req.enstream {
      FeedAllNumbers(START, t.pieces, b.parse);
      var r := FeedAll(START, t.pieces, b.parse);
      hide FeedAll;
      assert Deltas(c.out, |r.emitted|);
    } else if req.enstream {
      assert Deltas(c.out, 0);
    }
  }

  predicate Reached(t: Transfer) {
    t.Transferred? && t.curlError.None? && 200 <= t.httpCode < 300
  }

  /** The texts as the client sees them, numbered. */
  function AsDeltas(req: Request, texts: seq<string>): seq<Message> {
    if !req.enoutput then []
    else seq(|texts|, i requires 0 <= i < |texts| => DeltaMessage(i, texts[i]))
  }

  /**
   * A streamed attempt, in terms of the lines of what was transferred: it is ok exactly if the transfer
   * succeeded with a 2xx status and no line brings trouble; it shows the texts of the lines, and then the
   * finish if it is ok.
   */
  lemma StreamedExactly(req: Request, t: Transfer, b: Backend, lines: seq<string>, rest: string)
    returns (ms: seq<Meaning>)
    requires req.enstream && t.Transferred? && Framed(Concat(t.pieces), lines, rest)
    ensures SayAll(lines, b.parse, ms)
    ensures var c := Call(req, t, b);
      && (c.ok <==> Reached(t) && forall i :: 0 <= i < |ms| ==> !ms[i].Trouble?)
      && (c.started <==> exists i :: 0 <= i < |ms| && ms[i].Words?)
      && c.out == AsDeltas(req, Texts(ms)) + (if c.ok && req.enoutput then [Finish(|Texts(ms)|)] else [])
      && c.error == (if t.curlError.Some? then t.curlError.value
                     else if !Reached(t) then "HTTP " + Decimal.PrintInt(t.httpCode) + ": "
                     else if c.ok then "" else LastTrouble(ms))
  {
    ms := StreamMeans(t.pieces, lines, rest, b.parse);
    var r := FeedAll(START, t.pieces, b.parse);
    hide FeedAll, Says, Texts, LastTrouble, Decimal.PrintInt;
    assert Shown(req, r.emitted) == AsDeltas(req, Texts(ms));
    assert forall s: string :: s + "" == s;
    assert AsDeltas(req, Texts(ms)) + [] == AsDeltas(req, Texts(ms));
  }

  /** An attempt that is not streamed shows the text that the JSON of a successful 2xx body holds, and nothing else. */
  lemma WholeExactly(req: Request, t: Transfer, b: Backend)
    requires !req.enstream && t.Transferred?
    ensures var c, found := Call(req, t, b), b.extract(Concat(t.pieces));
      && (c.ok <==> Reached(t) && found.Found?)
      && !c.started
      && c.out == (if c.ok && req.enoutput then [Text(found.text)] else [])
      && c.error == (if t.curlError.Some? then t.curlError.value
                     else if !Reached(t) then "HTTP " + Decimal.PrintInt(t.httpCode) + ": " + Concat(t.pieces)
                     else if c.ok then "" else found.message)
  {
    assert Shown(req, START.emitted) == [];
  }

  lemma QuietFailure(req: Request, t: Transfer, b: Backend)
    requires req.enoutput && !Call(req, t, b).ok && !Call(req, t, b).started
    ensures Call(req, t, b).out == []
  {
    CallIsOneAttempt(req, t, b);
    hide Call;
  }

  /** A retry only follows an attempt that showed nothing, so the loop's output is one attempt's. */
  lemma {:induction false} OutputIsLastAttempts(
    req: Request, env: nat -> Observation, b: Backend, k: nat, error: string)
    requires req.enoutput
    ensures var loop := Attempts(req, env, b, k, error);
      && (loop.attempts == 0 ==> loop.out == [] && !loop.ok)
      && (loop.attempts > 0 ==>
            var c := Call(req, env(k + loop.attempts - 1).transfer, b);
            loop.out == c.out && loop.ok == c.ok
            && forall i :: k <= i < k + loop.attempts - 1 ==>
                 Call(req, env(i).transfer, b).out == [] && !Call(req, env(i).transfer, b).ok)
    decreases req.maxRetries + 1 - k
  {
    var o := env(k);
    if k <= req.maxRetries && !o.stopping && !o.deadline && o.endpoint {
      hide Call;
      var c := Call(req, o.transfer, b);
      if !c.ok && !c.started {
        QuietFailure(req, o.transfer, b);
        OutputIsLastAttempts(req, env, b, k + 1, c.error);
        var rest := Attempts(req, env, b, k + 1, c.error);
        assert c.out + rest.out == rest.out;
      }
    }
  }

  /** At most one attempt more than the retries, and none for a negative number of them. */
  lemma {:induction false} AttemptsBounded(req: Request, env: nat -> Observation, b: Backend, k: nat, error: string)
    ensures Attempts(req, env, b, k, error).attempts <= if k <= req.maxRetries then req.maxRetries + 1 - k else 0
    decreases req.maxRetries + 1 - k
  {
    hide Call;
    if k <= req.maxRetries {
      AttemptsBounded(req, env, b, k + 1, Call(req, env(k).transfer, b).error);
    }
  }

  /**
   * With output enabled, every request that is not dropped by a stop yields one complete trace, whose
   * deltas all come from the last attempt; a dropped one yields the trace without its last message.
   */
  lemma ClientTrace(req: Request, env: nat -> Observation, b: Backend, stopped: bool)
    requires req.enoutput
    ensures var h := Handle(req, env, b, stopped);
      && (!h.outcome.Dropped? ==> CompleteTrace(req, h.out))
      && (h.outcome.Dropped? ==> stopped && forall code, message :: CompleteTrace(req, h.out + [Error(code, message)]))
      && h.attempts <= (if req.maxRetries >= 0 then req.maxRetries + 1 else 0)
  {
    var loop := Attempts(req, env, b, 0, "");
    AttemptsBounded(req, env, b, 0, "");
    OutputIsLastAttempts(req, env, b, 0, "");
    if loop.attempts > 0 {
      CallIsOneAttempt(req, env(loop.attempts - 1).transfer, b);
    }
    hide Call, Attempts;
    if req.enstream && !loop.ok {
      forall code, message ensures CompleteTrace(req, loop.out + [Error(code, message)]) {
        var out := loop.out + [Error(code, message)];
        assert Deltas(loop.out, |loop.out|);
        assert Deltas(out, |loop.out|);
      }
    }
  }

  /** With output disabled, the client sees at most the error. */
  lemma {:induction false} SilentTrace(req: Request, env: nat -> Observation, b: Backend, k: nat, error: string)
    requires !req.enoutput
    ensures Attempts(req, env, b, k, error).out == []
    decreases req.maxRetries + 1 - k
  {
    if k <= req.maxRetries {
      var c := Call(req, env(k).transfer, b);
      assert c.out == [];
      hide Call;
      SilentTrace(req, env, b, k + 1, c.error);
    }
  }

  // ----- When a failure counts as a timeout -----

  /** Attempt `i` is made, fails and shows nothing, so that another one may follow. */
  predicate Quiet(req: Request, o: Observation, b: Backend) {
    && !o.stopping && !o.deadline && o.endpoint
    && !Call(req, o.transfer, b).ok && !Call(req, o.transfer, b).started
  }

  /** The attempts from `k` up to `n` are within the retries, and all quiet. */
  ghost predicate AllQuiet(req: Request, env: nat -> Observation, b: Backend, k: nat, n: nat) {
    forall i :: k <= i < n ==> i <= req.maxRetries && Quiet(req, env(i), b)
  }

  /** The deadline check ends the loop before attempt `n`. */
  predicate DeadlineMet(req: Request, env: nat -> Observation, n: nat) {
    n <= req.maxRetries && !env(n).stopping && env(n).deadline
  }

  /** The retries end the loop, or a stop does, before attempt `n`. */
  predicate Exhausted(req: Request, env: nat -> Observation, n: nat) {
    n > req.maxRetries || env(n).stopping
  }

  /** The text of the attempt before `n`; before any, the one the loop starts with. */
  function ErrorBefore(req: Request, env: nat -> Observation, b: Backend, k: nat, error: string, n: nat): string {
    if n > k then Call(req, env(n - 1).transfer, b).error else error
  }

  /**
   * After quiet attempts only, the deadline check ends the loop; or nothing but retries or a stop does,
   * and the text left over happens to be the deadline's.
   */
  ghost predicate EndsAt(req: Request, env: nat -> Observation, b: Backend, k: nat, error: string, n: nat) {
    && k <= n && AllQuiet(req, env, b, k, n)
    && (DeadlineMet(req, env, n) || (Exhausted(req, env, n) && ErrorBefore(req, env, b, k, error, n) == DEADLINE))
  }

  ghost predicate EndsWithDeadline(req: Request, env: nat -> Observation, b: Backend, k: nat, error: string) {
    exists n: nat :: EndsAt(req, env, b, k, error, n)
  }

  /** Looking past a quiet attempt. */
  lemma EndsLater(req: Request, env: nat -> Observation, b: Backend, k: nat, error: string)
    requires k <= req.maxRetries && Quiet(req, env(k), b)
    ensures EndsWithDeadline(req, env, b, k, error)
            <==> EndsWithDeadline(req, env, b, k + 1, Call(req, env(k).transfer, b).error)
  {
    hide Quiet;
    var later := Call(req, env(k).transfer, b).error;
    if EndsWithDeadline(req, env, b, k, error) {
      var n: nat :| EndsAt(req, env, b, k, error, n);
      QuietGoesOn(req, env, b, k);
      assert EndsAt(req, env, b, k + 1, later, n);
    }
    if EndsWithDeadline(req, env, b, k + 1, later) {
      var n: nat :| EndsAt(req, env, b, k + 1, later, n);
      assert EndsAt(req, env, b, k, error, n);
    }
  }

  lemma QuietGoesOn(req: Request, env: nat -> Observation, b: Backend, k: nat)
    requires k <= req.maxRetries && Quiet(req, env(k), b)
    ensures !DeadlineMet(req, env, k) && !Exhausted(req, env, k)
  {
  }

  /** An attempt that is not quiet, or a check before it, decides. */
  lemma EndsHere(req: Request, env: nat -> Observation, b: Backend, k: nat, error: string)
    requires !(k <= req.maxRetries && Quiet(req, env(k), b))
    ensures EndsWithDeadline(req, env, b, k, error)
            <==> DeadlineMet(req, env, k) || (Exhausted(req, env, k) && error == DEADLINE)
  {
    hide Quiet;
    if EndsWithDeadline(req, env, b, k, error) {
      var n: nat :| EndsAt(req, env, b, k, error, n);
      assert n == k;
    }
    if DeadlineMet(req, env, k) || (Exhausted(req, env, k) && error == DEADLINE) {
      assert EndsAt(req, env, b, k, error, k);
    }
  }

  lemma {:induction false} DeadlineText(req: Request, env: nat -> Observation, b: Backend, k: nat, error: string)
    ensures var loop := Attempts(req, env, b, k, error);
      !loop.ok && loop.error == DEADLINE <==> EndsWithDeadline(req, env, b, k, error)
    decreases req.maxRetries + 1 - k
  {
    hide Call, Attempts, EndsWithDeadline;
    AttemptsUnfold(req, env, b, k, error);
    if k <= req.maxRetries && Quiet(req, env(k), b) {
      var c := Call(req, env(k).transfer, b);
      EndsLater(req, env, b, k, error);
      DeadlineText(req, env, b, k + 1, c.error);
    } else {
      EndsHere(req, env, b, k, error);
      assert (AFTER_OUTPUT + Call(req, env(k).transfer, b).error)[0] == 'v';
    }
  }

  /**
   * A failure counts as a timeout exactly when, after some number of quiet attempts, the deadline check
   * ends the loop, or the retries or a stop do and the last attempt's own error is the deadline's text.
   */
  lemma TimeoutExactly(req: Request, env: nat -> Observation, b: Backend)
    ensures Handle(req, env, b, false).outcome.TimedOut?
            <==> exists n: nat :: AllQuiet(req, env, b, 0, n)
                   && (DeadlineMet(req, env, n)
                       || (n > 0 && Exhausted(req, env, n) && Call(req, env(n - 1).transfer, b).error == DEADLINE))
  {
    DeadlineText(req, env, b, 0, "");
    hide Attempts, Call, AllQuiet, DeadlineMet, Exhausted;
    if n: nat :| AllQuiet(req, env, b, 0, n)
                 && (DeadlineMet(req, env, n)
                     || (n > 0 && Exhausted(req, env, n) && Call(req, env(n - 1).transfer, b).error == DEADLINE)) {
      assert EndsAt(req, env, b, 0, "", n);
    } else {
      assert forall n: nat :: !EndsAt(req, env, b, 0, "", n);
    }
  }

  // ----- Where the loop ends, and what it says -----

  /** An attempt that is made, and is not quiet: it succeeds, or fails after showing something. */
  predicate Decides(req: Request, o: Observation, b: Backend) {
    !o.stopping && !o.deadline && o.endpoint && !Quiet(req, o, b)
  }

  /** Attempts `k..n-1` are quiet, and then one decides or none may follow. */
  ghost predicate EndsLoop(req: Request, env: nat -> Observation, b: Backend, k: nat, n: nat) {
    k <= n && AllQuiet(req, env, b, k, n) && !(n <= req.maxRetries && Quiet(req, env(n), b))
  }

  /** The result of a loop that ends at `n`. */
  ghost predicate LoopedAt(
    req: Request, env: nat -> Observation, b: Backend, k: nat, error: string, n: nat, loop: Looped)
  {
    var c := Call(req, env(n).transfer, b);
    if Exhausted(req, env, n) then
      !loop.ok && loop.attempts == n - k && loop.error == ErrorBefore(req, env, b, k, error, n)
    else if env(n).deadline then !loop.ok && loop.attempts == n - k && loop.error == "deadline exceeded"
    else if !env(n).endpoint then
      !loop.ok && loop.attempts == n - k && loop.error == "no healthy endpoint or endpoint capacity timeout"
    else
      && loop.attempts == n - k + 1 && loop.ok == c.ok
      && (!c.ok ==> loop.error == "vLLM stream failed after output started: " + c.error)
  }

  /** The loop ends at exactly one attempt, and with the result that its observation says. */
  lemma {:induction false} LoopExactly(req: Request, env: nat -> Observation, b: Backend, k: nat, error: string)
    returns (n: nat)
    ensures EndsLoop(req, env, b, k, n)
    ensures LoopedAt(req, env, b, k, error, n, Attempts(req, env, b, k, error))
    decreases req.maxRetries + 1 - k
  {
    hide Call, Attempts;
    AttemptsUnfold(req, env, b, k, error);
    if k <= req.maxRetries && Quiet(req, env(k), b) {
      var c := Call(req, env(k).transfer, b);
      n := LoopExactly(req, env, b, k + 1, c.error);
      QuietGoesOn(req, env, b, k);
      assert AllQuiet(req, env, b, k, n);
    } else {
      n := k;
    }
  }

  lemma QuietBefore(req: Request, env: nat -> Observation, b: Backend, n: nat, i: nat)
    requires AllQuiet(req, env, b, 0, n)
    ensures i < n ==> i <= req.maxRetries && Quiet(req, env(i), b)
  {
    hide Quiet;
  }

  lemma EndsOnce(req: Request, env: nat -> Observation, b: Backend, m: nat, n: nat)
    requires EndsLoop(req, env, b, 0, m) && EndsLoop(req, env, b, 0, n)
    ensures m == n
  {
    QuietBefore(req, env, b, n, m);
    QuietBefore(req, env, b, m, n);
    hide Quiet, AllQuiet;
  }

  /**
   * What the client is told when a request fails: after `n` quiet attempts, the reason that attempt `n` gives,
   * or the text of the last quiet one, or the generic message if that is empty.
   */
  lemma FailureTold(req: Request, env: nat -> Observation, b: Backend, n: nat)
    requires EndsLoop(req, env, b, 0, n)
    ensures var h, c := Handle(req, env, b, false), Call(req, env(n).transfer, b);
      var made := Decides(req, env(n), b) && n <= req.maxRetries;
      && h.attempts == (if made then n + 1 else n)
      && (h.outcome.Succeeded? <==> made && c.ok)
      && (!h.outcome.Succeeded? ==>
            && h.out != [] && h.out[|h.out| - 1].Error?
            && h.out[|h.out| - 1].message ==
                 (if Exhausted(req, env, n) then
                    (if n > 0 && Call(req, env(n - 1).transfer, b).error != ""
                     then Call(req, env(n - 1).transfer, b).error else "vLLM request failed")
                  else if env(n).deadline then "deadline exceeded"
                  else if !env(n).endpoint then "no healthy endpoint or endpoint capacity timeout"
                  else "vLLM stream failed after output started: " + c.error)
            && h.out[|h.out| - 1].code == (if h.outcome.TimedOut? then -42 else -41))
  {
    var m := LoopExactly(req, env, b, 0, "");
    EndsOnce(req, env, b, m, n);
    hide Call, Attempts, AllQuiet;
    var loop := Attempts(req, env, b, 0, "");
    assert forall e: string :: ("vLLM stream failed after output started: " + e)[0] == 'v';
  }

  /** A stop takes away the last message of a request that does not succeed, and its outcome; nothing else. */
  lemma StopDrops(req: Request, env: nat -> Observation, b: Backend)
    ensures var told, dropped := Handle(req, env, b, false), Handle(req, env, b, true);
      && told.attempts == dropped.attempts
      && if told.outcome.Succeeded? then dropped == told
         else dropped.outcome == Dropped && told.out != [] && dropped.out == told.out[..|told.out| - 1]
  {
    hide Attempts;
  }

  function Steady(o: Observation): nat -> Observation { (k: nat) => o }

  /** The second way is real: a backend's own error text is taken for the deadline, which no check ever met. */
  lemma BackendTextCountsAsTimeout(b: Backend, body: string)
    requires b.extract(body) == Missing(DEADLINE)
    ensures var env := Steady(Observation(false, false, true, Transferred([body], None, 200)));
      var req := Request(false, true, 0);
      && Handle(req, env, b, false) == Handled([Error(DEADLINE_CODE, DEADLINE)], 1, TimedOut)
      && forall n: nat :: !DeadlineMet(req, env, n)
  {
    var env := Steady(Observation(false, false, true, Transferred([body], None, 200)));
    var req := Request(false, true, 0);
    assert Concat([body]) == body;
    var c := Call(req, env(0).transfer, b);
    assert c == CallResult(false, false, DEADLINE, []);
    AttemptsUnfold(req, env, b, 0, "");
    AttemptsUnfold(req, env, b, 1, DEADLINE);
    hide Call, Attempts;
    assert Attempts(req, env, b, 0, "") == Looped([], 1, false, DEADLINE);
  }

  // ----- The loop itself -----

  /** Hand the pieces to the stream callback or to the body callback. */
  method Receive(req: Request, pieces: seq<string>, b: Backend) returns (r: Reader, body: string)
    ensures r == if req.enstream then FeedAll(START, pieces, b.parse) else START
    ensures body == if req.enstream then "" else Concat(pieces)
  {
    hide Feed;
    var state := new StreamState(b.parse);
    body := "";
    for i := 0 to |pieces|
      invariant state.parse == b.parse
      invariant req.enstream ==> FeedAll(state.View(), pieces[i..], b.parse) == FeedAll(START, pieces, b.parse)
      invariant req.enstream ==> body == ""
      invariant !req.enstream ==> state.View() == START && body + Concat(pieces[i..]) == Concat(pieces)
    {
      assert pieces[i..][1..] == pieces[i + 1..];
      if req.enstream {
        state.WriteCallback(pieces[i]);
      } else {
        body := body + pieces[i];
      }
    }
    r := state.View();
  }

  method CallBackend(req: Request, t: Transfer, b: Backend)
    returns (ok: bool, started: bool, error: string, out: seq<Message>)
    ensures CallResult(ok, started, error, out) == Call(req, t, b)
  {
    ok, started, error, out := false, false, "", [];
    if t.NoHandle? {
      error := "curl_easy_init failed";
      return;
    }
    var r, body := Receive(req, t.pieces, b);
    started := r.started;
    out := Shown(req, r.emitted);
    if t.curlError.Some? {
      error := t.curlError.value;
      return;
    }
    if t.httpCode < 200 || t.httpCode >= 300 {
      error := "HTTP " + Decimal.PrintInt(t.httpCode) + ": " + body;
      return;
    }
    if req.enstream {
      if r.failed {
        error := r.error;
        return;
      }
      out := out + Emit(req, Finish(r.index));
      ok := true;
      return;
    }
    match b.extract(body)
    case Missing(message) => error := message;
    case Found(text) =>
      out := out + Emit(req, Text(text));
      ok := true;
  }

  lemma AttemptsUnfold(req: Request, env: nat -> Observation, b: Backend, k: nat, error: string)
    ensures Attempts(req, env, b, k, error) ==
      if k > req.maxRetries || env(k).stopping then Looped([], 0, false, error)
      else if env(k).deadline then Looped([], 0, false, DEADLINE)
      else if !env(k).endpoint then Looped([], 0, false, NO_ENDPOINT)
      else
        var c := Call(req, env(k).transfer, b);
        if c.ok then Looped(c.out, 1, true, "")
        else if c.started then Looped(c.out, 1, false, AFTER_OUTPUT + c.error)
        else
          var rest := Attempts(req, env, b, k + 1, c.error);
          Looped(c.out + rest.out, 1 + rest.attempts, rest.ok, rest.error)
  {
  }

  method RunAttempts(req: Request, env: nat -> Observation, b: Backend)
    returns (out: seq<Message>, attempts: nat, ok: bool, error: string)
    ensures var whole := Attempts(req, env, b, 0, "");
      out == whole.out && attempts == whole.attempts && ok == whole.ok && (!ok ==> error == whole.error)
  {
    hide Call, Attempts;
    ghost var whole := Attempts(req, env, b, 0, "");
    ghost var rest := whole;
    out, attempts, ok, error := [], 0, false, "";
    var running := true;
    AttemptsUnfold(req, env, b, 0, "");
    while running && attempts <= req.maxRetries && !env(attempts).stopping
      invariant running ==> !ok && rest == Attempts(req, env, b, attempts, error)
      invariant running && Exhausted(req, env, attempts) ==> rest == Looped([], 0, false, error)
      invariant !running ==> rest.out == [] && rest.attempts == 0 && rest.ok == ok && (!ok ==> rest.error == error)
      invariant whole.out == out + rest.out && whole.attempts == attempts + rest.attempts
      invariant whole.ok == rest.ok && whole.error == rest.error
      decreases running, req.maxRetries - attempts
    {
      var o := env(attempts);
      AttemptsUnfold(req, env, b, attempts, error);
      if o.deadline {
        error, running := DEADLINE, false;
      } else if !o.endpoint {
        error, running := NO_ENDPOINT, false;
      } else {
        var started, shown;
        ok, started, error, shown := CallBackend(req, o.transfer, b);
        out, attempts := out + shown, attempts + 1;
        if ok {
          running := false;
          rest := Looped([], 0, true, "");
        } else if started {
          error, running := AFTER_OUTPUT + error, false;
          rest := Looped([], 0, false, error);
        } else {
          rest := Attempts(req, env, b, attempts, error);
          AttemptsUnfold(req, env, b, attempts, error);
        }
      }
    }
    assert out + [] == out;
  }

  method HandleRequest(req: Request, env: nat -> Observation, b: Backend, stopped: bool)
    returns (out: seq<Message>, attempts: nat, outcome: Outcome)
    ensures Handled(out, attempts, outcome) == Handle(req, env, b, stopped)
  {
    hide Attempts;
    var ok, error;
    out, attempts, ok, error := RunAttempts(req, env, b);
    if ok {
      outcome := Succeeded;
    } else if stopped {
      outcome := Dropped;
    } else {
      if error == "" {
        error := GENERIC;
      }
      var code := if error == DEADLINE then DEADLINE_CODE else FAILURE_CODE;
      out := out + [Error(code, error)];
      outcome := if code == DEADLINE_CODE then TimedOut else Failed;
    }
  }
}
