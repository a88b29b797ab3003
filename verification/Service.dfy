/**
 * The scheduler as a whole: callers and workers on the queue, each worker's attempts on the endpoints, and
 * the loop that decides whether another attempt follows. A worker selects only for a request that it
 * holds, one attempt at a time, and finishes only between attempts.
 */
module Service {
  import opened Metrics
  import PriorityQueue
  import Endpoint
  import Router
  import S = Scheduler
  import F = Fleet
  import R = RetryLoop

  type Worker = nat

  /** The request that a worker handles, and what its completed attempts observed. */
  datatype Job = Job(req: R.Request, seen: seq<R.Observation>)

  datatype State = State(queue: S.State, fleet: F.State, jobs: map<Worker, Job>)

  datatype Setting = Setting(limits: PriorityQueue.Limits, th: Endpoint.Thresholds, backend: R.Backend)

  datatype Step =
    | Caller(call: S.Step)
    | Pop(worker: Worker, req: R.Request)
    | Attempt(worker: Worker, route: Router.RouteRequest, now: int, high: int)
    | Complete(worker: Worker, transfer: R.Transfer, latency: int, now: int)
    | Finish(worker: Worker, last: R.Observation)
    | Upkeep(change: F.Step)

  const INITIAL := State(S.INITIAL, F.INITIAL, map[])

  // ----- One job -----

  predicate QuietSoFar(b: R.Backend, job: Job) {
    forall i :: 0 <= i < |job.seen| ==> R.Quiet(job.req, job.seen[i], b)
  }

  /** Another attempt may follow. */
  predicate MayAttempt(b: R.Backend, job: Job) {
    |job.seen| <= job.req.maxRetries && QuietSoFar(b, job)
  }

  /** The loop ends: the last attempt decided, or what is seen next allows no other one. */
  predicate Over(b: R.Backend, job: Job, last: R.Observation) {
    MayAttempt(b, job) ==> last.stopping || last.deadline || !last.endpoint
  }

  function Env(seen: seq<R.Observation>, last: R.Observation): nat -> R.Observation {
    (k: nat) => if k < |seen| then seen[k] else last
  }

  function OutcomeOf(b: R.Backend, job: Job, last: R.Observation, stopped: bool): Outcome {
    R.Handle(job.req, Env(job.seen, last), b, stopped).outcome
  }

  function Made(transfer: R.Transfer): R.Observation { R.Observation(false, false, true, transfer) }

  // ----- The machine -----

  /** What the callers do on the queue, and what the health thread and reloads do to the endpoints. */
  predicate ByCaller(step: S.Step) { !step.PopNext? && !step.Finish? }

  predicate ByUpkeep(step: F.Step) { !step.Select? && !step.Report? }

  function ReportOf(g: Setting, s: State, w: Worker, transfer: R.Transfer, latency: int, now: int): F.Step
    requires w in s.jobs
  {
    F.Report(w, R.Call(s.jobs[w].req, transfer, g.backend).ok, latency, now)
  }

  function FinishOf(g: Setting, s: State, w: Worker, last: R.Observation): S.Step
    requires w in s.jobs
  {
    S.Finish(w, OutcomeOf(g.backend, s.jobs[w], last, s.queue.stopping))
  }

  predicate Enabled(g: Setting, s: State, step: Step) {
    match step
    case Caller(call) => ByCaller(call) && S.Enabled(s.queue, call)
    case Pop(w, _) => w !in s.jobs && S.Enabled(s.queue, S.PopNext(w))
    case Attempt(w, route, now, high) =>
      w in s.jobs && MayAttempt(g.backend, s.jobs[w]) && F.Enabled(s.fleet, F.Select(w, route, now, high))
    case Complete(w, transfer, latency, now) =>
      w in s.jobs && F.Enabled(s.fleet, ReportOf(g, s, w, transfer, latency, now))
    case Finish(w, last) =>
      w in s.jobs && w !in s.fleet.attempts && Over(g.backend, s.jobs[w], last)
      && S.Enabled(s.queue, FinishOf(g, s, w, last))
    case Upkeep(change) => ByUpkeep(change) && F.Enabled(s.fleet, change)
  }

  /** The step of the queue, if this is one. */
  function OnQueue(g: Setting, s: State, step: Step): seq<S.Step>
    requires Enabled(g, s, step)
  {
    match step
    case Caller(call) => [call]
    case Pop(w, _) => [S.PopNext(w)]
    case Finish(w, last) => [FinishOf(g, s, w, last)]
    case _ => []
  }

  /** The step of the endpoints, if this is one. */
  function OnFleet(g: Setting, s: State, step: Step): seq<F.Step>
    requires Enabled(g, s, step)
  {
    match step
    case Attempt(w, route, now, high) => [F.Select(w, route, now, high)]
    case Complete(w, transfer, latency, now) => [ReportOf(g, s, w, transfer, latency, now)]
    case Upkeep(change) => [change]
    case _ => []
  }

  function Jobs(s: State, step: Step): map<Worker, Job> {
    match step
    case Pop(w, req) => s.jobs[w := Job(req, [])]
    case Complete(w, transfer, _, _) =>
      if w in s.jobs then s.jobs[w := Job(s.jobs[w].req, s.jobs[w].seen + [Made(transfer)])] else s.jobs
    case Finish(w, _) => s.jobs - {w}
    case _ => s.jobs
  }

  function Next(g: Setting, s: State, step: Step): State
    requires Enabled(g, s, step)
  {
    State(
      match step
      case Caller(call) => S.Next(g.limits, s.queue, call)
      case Pop(w, _) => S.Next(g.limits, s.queue, S.PopNext(w))
      case Finish(w, last) => S.Next(g.limits, s.queue, FinishOf(g, s, w, last))
      case _ => s.queue,
      match step
      case Attempt(w, route, now, high) => F.Next(g.th, s.fleet, F.Select(w, route, now, high))
      case Complete(w, transfer, latency, now) => F.Next(g.th, s.fleet, ReportOf(g, s, w, transfer, latency, now))
      case Upkeep(change) => F.Next(g.th, s.fleet, change)
      case _ => s.fleet,
      Jobs(s, step))
  }

  ghost predicate Legal(g: Setting, s: State, steps: seq<Step>)
    decreases steps
  {
    steps != [] ==> Enabled(g, s, steps[0]) && Legal(g, Next(g, s, steps[0]), steps[1..])
  }

  function Run(g: Setting, s: State, steps: seq<Step>): State
    requires Legal(g, s, steps)
    decreases steps
  {
    if steps == [] then s else Run(g, Next(g, s, steps[0]), steps[1..])
  }

  // ----- Every run is a run of each part -----

  function QueueSteps(g: Setting, s: State, steps: seq<Step>): seq<S.Step>
    requires Legal(g, s, steps)
    decreases steps
  {
    if steps == [] then [] else OnQueue(g, s, steps[0]) + QueueSteps(g, Next(g, s, steps[0]), steps[1..])
  }

  function FleetSteps(g: Setting, s: State, steps: seq<Step>): seq<F.Step>
    requires Legal(g, s, steps)
    decreases steps
  {
    if steps == [] then [] else OnFleet(g, s, steps[0]) + FleetSteps(g, Next(g, s, steps[0]), steps[1..])
  }

  lemma {:induction false} QueueRuns(g: Setting, s: State, steps: seq<Step>)
    requires Legal(g, s, steps)
    ensures S.Legal(g.limits, s.queue, QueueSteps(g, s, steps))
    ensures S.Run(g.limits, s.queue, QueueSteps(g, s, steps)) == Run(g, s, steps).queue
    decreases steps
  {
    hide S.Next, S.Enabled, F.Next, F.Enabled, R.Handle, R.Call;
    if steps != [] {
      var t := Next(g, s, steps[0]);
      QueueRuns(g, t, steps[1..]);
      var later := QueueSteps(g, t, steps[1..]);
      var now := OnQueue(g, s, steps[0]);
      if now == [] {
        assert now + later == later;
      } else {
        assert (now + later)[1..] == later && (now + later)[0] == now[0];
      }
    }
  }

  lemma {:induction false} FleetRuns(g: Setting, s: State, steps: seq<Step>)
    requires Legal(g, s, steps)
    ensures F.Legal(g.th, s.fleet, FleetSteps(g, s, steps))
    ensures F.Run(g.th, s.fleet, FleetSteps(g, s, steps)) == Run(g, s, steps).fleet
    decreases steps
  {
    hide S.Next, S.Enabled, F.Next, F.Enabled, R.Handle, R.Call;
    if steps != [] {
      var t := Next(g, s, steps[0]);
      FleetRuns(g, t, steps[1..]);
      var later := FleetSteps(g, t, steps[1..]);
      var now := OnFleet(g, s, steps[0]);
      if now == [] {
        assert now + later == later;
      } else {
        assert (now + later)[1..] == later && (now + later)[0] == now[0];
      }
    }
  }

  // ----- Pairing -----

  /** Only the last completed attempt may have decided; one in flight follows quiet ones only. */
  ghost predicate Progress(b: R.Backend, job: Job, attempting: bool) {
    && (forall i :: 0 <= i < |job.seen| ==>
          job.seen[i] == Made(job.seen[i].transfer) && (i < |job.seen| - 1 ==> R.Quiet(job.req, job.seen[i], b)))
    && (attempting ==> MayAttempt(b, job))
    && (|job.seen| > 0 ==> |job.seen| - 1 <= job.req.maxRetries)
  }

  /** Workers with a job are those that hold a request, and only they have attempts in flight. */
  ghost predicate Paired(g: Setting, s: State) {
    && s.jobs.Keys == s.queue.held.Keys
    && s.fleet.attempts.Keys <= s.jobs.Keys
    && forall w :: w in s.jobs ==> Progress(g.backend, s.jobs[w], w in s.fleet.attempts)
  }

  lemma QueueFrame(limits: PriorityQueue.Limits, q: S.State, step: S.Step)
    requires S.Enabled(q, step)
    ensures S.Next(limits, q, step).held.Keys
            == if step.PopNext? then q.held.Keys + {step.worker}
               else if step.Finish? then q.held.Keys - {step.worker} else q.held.Keys
  {
    hide PriorityQueue.Pop, PriorityQueue.Admission;
  }

  lemma FleetFrame(th: Endpoint.Thresholds, f: F.State, step: F.Step)
    requires F.Enabled(f, step)
    ensures var before, after := f.attempts.Keys, F.Next(th, f, step).attempts.Keys;
      if step.Select? then after == before || after == before + {step.worker}
      else if step.Report? then after == before - {step.worker} && step.worker in before
      else after == before
  {
    hide F.Picked, F.Surveyed, F.Take, F.GiveBack, F.Check, F.Installed, F.CommittedAll;
  }

  /** Completing an attempt that followed quiet ones. */
  lemma CompleteProgress(b: R.Backend, job: Job, transfer: R.Transfer)
    requires Progress(b, job, true)
    ensures Progress(b, Job(job.req, job.seen + [Made(transfer)]), false)
  {
    hide R.Quiet;
  }

  lemma PairedQueue(g: Setting, s: State, step: Step)
    requires Paired(g, s) && Enabled(g, s, step) && OnQueue(g, s, step) != []
    ensures Paired(g, Next(g, s, step))
  {
    QueueFrame(g.limits, s.queue, OnQueue(g, s, step)[0]);
    hide S.Next, S.Enabled, F.Enabled, R.Handle, R.Call, R.Quiet;
  }

  lemma PairedAttempt(g: Setting, s: State, w: Worker, route: Router.RouteRequest, now: int, high: int)
    requires Paired(g, s) && Enabled(g, s, Attempt(w, route, now, high))
    ensures Paired(g, Next(g, s, Attempt(w, route, now, high)))
  {
    FleetFrame(g.th, s.fleet, F.Select(w, route, now, high));
    AttemptProgress(g.backend, s.jobs[w]);
    hide F.Next, F.Enabled, Progress, MayAttempt;
  }

  lemma PairedComplete(g: Setting, s: State, w: Worker, transfer: R.Transfer, latency: int, now: int)
    requires Paired(g, s) && Enabled(g, s, Complete(w, transfer, latency, now))
    ensures Paired(g, Next(g, s, Complete(w, transfer, latency, now)))
  {
    FleetFrame(g.th, s.fleet, ReportOf(g, s, w, transfer, latency, now));
    CompleteProgress(g.backend, s.jobs[w], transfer);
    hide F.Next, F.Enabled, Progress, Made, R.Call;
  }

  lemma PairedFleet(g: Setting, s: State, step: Step)
    requires Paired(g, s) && Enabled(g, s, step) && OnFleet(g, s, step) != []
    ensures Paired(g, Next(g, s, step))
  {
    match step
    case Attempt(w, route, now, high) => PairedAttempt(g, s, w, route, now, high);
    case Complete(w, transfer, latency, now) => PairedComplete(g, s, w, transfer, latency, now);
    case Upkeep(change) =>
      FleetFrame(g.th, s.fleet, change);
      hide F.Next, F.Enabled, Progress;
  }

  lemma AttemptProgress(b: R.Backend, job: Job)
    requires Progress(b, job, false) && MayAttempt(b, job)
    ensures Progress(b, job, true)
  {
  }

  lemma {:induction false} PairedRun(g: Setting, s: State, steps: seq<Step>)
    requires Paired(g, s) && Legal(g, s, steps)
    ensures Paired(g, Run(g, s, steps))
    decreases steps
  {
    hide Paired, Next, Enabled;
    if steps != [] {
      PairedStep(g, s, steps[0]);
      PairedRun(g, Next(g, s, steps[0]), steps[1..]);
    }
  }

  lemma PairedStep(g: Setting, s: State, step: Step)
    requires Paired(g, s) && Enabled(g, s, step)
    ensures Paired(g, Next(g, s, step))
  {
    var onQueue, onFleet := OnQueue(g, s, step), OnFleet(g, s, step);
    assert onQueue != [] || onFleet != [];
    hide Paired, Next, Enabled, OnQueue, OnFleet;
    if onQueue != [] {
      PairedQueue(g, s, step);
    } else {
      PairedFleet(g, s, step);
    }
  }

  // ----- The loop agrees with its specification -----

  /** After attempts of which only the last may have decided, the loop makes no other one if it is over. */
  lemma {:induction false} AttemptsMade(
    b: R.Backend, job: Job, last: R.Observation, env: nat -> R.Observation, k: nat, error: string)
    requires Progress(b, job, false) && Over(b, job, last) && k <= |job.seen|
    requires env == Env(job.seen, last)
    requires k < |job.seen| || MayAttempt(b, job) || k > job.req.maxRetries
    ensures R.Attempts(job.req, env, b, k, error).attempts == |job.seen| - k
    decreases |job.seen| - k
  {
    R.AttemptsUnfold(job.req, env, b, k, error);
    hide R.Attempts, R.Call;
    if k < |job.seen| {
      var c := R.Call(job.req, env(k).transfer, b);
      if !c.ok && !c.started {
        QuietToEnd(b, job, k);
        AttemptsMade(b, job, last, env, k + 1, c.error);
      }
    }
  }

  lemma QuietToEnd(b: R.Backend, job: Job, k: nat)
    requires Progress(b, job, false) && k < |job.seen| && R.Quiet(job.req, job.seen[k], b)
    ensures k + 1 < |job.seen| || MayAttempt(b, job) || k + 1 > job.req.maxRetries
  {
    hide R.Quiet;
  }

  // ----- Main results -----

  lemma {:induction false} KeysCount<K, V, W>(a: map<K, V>, b: map<K, W>)
    requires a.Keys <= b.Keys
    ensures |a| <= |b|
  {
    assert |b.Keys - a.Keys| == |b.Keys| - |a.Keys|;
    assert |a.Keys| == |a| && |b.Keys| == |b|;
  }

  /**
   * Every run of the whole service is a run of the queue and a run of the endpoints, so that what holds of
   * each part holds here; and attempts are in flight only for requests that workers hold, one each.
   */
  lemma PartsAgree(g: Setting, steps: seq<Step>)
    requires Legal(g, INITIAL, steps)
    ensures var s := Run(g, INITIAL, steps);
      && S.Legal(g.limits, S.INITIAL, QueueSteps(g, INITIAL, steps))
      && S.Run(g.limits, S.INITIAL, QueueSteps(g, INITIAL, steps)) == s.queue
      && F.Legal(g.th, F.INITIAL, FleetSteps(g, INITIAL, steps))
      && F.Run(g.th, F.INITIAL, FleetSteps(g, INITIAL, steps)) == s.fleet
      && s.jobs.Keys == s.queue.held.Keys
      && s.fleet.attempts.Keys <= s.queue.held.Keys && |s.fleet.attempts| <= |s.queue.held|
  {
    QueueRuns(g, INITIAL, steps);
    FleetRuns(g, INITIAL, steps);
    PairedRun(g, INITIAL, steps);
    var s := Run(g, INITIAL, steps);
    KeysCount(s.fleet.attempts, s.queue.held);
  }

  lemma FinishAt(g: Setting, s: State, w: Worker, last: R.Observation)
    requires Paired(g, s) && Enabled(g, s, Finish(w, last))
    ensures var job := s.jobs[w];
      var handled := R.Handle(job.req, Env(job.seen, last), g.backend, s.queue.stopping);
      && handled.attempts == |job.seen|
      && |job.seen| <= (if job.req.maxRetries >= 0 then job.req.maxRetries + 1 else 0)
      && w in s.queue.held
      && Next(g, s, Finish(w, last)).queue.metrics == Recorded(s.queue.metrics, handled.outcome)
      && (job.req.enoutput && !handled.outcome.Dropped? ==> R.CompleteTrace(job.req, handled.out))
  {
    var job := s.jobs[w];
    var env := Env(job.seen, last);
    assert Progress(g.backend, job, false);
    StartCounts(g.backend, job);
    AttemptsMade(g.backend, job, last, env, 0, "");
    R.AttemptsBounded(job.req, env, g.backend, 0, "");
    if job.req.enoutput {
      R.ClientTrace(job.req, env, g.backend, s.queue.stopping);
    }
    hide R.Attempts, R.CompleteTrace, R.Call, Recorded, Progress;
  }

  lemma StartCounts(b: R.Backend, job: Job)
    ensures 0 < |job.seen| || MayAttempt(b, job) || 0 > job.req.maxRetries
  {
  }

  /**
   * When a worker finishes, in any run, its attempts - each one selection and one report - are those of the
   * retry loop on what they observed: as many, and with the outcome that the metrics record.
   */
  lemma FinishMatchesLoop(g: Setting, steps: seq<Step>, w: Worker, last: R.Observation)
    requires Legal(g, INITIAL, steps) && Enabled(g, Run(g, INITIAL, steps), Finish(w, last))
    ensures var s := Run(g, INITIAL, steps);
      var job := s.jobs[w];
      var handled := R.Handle(job.req, Env(job.seen, last), g.backend, s.queue.stopping);
      && handled.attempts == |job.seen|
      && |job.seen| <= (if job.req.maxRetries >= 0 then job.req.maxRetries + 1 else 0)
      && w in s.queue.held
      && Next(g, s, Finish(w, last)).queue.metrics == Recorded(s.queue.metrics, handled.outcome)
      && (job.req.enoutput && !handled.outcome.Dropped? ==> R.CompleteTrace(job.req, handled.out))
  {
    PairedRun(g, INITIAL, steps);
    FinishAt(g, Run(g, INITIAL, steps), w, last);
    hide *;
  }

  lemma GoesOn(g: Setting, s: State, w: Worker, last: R.Observation)
    requires Paired(g, s) && w in s.queue.held && last.stopping
    requires w in s.fleet.attempts ==> s.fleet.attempts[w] in s.fleet.objects
    ensures Enabled(g, s, Complete(w, R.NoHandle, 0, s.fleet.clock)) || Enabled(g, s, Finish(w, last))
  {
    hide R.Attempts, R.Call, Progress, MayAttempt;
  }

  /** No run leaves a worker stuck with a request: it can complete its attempt, or finish once a stop is seen. */
  lemma WorkerGoesOn(g: Setting, steps: seq<Step>, w: Worker, last: R.Observation)
    requires Legal(g, INITIAL, steps) && w in Run(g, INITIAL, steps).queue.held && last.stopping
    ensures var s := Run(g, INITIAL, steps);
      Enabled(g, s, Complete(w, R.NoHandle, 0, s.fleet.clock)) || Enabled(g, s, Finish(w, last))
  {
    PairedRun(g, INITIAL, steps);
    AttemptsKnown(g, steps);
    GoesOn(g, Run(g, INITIAL, steps), w, last);
    hide *;
  }

  lemma AttemptsKnown(g: Setting, steps: seq<Step>)
    requires Legal(g, INITIAL, steps)
    ensures var f := Run(g, INITIAL, steps).fleet;
      forall w :: w in f.attempts ==> f.attempts[w] in f.objects
  {
    FleetRuns(g, INITIAL, steps);
    hide Run, Legal, FleetSteps, F.Run, F.Legal, F.Sound;
    F.RunKeeps(g.th, F.INITIAL, FleetSteps(g, INITIAL, steps));
  }
}
