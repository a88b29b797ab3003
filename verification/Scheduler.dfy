/**
 * The scheduler as a state machine: any number of callers and workers interleave at the regions
 * that run under the queue lock or the metrics lock, and at the atomic task-id counter.
 */
module Scheduler {
  import opened Sequences
  import opened PriorityQueue
  import opened Metrics

  type Worker = nat

  datatype State = State(
    counter: nat,                // the last task id handed out
    calls: set<Request>,         // have an id, have not yet taken the queue lock
    queue: Queue,
    counting: set<int>,          // queued, but not yet counted as accepted
    refusing: set<int>,          // refused, but not yet counted as refused
    refused: set<int>,
    held: map<Worker, Request>,
    finished: set<int>,
    dropped: set<int>,
    stopping: bool,
    metrics: Counters)

  datatype Step =
    | Issue(priority: int)
    | Admit(request: Request)
    | CountAccept(id: int)
    | CountRefusal(id: int)
    | Stop
    | PopNext(worker: Worker)
    | Finish(worker: Worker, outcome: Outcome)

  const INITIAL := State(0, {}, Queue([], 0), {}, {}, {}, map[], {}, {}, false, Counters(0, 0, 0, 0, 0))

  predicate Enabled(s: State, step: Step) {
    match step
    case Issue(_) => true
    case Admit(r) => r in s.calls
    case CountAccept(id) => id in s.counting
    case CountRefusal(id) => id in s.refusing
    case Stop => true
    case PopNext(w) => w !in s.held && s.queue.pending != []
    case Finish(w, outcome) => w in s.held && (outcome.Dropped? ==> s.stopping)
  }

  function Next(limits: Limits, s: State, step: Step): State
    requires Enabled(s, step)
  {
    match step
    case Issue(p) => s.(counter := s.counter + 1, calls := s.calls + {Request(s.counter + 1, p)})
    case Admit(r) =>
      var left := s.(calls := s.calls - {r});
      if Admission(limits, |s.queue.pending|, r.priority).Accepted? then
        left.(queue := s.queue.(pending := s.queue.pending + [r]), counting := s.counting + {r.taskId})
      else
        left.(refusing := s.refusing + {r.taskId})
    case CountAccept(id) =>
      s.(counting := s.counting - {id}, metrics := AcceptCounted(s.metrics))
    case CountRefusal(id) =>
      s.(refusing := s.refusing - {id}, refused := s.refused + {id}, metrics := RejectCounted(s.metrics))
    case Stop => s.(stopping := true)
    case PopNext(w) =>
      var popped := Pop(s.queue, limits.highThreshold);
      s.(queue := popped.rest, held := s.held[w := popped.request])
    case Finish(w, outcome) =>
      var id := s.held[w].taskId;
      var done := s.(held := s.held - {w}, metrics := Recorded(s.metrics, outcome));
      if outcome.Dropped? then done.(dropped := s.dropped + {id})
      else done.(finished := s.finished + {id})
  }

  ghost predicate Legal(limits: Limits, s: State, steps: seq<Step>)
    decreases steps
  {
    steps != [] ==> Enabled(s, steps[0]) && Legal(limits, Next(limits, s, steps[0]), steps[1..])
  }

  function Run(limits: Limits, s: State, steps: seq<Step>): State
    requires Legal(limits, s, steps)
    decreases steps
  {
    if steps == [] then s else Run(limits, Next(limits, s, steps[0]), steps[1..])
  }

  /** The requests that the pops of a run hand to workers, in order. */
  function Served(limits: Limits, s: State, steps: seq<Step>): seq<Request>
    requires Legal(limits, s, steps)
    decreases steps
  {
    if steps == [] then []
    else
      (if steps[0].PopNext? then [Pop(s.queue, limits.highThreshold).request] else [])
      + Served(limits, Next(limits, s, steps[0]), steps[1..])
  }

  // ----- The request ledger -----

  function Ids(rs: set<Request>): set<int> { set r | r in rs :: r.taskId }
  function Queued(rs: seq<Request>): set<int> { set r | r in rs :: r.taskId }
  function Carried(held: map<Worker, Request>): set<int> { set w | w in held :: held[w].taskId }

  ghost predicate DistinctIds(rs: seq<Request>) {
    forall i, j :: 0 <= i < j < |rs| ==> rs[i].taskId != rs[j].taskId
  }

  /** The ids `1..n` are spread over five places, each id in exactly one. */
  ghost predicate Split(n: nat, a: set<int>, b: set<int>, c: set<int>, d: set<int>, e: set<int>) {
    && a !! b !! c !! d !! e
    && forall id :: id in a + b + c + d + e <==> 1 <= id <= n
  }

  ghost predicate Placed(s: State) {
    Split(s.counter, Ids(s.calls), s.refusing + s.refused, Queued(s.queue.pending), Carried(s.held),
          s.finished + s.dropped)
  }

  /** No place holds an id twice. */
  ghost predicate Tidy(s: State) {
    && s.refusing !! s.refused
    && s.finished !! s.dropped
    && DistinctIds(s.queue.pending)
    && (forall a, b :: a in s.calls && b in s.calls && a.taskId == b.taskId ==> a == b)
    && (forall v, w :: v in s.held && w in s.held && s.held[v].taskId == s.held[w].taskId ==> v == w)
    && s.counting !! Ids(s.calls)
    && (forall id :: id in s.counting ==> id <= s.counter)
    && s.queue.slot < SLOTS
    && (s.dropped != {} ==> s.stopping)
  }

  /** Every id handed out so far is in exactly one of the five places, and in it once. */
  ghost predicate Partitioned(s: State) {
    Placed(s) && Tidy(s)
  }

  /** The metrics agree with the places, up to the calls that are between a decision and its count. */
  ghost predicate Balanced(s: State) {
    && s.metrics.total + |s.counting|
       == |s.queue.pending| + |s.held| + |s.finished| + |s.dropped|
    && s.metrics.success + s.metrics.failed == |s.finished| + s.metrics.queueRejects
    && s.metrics.queueRejects == |s.refused|
    && s.metrics.timeouts + s.metrics.queueRejects <= s.metrics.failed
  }

  lemma QueuedRemove(rs: seq<Request>, i: nat)
    requires i < |rs| && DistinctIds(rs)
    ensures DistinctIds(RemoveAt(rs, i))
    ensures Queued(RemoveAt(rs, i)) == Queued(rs) - {rs[i].taskId}
  {
  }

  lemma QueuedAppend(rs: seq<Request>, r: Request)
    ensures Queued(rs + [r]) == Queued(rs) + {r.taskId}
  {
  }

  /** What a pop does to the queue, in the terms the invariants use. */
  lemma PopTakes(q: Queue, high: int) returns (i: nat)
    requires q.slot < SLOTS && q.pending != []
    ensures i < |q.pending|
    ensures Pop(q, high).request == q.pending[i]
    ensures Pop(q, high).rest.pending == RemoveAt(q.pending, i)
    ensures Pop(q, high).rest.slot < SLOTS
  {
    hide Scan, Pop;
    var r := q.pending[0];
    assert r in q.pending && InClass(r, ClassOf(r.priority, high), high);
    i := PopServesSchedule(q, high, ClassOf(r.priority, high));
  }

  lemma SplitIssue(n: nat, a: set<int>, b: set<int>, c: set<int>, d: set<int>, e: set<int>)
    requires Split(n, a, b, c, d, e)
    ensures Split(n + 1, a + {n + 1}, b, c, d, e)
    ensures n + 1 !in a
  {
    assert forall id :: id in a + b + c + d + e ==> id <= n;
    assert a + {n + 1} + b + c + d + e == a + b + c + d + e + {n + 1};
  }

  lemma SplitRefuse(n: nat, a: set<int>, b: set<int>, c: set<int>, d: set<int>, e: set<int>, id: int)
    requires Split(n, a, b, c, d, e) && id in a
    ensures Split(n, a - {id}, b + {id}, c, d, e)
    ensures id !in b && id !in c && id <= n
  {
    assert id in a + b + c + d + e;
    assert a - {id} + (b + {id}) + c + d + e == a + b + c + d + e;
  }

  lemma SplitAccept(n: nat, a: set<int>, b: set<int>, c: set<int>, d: set<int>, e: set<int>, id: int)
    requires Split(n, a, b, c, d, e) && id in a
    ensures Split(n, a - {id}, b, c + {id}, d, e)
  {
    assert a - {id} + b + (c + {id}) + d + e == a + b + c + d + e;
  }

  lemma SplitPop(n: nat, a: set<int>, b: set<int>, c: set<int>, d: set<int>, e: set<int>, id: int)
    requires Split(n, a, b, c, d, e) && id in c
    ensures Split(n, a, b, c - {id}, d + {id}, e)
    ensures id !in d
  {
    assert a + b + (c - {id}) + (d + {id}) + e == a + b + c + d + e;
  }

  lemma SplitFinish(n: nat, a: set<int>, b: set<int>, c: set<int>, d: set<int>, e: set<int>, id: int)
    requires Split(n, a, b, c, d, e) && id in d
    ensures Split(n, a, b, c, d - {id}, e + {id})
    ensures id !in e
  {
    assert a + b + c + (d - {id}) + (e + {id}) == a + b + c + d + e;
  }

  lemma PartitionedIssue(limits: Limits, s: State, p: int)
    requires Partitioned(s)
    ensures Partitioned(Next(limits, s, Issue(p)))
  {
    var t := Next(limits, s, Issue(p));
    SplitIssue(s.counter, Ids(s.calls), s.refusing + s.refused, Queued(s.queue.pending), Carried(s.held),
               s.finished + s.dropped);
    hide Split;
    var issued := Request(s.counter + 1, p);
    assert Ids(t.calls) == Ids(s.calls) + {s.counter + 1} by { assert issued in t.calls; }
    assert forall r :: r in s.calls ==> r.taskId in Ids(s.calls);
  }

  lemma PartitionedAdmit(limits: Limits, s: State, r: Request)
    requires Partitioned(s) && r in s.calls
    ensures Partitioned(Next(limits, s, Admit(r)))
  {
    var t := Next(limits, s, Admit(r));
    assert r.taskId in Ids(s.calls);
    SplitRefuse(s.counter, Ids(s.calls), s.refusing + s.refused, Queued(s.queue.pending), Carried(s.held),
                s.finished + s.dropped, r.taskId);
    SplitAccept(s.counter, Ids(s.calls), s.refusing + s.refused, Queued(s.queue.pending), Carried(s.held),
                s.finished + s.dropped, r.taskId);
    hide Split, Admission;
    assert Ids(t.calls) == Ids(s.calls) - {r.taskId};
    QueuedAppend(s.queue.pending, r);
    assert (s.refusing + {r.taskId}) + s.refused == (s.refusing + s.refused) + {r.taskId};
    assert forall x :: x in s.queue.pending ==> x.taskId in Queued(s.queue.pending);
  }

  lemma TidyPop(limits: Limits, s: State, w: Worker, i: nat)
    requires Tidy(s) && Enabled(s, PopNext(w)) && i < |s.queue.pending|
    requires s.queue.pending[i].taskId !in Carried(s.held)
    requires var t := Next(limits, s, PopNext(w));
      && t.queue.pending == RemoveAt(s.queue.pending, i)
      && t.queue.slot < SLOTS
      && t.held == s.held[w := s.queue.pending[i]]
    ensures Tidy(Next(limits, s, PopNext(w)))
  {
    hide Pop, RemoveAt;
    QueuedRemove(s.queue.pending, i);
    assert forall v :: v in s.held ==> s.held[v].taskId in Carried(s.held);
  }

  lemma PartitionedPop(limits: Limits, s: State, w: Worker)
    requires Partitioned(s) && Enabled(s, PopNext(w))
    ensures Partitioned(Next(limits, s, PopNext(w)))
  {
    CursorInRange(s);
    var i := PopTakes(s.queue, limits.highThreshold);
    var r := s.queue.pending[i];
    assert r.taskId in Queued(s.queue.pending);
    SplitPop(s.counter, Ids(s.calls), s.refusing + s.refused, Queued(s.queue.pending), Carried(s.held),
             s.finished + s.dropped, r.taskId);
    hide Pop, Split, Tidy, RemoveAt;
    QueuedRemove(s.queue.pending, i);
    CarriedAdd(s.held, w, r);
    TidyPop(limits, s, w, i);
  }

  lemma CarriedAdd(held: map<Worker, Request>, w: Worker, r: Request)
    requires w !in held
    ensures Carried(held[w := r]) == Carried(held) + {r.taskId}
  {
    var more := held[w := r];
    assert more[w] == r;
    forall id | id in Carried(held) ensures id in Carried(more) {
      var v :| v in held && held[v].taskId == id;
      assert more[v] == held[v];
    }
  }

  lemma CarriedDrop(held: map<Worker, Request>, w: Worker)
    requires w in held
    requires forall v :: v in held && held[v].taskId == held[w].taskId ==> v == w
    ensures Carried(held - {w}) == Carried(held) - {held[w].taskId}
  {
    var less := held - {w};
    forall id | id in Carried(held) && id != held[w].taskId ensures id in Carried(less) {
      var v :| v in held && held[v].taskId == id;
      assert less[v] == held[v];
    }
  }

  lemma PartitionedFinish(limits: Limits, s: State, w: Worker, outcome: Outcome)
    requires Partitioned(s) && Enabled(s, Finish(w, outcome))
    ensures Partitioned(Next(limits, s, Finish(w, outcome)))
  {
    var id := s.held[w].taskId;
    assert id in Carried(s.held);
    SplitFinish(s.counter, Ids(s.calls), s.refusing + s.refused, Queued(s.queue.pending), Carried(s.held),
                s.finished + s.dropped, id);
    hide Split;
    CarriedDrop(s.held, w);
    assert (s.finished + {id}) + s.dropped == (s.finished + s.dropped) + {id};
    assert s.finished + (s.dropped + {id}) == (s.finished + s.dropped) + {id};
  }

  lemma PartitionedStep(limits: Limits, s: State, step: Step)
    requires Partitioned(s) && Enabled(s, step)
    ensures Partitioned(Next(limits, s, step))
  {
    hide Split;
    match step
    case Issue(p) => PartitionedIssue(limits, s, p);
    case Admit(r) => PartitionedAdmit(limits, s, r);
    case PopNext(w) => PartitionedPop(limits, s, w);
    case Finish(w, outcome) => PartitionedFinish(limits, s, w, outcome);
    case CountRefusal(id) =>
      assert (s.refusing - {id}) + (s.refused + {id}) == s.refusing + s.refused;
    case _ =>
  }

  lemma CursorInRange(s: State)
    requires Partitioned(s)
    ensures s.queue.slot < SLOTS && DistinctIds(s.queue.pending)
  {
  }

  lemma CallIsNew(s: State, r: Request)
    requires Partitioned(s) && r in s.calls
    ensures r.taskId !in s.counting
  {
  }

  lemma HeldIsOpen(s: State, w: Worker)
    requires Partitioned(s) && w in s.held
    ensures s.held[w].taskId !in s.finished && s.held[w].taskId !in s.dropped
  {
  }

  lemma RefusalIsNew(s: State, id: int)
    requires Partitioned(s) && id in s.refusing
    ensures id !in s.refused
  {
  }

  lemma BalancedPop(limits: Limits, s: State, w: Worker)
    requires Partitioned(s) && Balanced(s) && Enabled(s, PopNext(w))
    ensures Balanced(Next(limits, s, PopNext(w)))
  {
    hide Partitioned, Pop;
    var t := Next(limits, s, PopNext(w));
    CursorInRange(s);
    var i := PopTakes(s.queue, limits.highThreshold);
    assert t.held.Keys == s.held.Keys + {w};
    assert |t.held.Keys| == |t.held|;
  }

  lemma FinishFrame(limits: Limits, s: State, w: Worker, outcome: Outcome)
    requires Enabled(s, Finish(w, outcome))
    requires s.held[w].taskId !in s.finished && s.held[w].taskId !in s.dropped
    ensures var t := Next(limits, s, Finish(w, outcome));
      && t.metrics == Recorded(s.metrics, outcome)
      && t.queue == s.queue && t.counting == s.counting && t.refused == s.refused
      && |t.held| == |s.held| - 1
      && |t.finished| == |s.finished| + (if outcome.Dropped? then 0 else 1)
      && |t.dropped| == |s.dropped| + (if outcome.Dropped? then 1 else 0)
  {
  }

  lemma BalancedFinish(limits: Limits, s: State, w: Worker, outcome: Outcome)
    requires Partitioned(s) && Balanced(s) && Enabled(s, Finish(w, outcome))
    ensures Balanced(Next(limits, s, Finish(w, outcome)))
  {
    hide Partitioned, Next;
    HeldIsOpen(s, w);
    FinishFrame(limits, s, w, outcome);
  }

  lemma AdmitFrame(limits: Limits, s: State, r: Request)
    requires r in s.calls && r.taskId !in s.counting
    ensures var t := Next(limits, s, Admit(r));
      && t.metrics == s.metrics && t.held == s.held && t.finished == s.finished && t.dropped == s.dropped
      && t.refused == s.refused
      && |t.queue.pending| - |t.counting| == |s.queue.pending| - |s.counting|
  {
  }

  lemma BalancedAdmit(limits: Limits, s: State, r: Request)
    requires Partitioned(s) && Balanced(s) && r in s.calls
    ensures Balanced(Next(limits, s, Admit(r)))
  {
    hide Partitioned, Next;
    CallIsNew(s, r);
    AdmitFrame(limits, s, r);
  }

  lemma BalancedRefusal(limits: Limits, s: State, id: int)
    requires Partitioned(s) && Balanced(s) && id in s.refusing
    ensures Balanced(Next(limits, s, CountRefusal(id)))
  {
    hide Partitioned;
    RefusalIsNew(s, id);
  }

  lemma BalancedStep(limits: Limits, s: State, step: Step)
    requires Partitioned(s) && Balanced(s) && Enabled(s, step)
    ensures Balanced(Next(limits, s, step))
  {
    hide Partitioned, Pop, Admission;
    match step
    case Admit(r) => BalancedAdmit(limits, s, r);
    case CountRefusal(id) => BalancedRefusal(limits, s, id);
    case PopNext(w) => BalancedPop(limits, s, w);
    case Finish(w, outcome) => BalancedFinish(limits, s, w, outcome);
    case CountAccept(id) => assert |s.counting - {id}| == |s.counting| - 1;
    case Issue(_) =>
    case Stop =>
  }

  predicate Ends(step: Step, outcome: Outcome) { step.Finish? && step.outcome == outcome }

  /** Over any run, each counter grows by exactly the steps it counts. */
  lemma {:induction false} MetricsCount(limits: Limits, s: State, steps: seq<Step>)
    requires Legal(limits, s, steps)
    ensures var t := Run(limits, s, steps);
      && t.metrics.total == s.metrics.total + CountIf(steps, (e: Step) => e.CountAccept?)
      && t.metrics.queueRejects == s.metrics.queueRejects + CountIf(steps, (e: Step) => e.CountRefusal?)
      && t.metrics.success == s.metrics.success + CountIf(steps, (e: Step) => Ends(e, Succeeded))
      && t.metrics.timeouts == s.metrics.timeouts + CountIf(steps, (e: Step) => Ends(e, TimedOut))
      && t.metrics.failed == s.metrics.failed + CountIf(steps, (e: Step) => e.CountRefusal?)
           + CountIf(steps, (e: Step) => Ends(e, TimedOut)) + CountIf(steps, (e: Step) => Ends(e, Outcome.Failed))
    decreases steps
  {
    if steps != [] {
      CountHead(steps, (e: Step) => e.CountAccept?);
      CountHead(steps, (e: Step) => e.CountRefusal?);
      CountHead(steps, (e: Step) => Ends(e, Succeeded));
      CountHead(steps, (e: Step) => Ends(e, TimedOut));
      CountHead(steps, (e: Step) => Ends(e, Outcome.Failed));
      MetricsCount(limits, Next(limits, s, steps[0]), steps[1..]);
      MetricsNext(limits, s, steps[0]);
      hide CountIf, Next, Enabled;
    }
  }

  lemma MetricsNext(limits: Limits, s: State, step: Step)
    requires Enabled(s, step)
    ensures var m, n := s.metrics, Next(limits, s, step).metrics;
      && n.total == m.total + (if step.CountAccept? then 1 else 0)
      && n.queueRejects == m.queueRejects + (if step.CountRefusal? then 1 else 0)
      && n.success == m.success + (if Ends(step, Succeeded) then 1 else 0)
      && n.timeouts == m.timeouts + (if Ends(step, TimedOut) then 1 else 0)
      && n.failed == m.failed
           + (if step.CountRefusal? || Ends(step, TimedOut) || Ends(step, Outcome.Failed) then 1 else 0)
  {
    hide Pop, Admission;
  }

  // ----- Capacity reserved by class -----

  function Below(bound: int): Request -> bool { (r: Request) => r.priority < bound }

  /** The queue never exceeds its limit, nor the shares left to lower priorities. */
  ghost predicate Reserved(limits: Limits, pending: seq<Request>) {
    && (limits.maxQueueSize > 0 ==> |pending| <= limits.maxQueueSize)
    && (Overload(limits) > 0 ==> CountIf(pending, Below(limits.highThreshold)) <= Overload(limits))
    && (limits.lowDropThreshold > 0 ==> CountIf(pending, Below(NORMAL_PRIORITY)) <= limits.lowDropThreshold)
  }

  lemma ReservedPush(limits: Limits, pending: seq<Request>, r: Request)
    requires Reserved(limits, pending) && Admission(limits, |pending|, r.priority).Accepted?
    ensures Reserved(limits, pending + [r])
  {
    CountAppend(pending, r, Below(limits.highThreshold));
    CountAppend(pending, r, Below(NORMAL_PRIORITY));
    hide CountIf;
  }

  lemma ReservedRemove(limits: Limits, pending: seq<Request>, i: nat)
    requires Reserved(limits, pending) && i < |pending|
    ensures Reserved(limits, RemoveAt(pending, i))
  {
    CountRemove(pending, i, Below(limits.highThreshold));
    CountRemove(pending, i, Below(NORMAL_PRIORITY));
    hide CountIf;
  }

  lemma ReservedStep(limits: Limits, s: State, step: Step)
    requires Partitioned(s) && Reserved(limits, s.queue.pending) && Enabled(s, step)
    ensures Reserved(limits, Next(limits, s, step).queue.pending)
  {
    hide Partitioned, Pop, Reserved, Admission;
    match step
    case Admit(r) =>
      if Admission(limits, |s.queue.pending|, r.priority).Accepted? {
        ReservedPush(limits, s.queue.pending, r);
      }
    case PopNext(w) =>
      CursorInRange(s);
      var i := PopTakes(s.queue, limits.highThreshold);
      ReservedRemove(limits, s.queue.pending, i);
    case _ =>
  }

  ghost predicate Invariant(limits: Limits, s: State) {
    Partitioned(s) && Balanced(s) && Reserved(limits, s.queue.pending)
  }

  lemma {:induction false} InvariantKept(limits: Limits, s: State, steps: seq<Step>)
    requires Invariant(limits, s) && Legal(limits, s, steps)
    ensures Invariant(limits, Run(limits, s, steps))
    decreases steps
  {
    if steps != [] {
      PartitionedStep(limits, s, steps[0]);
      BalancedStep(limits, s, steps[0]);
      ReservedStep(limits, s, steps[0]);
      InvariantKept(limits, Next(limits, s, steps[0]), steps[1..]);
    }
  }

  /** The ledger and the reserves hold after every run of the scheduler. */
  lemma EveryRunKeepsLedger(limits: Limits, steps: seq<Step>)
    requires Legal(limits, INITIAL, steps)
    ensures Invariant(limits, Run(limits, INITIAL, steps))
    ensures var s := Run(limits, INITIAL, steps);
      s.counting == {} && !s.stopping ==>
        && s.metrics.total == |s.queue.pending| + |s.held| + |s.finished|
        && s.metrics.success + s.metrics.failed == |s.finished| + s.metrics.queueRejects
        && s.metrics.timeouts <= s.metrics.failed
  {
    InvariantKept(limits, INITIAL, steps);
  }

  /**
   * Whatever ran before and whatever the priority, a request is refused exactly when the queue has reached a
   * capacity that its priority is entitled to, and otherwise it waits at the back.
   */
  lemma AdmittedExactly(limits: Limits, steps: seq<Step>, r: Request)
    requires Legal(limits, INITIAL, steps + [Admit(r)])
    ensures Legal(limits, INITIAL, steps)
    ensures var s, t := Run(limits, INITIAL, steps), Run(limits, INITIAL, steps + [Admit(r)]);
      var full := exists n :: Capacity(limits, r.priority, n) && |s.queue.pending| >= n;
      && (r.taskId in t.refusing <==> full)
      && t.queue == s.queue.(pending := if full then s.queue.pending else s.queue.pending + [r])
  {
    LegalPrefix(limits, INITIAL, steps, [Admit(r)]);
    var s := Run(limits, INITIAL, steps);
    InvariantKept(limits, INITIAL, steps);
    assert r.taskId in Ids(s.calls);
    assert r.taskId !in s.refusing;
    AdmissionExact(limits, |s.queue.pending|, r.priority);
    hide Admission, Capacity, Invariant;
    LegalOne(limits, s, Admit(r));
  }

  /**
   * Whatever ran before, a request at or above both thresholds is refused exactly when the queue
   * holds as many requests as its limit allows.
   */
  lemma HighPriorityAdmitted(limits: Limits, steps: seq<Step>, r: Request)
    requires Legal(limits, INITIAL, steps + [Admit(r)])
    requires r.priority >= NORMAL_PRIORITY && r.priority >= limits.highThreshold
    requires limits.maxQueueSize > 0
    ensures Legal(limits, INITIAL, steps)
    ensures var s := Run(limits, INITIAL, steps);
      r.taskId in Run(limits, INITIAL, steps + [Admit(r)]).refusing
      <==> |s.queue.pending| == limits.maxQueueSize
  {
    AdmittedExactly(limits, steps, r);
    InvariantKept(limits, INITIAL, steps);
    var s := Run(limits, INITIAL, steps);
    assert |s.queue.pending| <= limits.maxQueueSize;
    hide Run, Legal, Invariant;
    assert Capacity(limits, r.priority, limits.maxQueueSize);
    assert forall n :: Capacity(limits, r.priority, n) ==> n == limits.maxQueueSize;
  }

  lemma LegalOne(limits: Limits, s: State, step: Step)
    ensures Legal(limits, s, [step]) <==> Enabled(s, step)
    ensures Enabled(s, step) ==> Run(limits, s, [step]) == Next(limits, s, step)
  {
    hide Next, Enabled;
    assert [step][1..] == [];
  }

  lemma {:induction false} LegalPrefix(limits: Limits, s: State, front: seq<Step>, back: seq<Step>)
    requires Legal(limits, s, front + back)
    ensures Legal(limits, s, front)
    ensures Legal(limits, Run(limits, s, front), back)
    ensures Run(limits, s, front + back) == Run(limits, Run(limits, s, front), back)
    decreases front
  {
    if front == [] {
      assert front + back == back;
    } else {
      assert (front + back)[1..] == front[1..] + back;
      LegalPrefix(limits, Next(limits, s, front[0]), front[1..], back);
    }
  }

  // ----- Bounded waiting -----

  /** The requests of `r`'s own class that are served before it. */
  function AheadOf(r: Request, high: int): Request -> bool {
    (x: Request) => InClass(x, ClassOf(r.priority, high), high) && Ahead(x, r)
  }

  ghost predicate NoneJumps(steps: seq<Step>, r: Request, high: int) {
    forall i :: 0 <= i < |steps| && steps[i].Admit? ==> !AheadOf(r, high)(steps[i].request)
  }

  predicate IsPop(step: Step) { step.PopNext? }

  /** `k` full periods of class `c`. */
  function Turns(k: nat, c: Class): (n: nat)
    ensures n == k * Period(c)
  {
    match c
    case High => 5 * k
    case Normal => 7 * k
    case Background => 9 * k
  }

  /** Pops that can still pass before `r`, from this queue. */
  function Patience(q: Queue, r: Request, high: int): nat
    requires q.slot < SLOTS
  {
    var c := ClassOf(r.priority, high);
    Turns(CountIf(q.pending, AheadOf(r, high)), c) + Gap(q.slot, c)
  }

  lemma PatienceBound(q: Queue, r: Request, high: int)
    requires q.slot < SLOTS
    ensures Patience(q, r, high) < WaitBound(q.pending, r, high)
  {
  }

  lemma PatienceShrinks(q: Queue, r: Request, high: int)
    requires q.slot < SLOTS && r in q.pending && DistinctIds(q.pending)
    ensures var popped := Pop(q, high);
      popped.request == r || (popped.rest.slot < SLOTS && r in popped.rest.pending
                              && Patience(popped.rest, r, high) < Patience(q, r, high))
  {
    hide Pop, Scan;
    var c := ClassOf(r.priority, high);
    var i := PopServesSchedule(q, high, c);
    var popped := Pop(q, high);
    if popped.request != r {
      var k :| 0 <= k < |q.pending| && q.pending[k] == r;
      assert popped.rest.pending[if k < i then k else k - 1] == r;
      CountRemove(q.pending, i, AheadOf(r, high));
      if InClass(popped.request, c, high) {
        assert Ahead(popped.request, r) by {
          assert !Ahead(r, q.pending[i]);
          assert q.pending[i].taskId != q.pending[k].taskId;
        }
      }
    }
  }

  /** One step either serves `r` or leaves it queued, with less patience left if the step was a pop. */
  lemma PatienceStep(limits: Limits, s: State, step: Step, r: Request)
    requires Partitioned(s) && Enabled(s, step) && r in s.queue.pending
    requires step.Admit? ==> !AheadOf(r, limits.highThreshold)(step.request)
    ensures
      || (step.PopNext? && Pop(s.queue, limits.highThreshold).request == r)
      || (var q := Next(limits, s, step).queue;
          && r in q.pending && q.slot < SLOTS
          && Patience(q, r, limits.highThreshold) + (if step.PopNext? then 1 else 0)
             <= Patience(s.queue, r, limits.highThreshold))
  {
    CursorInRange(s);
    hide Pop, Partitioned, Ahead;
    if step.PopNext? {
      PatienceShrinks(s.queue, r, limits.highThreshold);
    } else if step.Admit? {
      CountAppend(s.queue.pending, step.request, AheadOf(r, limits.highThreshold));
    }
  }

  lemma {:induction false} ServedInTime(limits: Limits, s: State, steps: seq<Step>, r: Request)
    returns (at: nat)
    requires Partitioned(s) && Legal(limits, s, steps) && r in s.queue.pending
    requires s.queue.slot < SLOTS
    requires NoneJumps(steps, r, limits.highThreshold)
    requires CountIf(steps, IsPop) > Patience(s.queue, r, limits.highThreshold)
    ensures at <= Patience(s.queue, r, limits.highThreshold)
    ensures at < |Served(limits, s, steps)| && Served(limits, s, steps)[at] == r
    decreases steps
  {
    hide Partitioned, Pop, Next, Patience, AheadOf;
    var t := Next(limits, s, steps[0]);
    CountHead(steps, IsPop);
    PartitionedStep(limits, s, steps[0]);
    PatienceStep(limits, s, steps[0], r);
    if steps[0].PopNext? && Pop(s.queue, limits.highThreshold).request == r {
      at := 0;
    } else {
      at := ServedInTime(limits, t, steps[1..], r);
      at := at + if steps[0].PopNext? then 1 else 0;
    }
  }

  /**
   * A pending request with `k` requests ahead of it in its class, and none arriving ahead of it
   * later, is handed to a worker within `Period * (k + 1)` pops of any run.
   */
  lemma BoundedWaiting(limits: Limits, before: seq<Step>, steps: seq<Step>, r: Request) returns (at: nat)
    requires Legal(limits, INITIAL, before)
    requires Legal(limits, Run(limits, INITIAL, before), steps)
    requires r in Run(limits, INITIAL, before).queue.pending
    requires NoneJumps(steps, r, limits.highThreshold)
    requires CountIf(steps, IsPop) >= WaitBound(Run(limits, INITIAL, before).queue.pending, r, limits.highThreshold)
    ensures at < WaitBound(Run(limits, INITIAL, before).queue.pending, r, limits.highThreshold)
    ensures at < |Served(limits, Run(limits, INITIAL, before), steps)|
    ensures Served(limits, Run(limits, INITIAL, before), steps)[at] == r
  {
    var s := Run(limits, INITIAL, before);
    InvariantKept(limits, INITIAL, before);
    CursorInRange(s);
    PatienceBound(s.queue, r, limits.highThreshold);
    hide *;
    at := ServedInTime(limits, s, steps, r);
  }

  function WaitBound(pending: seq<Request>, r: Request, high: int): nat {
    Turns(CountIf(pending, AheadOf(r, high)) + 1, ClassOf(r.priority, high))
  }

  // ----- Schedule shares -----

  /** All three classes have a request waiting whenever a worker pops. */
  ghost predicate AlwaysBusy(limits: Limits, s: State, steps: seq<Step>)
    requires Legal(limits, s, steps)
    decreases steps
  {
    steps != [] ==>
      && (steps[0].PopNext? ==> forall c: Class :: Waits(s.queue.pending, c, limits.highThreshold))
      && AlwaysBusy(limits, Next(limits, s, steps[0]), steps[1..])
  }

  /** The `n` slots from `slot` on, around the schedule. */
  function Window(slot: nat, n: nat): (w: seq<Class>)
    ensures |w| == n
    decreases n
  {
    if n == 0 then [] else [Scheduled(slot % SLOTS)] + Window(slot + 1, n - 1)
  }

  function Classes(rs: seq<Request>, high: int): (cs: seq<Class>)
    ensures |cs| == |rs|
  {
    if rs == [] then [] else [ClassOf(rs[0].priority, high)] + Classes(rs[1..], high)
  }

  lemma ScanFirst(pending: seq<Request>, slot: nat, tries: nat, high: int)
    requires slot < SLOTS && tries > 0
    requires Waits(pending, Scheduled(slot), high)
    ensures Scan(pending, slot, tries, high) == ((slot + 1) % SLOTS, BestIn(pending, Scheduled(slot), high))
  {
  }

  lemma BusyPop(q: Queue, high: int)
    requires q.slot < SLOTS && q.pending != []
    requires Waits(q.pending, Scheduled(q.slot), high)
    ensures ClassOf(Pop(q, high).request.priority, high) == Scheduled(q.slot)
    ensures Pop(q, high).rest.slot == (q.slot + 1) % SLOTS
  {
    ScanFirst(q.pending, q.slot, SLOTS, high);
    hide Scan, BestIn;
  }

  lemma WindowWraps(slot: nat, n: nat)
    requires slot < SLOTS
    ensures Window(slot, n + 1) == [Scheduled(slot)] + Window((slot + 1) % SLOTS, n)
  {
    WindowPeriodic(0, n);
    assert slot % SLOTS == slot;
  }

  lemma ClassesCons(r: Request, later: seq<Request>, high: int)
    ensures Classes([r] + later, high) == [ClassOf(r.priority, high)] + Classes(later, high)
  {
    hide ClassOf;
    assert ([r] + later)[1..] == later;
  }

  lemma {:induction false} ServedFollowsSchedule(limits: Limits, s: State, steps: seq<Step>)
    requires s.queue.slot < SLOTS && Legal(limits, s, steps) && AlwaysBusy(limits, s, steps)
    ensures |Served(limits, s, steps)| == CountIf(steps, IsPop)
    ensures Classes(Served(limits, s, steps), limits.highThreshold) == Window(s.queue.slot, CountIf(steps, IsPop))
    decreases steps
  {
    hide Pop, Classes, Window, CountIf, Admission;
    if steps != [] {
      var step, rest := steps[0], steps[1..];
      CountHead(steps, IsPop);
      var t := Next(limits, s, step);
      var later := Served(limits, t, rest);
      if step.PopNext? {
        var high := limits.highThreshold;
        var c, r := Scheduled(s.queue.slot), Pop(s.queue, high).request;
        BusyPop(s.queue, high);
        ServedFollowsSchedule(limits, t, rest);
        assert Served(limits, s, steps) == [r] + later;
        ClassesCons(r, later, high);
        WindowWraps(s.queue.slot, CountIf(rest, IsPop));
      } else {
        ServedFollowsSchedule(limits, t, rest);
        assert Served(limits, s, steps) == later;
      }
    }
  }

  lemma {:induction false} WindowSnoc(slot: nat, n: nat)
    ensures Window(slot, n + 1) == Window(slot, n) + [Scheduled((slot + n) % SLOTS)]
    decreases n
  {
    if n > 0 {
      WindowSnoc(slot + 1, n - 1);
    }
  }

  lemma {:induction false} WindowPeriodic(slot: nat, n: nat)
    ensures Window(slot + 9, n) == Window(slot, n)
    decreases n
  {
    if n > 0 {
      WindowPeriodic(slot + 1, n - 1);
    }
  }

  lemma Rotated(a: Class, m: seq<Class>)
    ensures multiset(m + [a]) == multiset([a] + m)
  {
  }

  lemma WindowRotates(slot: nat, n: nat)
    requires (slot + 1 + n) % SLOTS == slot % SLOTS
    ensures multiset(Window(slot + 1, n + 1)) == multiset(Window(slot, n + 1))
  {
    var a, m := Scheduled(slot % SLOTS), Window(slot + 1, n);
    assert Window(slot, n + 1) == [a] + m;
    WindowSnoc(slot + 1, n);
    assert Window(slot + 1, n + 1) == m + [a];
    hide *;
    Rotated(a, m);
  }

  /** Every window of nine slots holds one round of the schedule. */
  lemma {:induction false} WindowShares(slot: nat)
    ensures multiset(Window(slot, 9))
            == multiset{High, High, High, High, High, Normal, Normal, Normal, Background}
  {
    hide Window;
    if slot == 0 {
      FirstRound();
    } else {
      WindowShares(slot - 1);
      WindowRotates(slot - 1, 8);
    }
  }

  lemma FirstRound()
    ensures Window(0, 9) == [High, High, High, High, High, Normal, Normal, Normal, Background]
  {
  }

  lemma {:induction false} ClassCount(rs: seq<Request>, high: int, c: Class, p: Request -> bool)
    requires forall r :: p(r) <==> InClass(r, c, high)
    ensures multiset(Classes(rs, high))[c] == CountIf(rs, p)
  {
    if rs != [] {
      ClassCount(rs[1..], high, c, p);
      CountHead(rs, p);
      hide CountIf;
      var first := ClassOf(rs[0].priority, high);
      assert Classes(rs, high) == [first] + Classes(rs[1..], high);
      hide Classes;
    }
  }

  lemma NinePopsClasses(limits: Limits, before: seq<Step>, steps: seq<Step>)
    requires Legal(limits, INITIAL, before)
    requires Legal(limits, Run(limits, INITIAL, before), steps)
    requires AlwaysBusy(limits, Run(limits, INITIAL, before), steps)
    requires CountIf(steps, IsPop) == 9
    ensures var served := Served(limits, Run(limits, INITIAL, before), steps);
      multiset(Classes(served, limits.highThreshold))
      == multiset{High, High, High, High, High, Normal, Normal, Normal, Background}
  {
    InvariantKept(limits, INITIAL, before);
    var s := Run(limits, INITIAL, before);
    ServedFollowsSchedule(limits, s, steps);
    WindowShares(s.queue.slot);
  }

  function FromHigh(high: int): Request -> bool { (r: Request) => r.priority >= high }
  function FromFour(high: int): Request -> bool { (r: Request) => 4 <= r.priority < high }
  function BelowBoth(high: int): Request -> bool { (r: Request) => r.priority < 4 && r.priority < high }

  lemma BandShares(served: seq<Request>, high: int)
    requires multiset(Classes(served, high))
             == multiset{High, High, High, High, High, Normal, Normal, Normal, Background}
    ensures CountIf(served, FromHigh(high)) == 5 && CountIf(served, FromFour(high)) == 3
    ensures CountIf(served, BelowBoth(high)) == 1
  {
    ClassCount(served, high, High, FromHigh(high));
    ClassCount(served, high, Normal, FromFour(high));
    ClassCount(served, high, Background, BelowBoth(high));
    hide CountIf, Classes;
  }

  /**
   * Nine pops while every class stays busy serve five requests at or above the high threshold, three from 4 up
   * to it, and one below both.
   */
  lemma NinePopsShare(limits: Limits, before: seq<Step>, steps: seq<Step>)
    requires Legal(limits, INITIAL, before)
    requires Legal(limits, Run(limits, INITIAL, before), steps)
    requires AlwaysBusy(limits, Run(limits, INITIAL, before), steps)
    requires CountIf(steps, IsPop) == 9
    ensures var served := Served(limits, Run(limits, INITIAL, before), steps);
      && CountIf(served, FromHigh(limits.highThreshold)) == 5
      && CountIf(served, FromFour(limits.highThreshold)) == 3
      && CountIf(served, BelowBoth(limits.highThreshold)) == 1
  {
    NinePopsClasses(limits, before, steps);
    BandShares(Served(limits, Run(limits, INITIAL, before), steps), limits.highThreshold);
    hide *;
  }
}
