/**
 * The pending queue of the shared scheduler: admission control, and the
 * nine-slot weighted class schedule with its best-in-class search.
 */
module PriorityQueue {
  import opened Sequences

  /** The two request fields that scheduling looks at. */
  datatype Request = Request(taskId: int, priority: int)

  datatype Limits = Limits(maxQueueSize: int, lowDropThreshold: int, highThreshold: int)

  datatype Class = High | Normal | Background

  datatype Verdict = Accepted | Refused(code: int)

  const NORMAL_PRIORITY := 4
  const QUEUE_FULL := -40
  const QUEUE_PRESSURE := -43
  const SLOTS := 9

  /** The weighted schedule: five high slots, three normal ones, one background slot. */
  function Scheduled(slot: nat): Class
    requires slot < SLOTS
  {
    if slot < 5 then High else if slot < 8 then Normal else Background
  }

  function ClassOf(priority: int, high: int): Class {
    if priority >= high then High
    else if priority >= NORMAL_PRIORITY then Normal
    else Background
  }

  predicate InClass(r: Request, c: Class, high: int) {
    ClassOf(r.priority, high) == c
  }

  /** `a` is served before `b` when both wait in the same class. */
  predicate Ahead(a: Request, b: Request) {
    a.priority > b.priority || (a.priority == b.priority && a.taskId < b.taskId)
  }

  ghost predicate Waits(pending: seq<Request>, c: Class, high: int) {
    exists r :: r in pending && InClass(r, c, high)
  }

  /** `i` is the request of class `c` that no other overtakes, the earliest queued among equals. */
  ghost predicate IsBest(pending: seq<Request>, c: Class, high: int, i: nat) {
    && i < |pending|
    && InClass(pending[i], c, high)
    && (forall j :: 0 <= j < |pending| && InClass(pending[j], c, high) ==> !Ahead(pending[j], pending[i]))
    && (forall j :: 0 <= j < i && InClass(pending[j], c, high) ==> Ahead(pending[i], pending[j]))
  }

  function BestIn(pending: seq<Request>, c: Class, high: int): (best: Option<nat>)
    ensures best.None? <==> !Waits(pending, c, high)
    ensures best.Some? ==> IsBest(pending, c, high, best.value)
  {
    if pending == [] then None
    else
      var n := |pending| - 1;
      var best := BestIn(pending[..n], c, high);
      assert forall r :: r in pending <==> r in pending[..n] || r == pending[n];
      if !InClass(pending[n], c, high) then best
      else if best.None? || Ahead(pending[n], pending[best.value]) then
        assert best.None? ==> forall j :: 0 <= j < n ==> pending[j] in pending[..n];
        Some(n)
      else best
  }

  lemma BestInPrefix(pending: seq<Request>, i: nat, c: Class, high: int)
    requires i < |pending|
    ensures BestIn(pending[..i + 1], c, high) ==
      var best := BestIn(pending[..i], c, high);
      if InClass(pending[i], c, high) && (best.None? || Ahead(pending[i], pending[best.value])) then Some(i) else best
  {
    assert pending[..i + 1][..i] == pending[..i];
  }

  /** The cursor walk: the first scheduled class, among the next `tries` slots, that has a request. */
  function Scan(pending: seq<Request>, slot: nat, tries: nat, high: int): (r: (nat, Option<nat>))
    ensures r.0 < SLOTS || (tries == 0 && r.0 == slot)
    ensures r.1.Some? ==> r.1.value < |pending|
    decreases tries
  {
    if tries == 0 then (slot, None)
    else
      var best := BestIn(pending, Scheduled(slot % SLOTS), high);
      var next := (slot + 1) % SLOTS;
      if best.Some? then (next, best) else Scan(pending, next, tries - 1, high)
  }

  datatype Queue = Queue(pending: seq<Request>, slot: nat)

  datatype Popped = Popped(request: Request, rest: Queue)

  function Pop(q: Queue, high: int): Popped
    requires q.pending != []
  {
    var (slot, best) := Scan(q.pending, q.slot, SLOTS, high);
    var i := if best.Some? then best.value else 0;
    Popped(q.pending[i], Queue(RemoveAt(q.pending, i), slot))
  }

  function Overload(limits: Limits): int {
    if limits.maxQueueSize > 0 then limits.maxQueueSize * 9 / 10 else 0
  }

  function Admission(limits: Limits, size: nat, priority: int): Verdict {
    if limits.maxQueueSize > 0 && size >= limits.maxQueueSize then Refused(QUEUE_FULL)
    else if Overload(limits) > 0 && size >= Overload(limits) && priority < limits.highThreshold then
      Refused(QUEUE_PRESSURE)
    else if limits.lowDropThreshold > 0 && size >= limits.lowDropThreshold && priority < NORMAL_PRIORITY then
      Refused(QUEUE_PRESSURE)
    else Accepted
  }

  /** Slots the cursor passes before it next stands on a slot of class `c`. */
  function Gap(slot: nat, c: Class): (g: nat)
    requires slot < SLOTS
    ensures g < Period(c)
    ensures g == 0 <==> Scheduled(slot) == c
  {
    match c
    case High => if slot < 5 then 0 else SLOTS - slot
    case Normal => if slot < 5 then 5 - slot else if slot < 8 then 0 else 6
    case Background => 8 - slot
  }

  /** The longest a non-empty class waits for its turn, counted in pops. */
  function Period(c: Class): nat {
    match c
    case High => 5
    case Normal => 7
    case Background => 9
  }

  lemma GapShrinks(slot: nat, c: Class)
    requires slot < SLOTS && Scheduled(slot) != c
    ensures Gap((slot + 1) % SLOTS, c) == Gap(slot, c) - 1
  {
  }

  /** A waiting class is either served, or strictly closer to its turn afterwards. */
  lemma {:induction false} ScanProgress(pending: seq<Request>, slot: nat, tries: nat, high: int, c: Class)
    requires slot < SLOTS
    requires Waits(pending, c, high)
    requires Gap(slot, c) < tries
    ensures var (next, best) := Scan(pending, slot, tries, high);
      && best.Some?
      && next < SLOTS
      && IsBest(pending, ClassOf(pending[best.value].priority, high), high, best.value)
      && (InClass(pending[best.value], c, high) || Gap(next, c) < Gap(slot, c))
    decreases tries
  {
    hide Ahead, Waits;
    if BestIn(pending, Scheduled(slot), high).None? {
      GapShrinks(slot, c);
      ScanProgress(pending, (slot + 1) % SLOTS, tries - 1, high, c);
    }
  }

  /**
   * Every pop of a non-empty queue finds its request through the schedule (the fall-back to the
   * queue front is never taken), takes the best of that request's class, and brings every other
   * waiting class closer to its turn.
   */
  lemma PopServesSchedule(q: Queue, high: int, c: Class) returns (i: nat)
    requires q.slot < SLOTS
    requires Waits(q.pending, c, high)
    ensures Scan(q.pending, q.slot, SLOTS, high).1 == Some(i)
    ensures IsBest(q.pending, ClassOf(q.pending[i].priority, high), high, i)
    ensures Pop(q, high).request == q.pending[i]
    ensures Pop(q, high).rest.pending == RemoveAt(q.pending, i)
    ensures Pop(q, high).rest.slot < SLOTS
    ensures InClass(q.pending[i], c, high) || Gap(Pop(q, high).rest.slot, c) < Gap(q.slot, c)
  {
    ScanProgress(q.pending, q.slot, SLOTS, high, c);
    hide Scan;
    i := Scan(q.pending, q.slot, SLOTS, high).1.value;
  }

  /** Both at or above the high threshold, both from 4 up to it, or both below either. */
  predicate SameBand(p: int, q: int, high: int) {
    (p >= high <==> q >= high) && (p < high ==> (p >= 4 <==> q >= 4))
  }

  /**
   * In terms of the priorities themselves: no request of the same band as the one popped has a higher
   * priority, or the same one and an earlier task id.
   */
  lemma PopTakesBest(q: Queue, high: int)
    requires q.slot < SLOTS && q.pending != []
    ensures var best := Pop(q, high).request;
      && best in q.pending
      && forall x :: x in q.pending && SameBand(x.priority, best.priority, high) ==>
           x.priority < best.priority || (x.priority == best.priority && x.taskId >= best.taskId)
  {
    var first := q.pending[0];
    assert first in q.pending && InClass(first, ClassOf(first.priority, high), high);
    var i := PopServesSchedule(q, high, ClassOf(first.priority, high));
    hide Pop, Scan;
    var best := q.pending[i];
    forall x | x in q.pending && SameBand(x.priority, best.priority, high)
      ensures x.priority < best.priority || (x.priority == best.priority && x.taskId >= best.taskId)
    {
      var j :| 0 <= j < |q.pending| && q.pending[j] == x;
      assert InClass(q.pending[j], ClassOf(best.priority, high), high);
      assert !Ahead(q.pending[j], best);
    }
  }

  /**
   * How many requests may wait before one of this priority is turned away: each limit counts only if it is
   * set, and the smaller ones only for lower priorities.
   */
  ghost predicate Capacity(limits: Limits, priority: int, n: int) {
    || (n == limits.maxQueueSize && n > 0)
    || (10 * n <= 9 * limits.maxQueueSize < 10 * (n + 1) && n > 0 && priority < limits.highThreshold)
    || (n == limits.lowDropThreshold && n > 0 && priority < 4)
  }

  /** A request is refused exactly when a capacity of its priority is reached, and with -40 when the queue is full. */
  lemma AdmissionExact(limits: Limits, size: nat, priority: int)
    ensures Admission(limits, size, priority).Refused? <==> exists n :: Capacity(limits, priority, n) && size >= n
    ensures Admission(limits, size, priority) == Refused(-40) <==> 0 < limits.maxQueueSize <= size
    ensures Admission(limits, size, priority).Refused? ==> Admission(limits, size, priority).code in {-40, -43}
  {
    var verdict := Admission(limits, size, priority);
    if verdict.Refused? {
      assert || (Capacity(limits, priority, limits.maxQueueSize) && size >= limits.maxQueueSize)
             || (Capacity(limits, priority, Overload(limits)) && size >= Overload(limits))
             || (Capacity(limits, priority, limits.lowDropThreshold) && size >= limits.lowDropThreshold);
    }
    if n :| Capacity(limits, priority, n) && size >= n {
      assert n == limits.maxQueueSize || n == Overload(limits) || n == limits.lowDropThreshold;
    }
  }

  /** The queue as the workers and callers share it; each method is one region under the queue lock. */
  class RequestQueue {
    var pending: seq<Request>
    var slot: nat

    constructor ()
      ensures View() == Queue([], 0)
    {
      pending, slot := [], 0;
    }

    function View(): Queue
      reads this
    {
      Queue(pending, slot)
    }

    method FindBest(c: Class, high: int) returns (best: Option<nat>)
      ensures best == BestIn(pending, c, high)
    {
      best := None;
      hide InClass, Ahead, Waits;
      for i := 0 to |pending|
        invariant best == BestIn(pending[..i], c, high)
      {
        BestInPrefix(pending, i, c, high);
        if InClass(pending[i], c, high) && (best.None? || Ahead(pending[i], pending[best.value])) {
          best := Some(i);
        }
      }
      assert pending[..|pending|] == pending;
    }

    method Admit(limits: Limits, request: Request) returns (verdict: Verdict)
      modifies this
      ensures verdict == Admission(limits, |old(pending)|, request.priority)
      ensures View() == Queue(if verdict.Accepted? then old(pending) + [request] else old(pending), old(slot))
    {
      var size := |pending|;
      var overload := if limits.maxQueueSize > 0 then limits.maxQueueSize * 9 / 10 else 0;
      if limits.maxQueueSize > 0 && size >= limits.maxQueueSize {
        verdict := Refused(QUEUE_FULL);
      } else if overload > 0 && size >= overload && request.priority < limits.highThreshold {
        verdict := Refused(QUEUE_PRESSURE);
      } else if limits.lowDropThreshold > 0 && size >= limits.lowDropThreshold && request.priority < NORMAL_PRIORITY {
        verdict := Refused(QUEUE_PRESSURE);
      } else {
        pending := pending + [request];
        verdict := Accepted;
      }
    }

    method PopNext(high: int) returns (request: Request)
      requires pending != []
      modifies this
      ensures Popped(request, View()) == Pop(old(View()), high)
    {
      var best: Option<nat> := None;
      var tries := 0;
      while tries < SLOTS && best.None?
        invariant tries <= SLOTS
        invariant pending == old(pending)
        invariant best.Some? ==> best.value < |pending|
        invariant Scan(pending, old(slot), SLOTS, high) ==
                  if best.Some? then (slot, best) else Scan(pending, slot, SLOTS - tries, high)
        decreases SLOTS - tries, best.None?
      {
        var target := Scheduled(slot % SLOTS);
        slot := (slot + 1) % SLOTS;
        best := FindBest(target, high);
        tries := tries + 1;
      }
      var i := if best.Some? then best.value else 0;
      request := pending[i];
      pending := pending[..i] + pending[i + 1..];
    }
  }
}
