/**
 * The reactor loop: functors queued from any thread, the eventfd that wakes the loop, and the batch
 * that the loop swaps out and runs. Threads interleave between the mutex regions, and `loop()` may be
 * called again after it has returned.
 */
module EventLoop {
  type Functor = nat
  type Thread = nat

  /** Who calls: the loop's own thread, or another one. */
  datatype Source = Loop | Other(thread: Thread)

  /** Where the loop thread is. */
  datatype Place =
    | Outside             // not in loop(): not yet, or no longer
    | Testing             // about to test quit_
    | AtPoll              // about to block in poll
    | Handling            // running the handlers of active channels
    | BeforeSwap          // callingPendingFunctors_ is set, the swap is next
    | Running             // running the batch

  datatype State = State(
    place: Place,
    calling: bool,             // callingPendingFunctors_
    quit: bool,
    pending: seq<Functor>,     // pendingFunctors_
    batch: seq<Functor>,       // the part of the swapped batch that has not run yet
    executed: seq<Functor>,
    history: seq<Functor>,     // every push so far, in order
    eventfd: nat,
    waking: set<Thread>,       // other threads between their push or quit and their wakeup
    owes: bool,                // the loop thread is between its push and its wakeup
    polled: bool)              // this call of loop() has returned from a poll

  datatype Step =
    | OtherPushes(thread: Thread, functor: Functor)
    | OtherWakes(thread: Thread)
    | OtherQuits(thread: Thread)
    | LoopPushes(functor: Functor)
    | LoopWakes
    | LoopQuits
    | EnterLoop
    | TestQuit
    | PollReturns
    | ReadEventfd
    | BeginFunctors
    | Swap
    | RunFunctor
    | EndFunctors

  const INITIAL := State(Outside, false, false, [], [], [], [], 0, {}, false, false)

  /** The loop thread runs its own code or a callback, and not the machinery around them. */
  predicate InCallback(s: State) {
    !s.owes && (s.place.Outside? || s.place.Handling? || s.place.Running?)
  }

  predicate Enabled(s: State, step: Step) {
    match step
    case OtherPushes(t, _) => t !in s.waking
    case OtherWakes(t) => t in s.waking
    case OtherQuits(t) => t !in s.waking
    case LoopPushes(_) => InCallback(s)
    case LoopWakes => s.owes
    case LoopQuits => InCallback(s)
    case EnterLoop => s.place.Outside? && !s.owes
    case TestQuit => s.place.Testing?
    case PollReturns => s.place.AtPoll?
    case ReadEventfd => s.place.Handling? && !s.owes && s.eventfd > 0
    case BeginFunctors => s.place.Handling? && !s.owes
    case Swap => s.place.BeforeSwap?
    case RunFunctor => s.place.Running? && !s.owes && s.batch != []
    case EndFunctors => s.place.Running? && !s.owes && s.batch == []
  }

  function Queued(s: State, f: Functor): State {
    s.(pending := s.pending + [f], history := s.history + [f])
  }

  function Next(s: State, step: Step): State
    requires Enabled(s, step)
  {
    match step
    case OtherPushes(t, f) => Queued(s, f).(waking := s.waking + {t})
    case OtherWakes(t) => s.(waking := s.waking - {t}, eventfd := s.eventfd + 1)
    case OtherQuits(t) => s.(quit := true, waking := s.waking + {t})
    case LoopPushes(f) => Queued(s, f).(owes := s.calling)
    case LoopWakes => s.(owes := false, eventfd := s.eventfd + 1)
    case LoopQuits => s.(quit := true)
    case EnterLoop => s.(place := Testing, quit := false, polled := false)
    case TestQuit => s.(place := if s.quit then Outside else AtPoll)
    case PollReturns => s.(place := Handling, polled := true)
    case ReadEventfd => s.(eventfd := 0)
    case BeginFunctors => s.(place := BeforeSwap, calling := true)
    case Swap => s.(place := Running, batch := s.pending, pending := [])
    case RunFunctor => s.(batch := s.batch[1..], executed := s.executed + [s.batch[0]])
    case EndFunctors => s.(place := Testing, calling := false)
  }

  ghost predicate Legal(s: State, steps: seq<Step>)
    decreases steps
  {
    steps != [] ==> Enabled(s, steps[0]) && Legal(Next(s, steps[0]), steps[1..])
  }

  function Run(s: State, steps: seq<Step>): State
    requires Legal(s, steps)
    decreases steps
  {
    if steps == [] then s else Run(Next(s, steps[0]), steps[1..])
  }

  /** A run may be continued. */
  lemma {:induction false} RunExtends(s: State, steps: seq<Step>, step: Step)
    requires Legal(s, steps) && Enabled(Run(s, steps), step)
    ensures Legal(s, steps + [step]) && Run(s, steps + [step]) == Next(Run(s, steps), step)
    decreases steps
  {
    hide Enabled, Next;
    if steps == [] {
      assert [step][1..] == [];
    } else {
      assert (steps + [step])[1..] == steps[1..] + [step];
      RunExtends(Next(s, steps[0]), steps[1..], step);
    }
  }

  lemma OneStep(s: State, a: Step)
    requires Enabled(s, a)
    ensures Legal(s, [a]) && Run(s, [a]) == Next(s, a)
  {
    assert [a][1..] == [];
  }

  lemma TwoSteps(s: State, a: Step, b: Step)
    requires Enabled(s, a) && Enabled(Next(s, a), b)
    ensures Legal(s, [a, b]) && Run(s, [a, b]) == Next(Next(s, a), b)
  {
    OneStep(Next(s, a), b);
    assert [a, b][1..] == [b];
  }

  // ----- Order -----

  /** Nothing is lost, repeated or reordered between the queue and the execution. */
  ghost predicate Ordered(s: State) {
    && s.executed + s.batch + s.pending == s.history
    && (!s.place.Running? ==> s.batch == [])
    && (s.calling <==> s.place.BeforeSwap? || s.place.Running?)
  }

  lemma OrderedStep(s: State, step: Step)
    requires Ordered(s) && Enabled(s, step)
    ensures Ordered(Next(s, step))
  {
  }

  /** The functors that a run queues, in order, whoever queues them. */
  function Pushed(steps: seq<Step>): seq<Functor>
    decreases steps
  {
    if steps == [] then []
    else PushedBy(steps[0]) + Pushed(steps[1..])
  }

  function Underway(s: State): seq<Functor> { s.executed + s.batch }

  function PushedBy(step: Step): seq<Functor> {
    if step.OtherPushes? || step.LoopPushes? then [step.functor] else []
  }

  lemma BatchStep(s: State, step: Step)
    requires s.place.Running? && Enabled(s, step) && !step.EndFunctors?
    ensures var t := Next(s, step);
      t.place.Running? && Underway(t) == Underway(s) && t.pending == s.pending + PushedBy(step)
  {
  }

  lemma Joined(a: seq<Functor>, b: seq<Functor>, c: seq<Functor>)
    ensures (a + b) + c == a + (b + c)
  {
  }

  /** While a batch runs, it only moves to the executed functors, and everything queued stays pending. */
  lemma {:induction false} BatchFixed(s: State, steps: seq<Step>)
    requires s.place.Running? && Legal(s, steps)
    requires forall i :: 0 <= i < |steps| ==> !steps[i].EndFunctors?
    ensures var t := Run(s, steps);
      t.place.Running? && Underway(t) == Underway(s) && t.pending == s.pending + Pushed(steps)
    decreases steps
  {
    hide Next, Enabled, Underway;
    if steps != [] {
      BatchStep(s, steps[0]);
      hide PushedBy;
      BatchFixed(Next(s, steps[0]), steps[1..]);
      Joined(s.pending, PushedBy(steps[0]), Pushed(steps[1..]));
    }
  }

  lemma SwapStarts(s: State)
    requires Ordered(s) && Enabled(s, Swap)
    ensures var t := Next(s, Swap);
      t.place.Running? && Underway(t) == s.executed + s.pending && t.pending == []
  {
  }

  lemma EndKeeps(s: State)
    requires Enabled(s, EndFunctors)
    ensures Next(s, EndFunctors).executed == Underway(s) && Next(s, EndFunctors).pending == s.pending
  {
    assert s.executed + [] == s.executed;
  }

  /**
   * One round of `doPendingFunctors`, from its swap to its end, under any interleaving: exactly what was
   * pending at the swap is executed, in order, and exactly what is queued meanwhile is pending after it.
   */
  lemma RoundExact(s: State, steps: seq<Step>)
    requires Ordered(s) && Enabled(s, Swap) && Legal(Next(s, Swap), steps)
    requires forall i :: 0 <= i < |steps| ==> !steps[i].EndFunctors?
    requires Enabled(Run(Next(s, Swap), steps), EndFunctors)
    ensures var t := Next(Run(Next(s, Swap), steps), EndFunctors);
      t.executed == s.executed + s.pending && t.pending == Pushed(steps)
  {
    hide *;
    SwapStarts(s);
    BatchFixed(Next(s, Swap), steps);
    EndKeeps(Run(Next(s, Swap), steps));
    assert [] + Pushed(steps) == Pushed(steps);
  }

  // ----- Wakeups -----

  predicate Awake(s: State) {
    s.eventfd > 0 || s.waking != {}
  }

  /** Once a batch is swapped out, whatever is queued until the next poll has its wakeup, or has it coming. */
  ghost predicate Watched(s: State) {
    && (s.owes ==> s.place.Running?)
    && (s.place.Running? && s.pending != [] ==> Awake(s) || s.owes)
    && ((s.place.AtPoll? || s.place.Testing?) && s.polled && s.pending != [] ==> Awake(s))
    && (s.place.Handling? || s.place.BeforeSwap? || s.place.Running? ==> s.polled)
  }

  lemma WatchedStep(s: State, step: Step)
    requires Ordered(s) && Watched(s) && Enabled(s, step)
    ensures Watched(Next(s, step))
  {
    if step.OtherPushes? || step.OtherQuits? {
      assert step.thread in Next(s, step).waking;
    }
  }

  lemma {:induction false} RunKeeps(s: State, steps: seq<Step>)
    requires Ordered(s) && Watched(s) && Legal(s, steps)
    ensures Ordered(Run(s, steps)) && Watched(Run(s, steps))
    decreases steps
  {
    hide Ordered, Watched, Next;
    if steps != [] {
      OrderedStep(s, steps[0]);
      WatchedStep(s, steps[0]);
      RunKeeps(Next(s, steps[0]), steps[1..]);
    }
  }

  /** In every run, what has been executed is a prefix of what was queued: first in, first out, once. */
  lemma FirstInFirstOut(steps: seq<Step>)
    requires Legal(INITIAL, steps)
    ensures var s := Run(INITIAL, steps);
      && s.executed + s.batch + s.pending == s.history
      && s.executed <= s.history
  {
    RunKeeps(INITIAL, steps);
    hide Watched, Run;
    var s := Run(INITIAL, steps);
    assert s.history[..|s.executed|] == s.executed;
  }

  /**
   * No lost wakeup: whenever a call of `loop()` that has polled before is about to block with functors
   * pending, the eventfd is readable or a thread is about to make it so.
   */
  lemma NoLostWakeup(steps: seq<Step>)
    requires Legal(INITIAL, steps)
    requires var s := Run(INITIAL, steps); s.place.AtPoll? && s.polled && s.pending != []
    ensures Awake(Run(INITIAL, steps))
  {
    RunKeeps(INITIAL, steps);
    hide Run;
  }

  /** Another thread queues a functor or calls `quit()`. */
  predicate Pokes(step: Step) {
    step.OtherPushes? || step.OtherQuits?
  }

  /**
   * The first poll of a call of `loop()`: from anywhere outside it, without a poll in between, the loop is
   * woken exactly if it was awake already or another thread has queued or called quit since. What the
   * loop's own thread queues makes no difference.
   */
  lemma {:induction false} FirstPoll(s: State, steps: seq<Step>)
    requires (s.place.Outside? || s.place.Testing? || s.place.AtPoll?) && !s.owes && !s.calling
    requires Legal(s, steps) && forall i :: 0 <= i < |steps| ==> !steps[i].PollReturns?
    ensures Awake(Run(s, steps)) <==> Awake(s) || exists i :: 0 <= i < |steps| && Pokes(steps[i])
    decreases steps
  {
    if steps != [] {
      var t, rest := Next(s, steps[0]), steps[1..];
      if Pokes(steps[0]) {
        assert steps[0].thread in t.waking;
      }
      FirstPoll(t, rest);
      assert forall i :: 0 <= i < |rest| ==> rest[i] == steps[i + 1];
      assert (exists i :: 0 <= i < |steps| && Pokes(steps[i]))
             <==> Pokes(steps[0]) || exists i :: 0 <= i < |rest| && Pokes(rest[i]) by {
        if i :| 0 <= i < |steps| && Pokes(steps[i]) && i > 0 {
          assert Pokes(rest[i - 1]);
        }
      }
    }
  }

  /** The exception is real: a functor queued by the loop's own thread before `loop()` wakes nobody. */
  lemma EarlyPushSleeps(f: Functor)
    ensures var steps := [LoopPushes(f), EnterLoop, TestQuit];
      && Legal(INITIAL, steps)
      && var s := Run(INITIAL, steps);
         s.place.AtPoll? && s.pending == [f] && !Awake(s)
  {
    RunExtends(INITIAL, [], LoopPushes(f));
    RunExtends(INITIAL, [LoopPushes(f)], EnterLoop);
    RunExtends(INITIAL, [LoopPushes(f), EnterLoop], TestQuit);
    assert [] + [LoopPushes(f)] == [LoopPushes(f)];
    assert [LoopPushes(f)] + [EnterLoop] + [TestQuit] == [LoopPushes(f), EnterLoop, TestQuit];
  }

  predicate Quits(step: Step) { step.LoopQuits? || step.OtherQuits? }

  lemma {:induction false} QuitSeen(s: State, steps: seq<Step>)
    requires Legal(s, steps) && forall i :: 0 <= i < |steps| ==> !steps[i].EnterLoop?
    ensures Run(s, steps).quit <==> s.quit || exists i :: 0 <= i < |steps| && Quits(steps[i])
    decreases steps
  {
    if steps != [] {
      var rest := steps[1..];
      QuitSeen(Next(s, steps[0]), rest);
      assert forall i :: 0 <= i < |rest| ==> rest[i] == steps[i + 1];
      assert (exists i :: 0 <= i < |steps| && Quits(steps[i]))
             <==> Quits(steps[0]) || exists i :: 0 <= i < |rest| && Quits(rest[i]) by {
        if i :| 0 <= i < |steps| && Quits(steps[i]) && i > 0 {
          assert Quits(rest[i - 1]);
        }
      }
    }
  }

  /** A call of `loop()` returns at a test exactly if some thread has called quit since it began, and else it polls. */
  lemma LeavesExactly(s: State, steps: seq<Step>)
    requires Enabled(s, EnterLoop) && Legal(Next(s, EnterLoop), steps)
    requires forall i :: 0 <= i < |steps| ==> !steps[i].EnterLoop?
    requires Enabled(Run(Next(s, EnterLoop), steps), TestQuit)
    ensures var t := Next(Run(Next(s, EnterLoop), steps), TestQuit);
      t.place == if exists i :: 0 <= i < |steps| && Quits(steps[i]) then Outside else AtPoll
  {
    QuitSeen(Next(s, EnterLoop), steps);
    hide Run, Legal, Quits;
  }

  // ----- The steps of the code -----

  /** What a call of `queueInLoop` does. */
  function Queueing(caller: Source, f: Functor, calling: bool): seq<Step> {
    match caller
    case Other(t) => [OtherPushes(t, f), OtherWakes(t)]
    case Loop => if calling then [LoopPushes(f), LoopWakes] else [LoopPushes(f)]
  }

  /** The functors queue others while they run. */
  function QueueingAll(fs: seq<Functor>): seq<Step> {
    if fs == [] then [] else QueueingAll(fs[..|fs| - 1]) + Queueing(Loop, fs[|fs| - 1], true)
  }

  function RunningAll(functors: seq<Functor>, queues: Functor -> seq<Functor>): seq<Step> {
    if functors == [] then []
    else
      var n := |functors| - 1;
      RunningAll(functors[..n], queues) + [RunFunctor] + QueueingAll(queues(functors[n]))
  }

  lemma RunningNext(functors: seq<Functor>, i: nat, queues: Functor -> seq<Functor>, steps: seq<Step>)
    requires i < |functors|
    ensures steps + RunningAll(functors[..i + 1], queues)
            == steps + RunningAll(functors[..i], queues) + [RunFunctor] + QueueingAll(queues(functors[i]))
  {
    assert functors[..i + 1][..i] == functors[..i];
    hide QueueingAll;
  }

  /** What a call of `doPendingFunctors` does, undisturbed. */
  function Round(functors: seq<Functor>, queues: Functor -> seq<Functor>): seq<Step> {
    [BeginFunctors, Swap] + RunningAll(functors, queues) + [EndFunctors]
  }

  lemma RoundIs(functors: seq<Functor>, queues: Functor -> seq<Functor>)
    ensures Round(functors, queues) == [BeginFunctors, Swap] + RunningAll(functors, queues) + [EndFunctors]
  {
  }

  /** The loop object; the ghost fields are what the machine knows besides. */
  class Reactor {
    var pendingFunctors: seq<Functor>
    var callingPendingFunctors: bool
    var quit: bool
    var wakeupFd: nat
    ghost var place: Place
    ghost var batch: seq<Functor>
    ghost var executed: seq<Functor>
    ghost var history: seq<Functor>
    ghost var waking: set<Thread>
    ghost var owes: bool
    ghost var polled: bool

    ghost function View(): State
      reads this
    {
      State(place, callingPendingFunctors, quit, pendingFunctors, batch, executed, history, wakeupFd, waking, owes,
            polled)
    }

    constructor ()
      ensures View() == INITIAL
    {
      pendingFunctors, callingPendingFunctors, quit, wakeupFd := [], false, false, 0;
      place, batch, executed, history, waking, owes, polled := Outside, [], [], [], {}, false, false;
    }

    method Wakeup(caller: Source)
      requires Enabled(View(), if caller.Other? then OtherWakes(caller.thread) else LoopWakes)
      modifies this`wakeupFd, this`waking, this`owes
      ensures View() == Next(old(View()), if caller.Other? then OtherWakes(caller.thread) else LoopWakes)
      ensures Awake(View())
    {
      wakeupFd := wakeupFd + 1;
      if caller.Other? {
        waking := waking - {caller.thread};
      } else {
        owes := false;
      }
    }

    method HandleRead()
      requires Enabled(View(), ReadEventfd)
      modifies this`wakeupFd
      ensures View() == Next(old(View()), ReadEventfd)
      ensures Awake(View()) <==> waking != {}
    {
      wakeupFd := 0;
    }

    method QueueInLoop(f: Functor, caller: Source)
      requires Enabled(View(), if caller.Other? then OtherPushes(caller.thread, f) else LoopPushes(f))
      modifies this`pendingFunctors, this`wakeupFd, this`history, this`waking, this`owes
      ensures Legal(old(View()), Queueing(caller, f, callingPendingFunctors))
      ensures View() == Run(old(View()), Queueing(caller, f, callingPendingFunctors))
    {
      ghost var push := if caller.Other? then OtherPushes(caller.thread, f) else LoopPushes(f);
      pendingFunctors := pendingFunctors + [f];
      history := history + [f];
      if caller.Other? {
        waking := waking + {caller.thread};
      } else {
        owes := callingPendingFunctors;
      }
      assert View() == Next(old(View()), push);
      OneStep(old(View()), push);
      if caller.Other? || callingPendingFunctors {
        TwoSteps(old(View()), push, if caller.Other? then OtherWakes(caller.thread) else LoopWakes);
        Wakeup(caller);
      }
    }

    method Quit(caller: Source)
      requires Enabled(View(), if caller.Other? then OtherQuits(caller.thread) else LoopQuits)
      modifies this`quit, this`wakeupFd, this`waking, this`owes
      ensures caller.Loop? ==> View() == Next(old(View()), LoopQuits)
      ensures caller.Other? ==>
        View() == Next(Next(old(View()), OtherQuits(caller.thread)), OtherWakes(caller.thread))
    {
      quit := true;
      if caller.Other? {
        waking := waking + {caller.thread};
        Wakeup(caller);
      }
    }

    /** The functors that one functor queues. */
    method RunCallbacks(callbacks: seq<Functor>, ghost start: State, ghost before: seq<Step>)
      requires Legal(start, before) && View() == Run(start, before)
      requires callingPendingFunctors && InCallback(View()) && place.Running?
      modifies this`pendingFunctors, this`wakeupFd, this`history, this`waking, this`owes
      ensures Legal(start, before + QueueingAll(callbacks))
      ensures View() == Run(start, before + QueueingAll(callbacks))
      ensures InCallback(View())
    {
      hide Legal, Run;
      assert before + QueueingAll([]) == before;
      for j := 0 to |callbacks|
        invariant Legal(start, before + QueueingAll(callbacks[..j]))
        invariant View() == Run(start, before + QueueingAll(callbacks[..j]))
        invariant callingPendingFunctors && InCallback(View()) && place.Running?
      {
        ghost var steps := before + QueueingAll(callbacks[..j]);
        ghost var f := callbacks[j];
        assert callbacks[..j + 1][..j] == callbacks[..j];
        assert before + QueueingAll(callbacks[..j + 1]) == steps + [LoopPushes(f)] + [LoopWakes];
        RunExtends(start, steps, LoopPushes(f));
        RunExtends(start, steps + [LoopPushes(f)], LoopWakes);
        TwoSteps(View(), LoopPushes(f), LoopWakes);
        QueueInLoop(callbacks[j], Loop);
      }
      assert callbacks[..|callbacks|] == callbacks;
    }

    /** One functor of the batch, and what it queues. */
    method RunOne(functors: seq<Functor>, i: nat, queues: Functor -> seq<Functor>, ghost start: State,
                  ghost steps: seq<Step>)
      requires i < |functors| && batch == functors[i..]
      requires Legal(start, steps + RunningAll(functors[..i], queues))
      requires View() == Run(start, steps + RunningAll(functors[..i], queues))
      requires callingPendingFunctors && InCallback(View()) && place.Running?
      modifies this`pendingFunctors, this`wakeupFd, this`history, this`waking, this`owes, this`executed, this`batch
      ensures Legal(start, steps + RunningAll(functors[..i + 1], queues))
      ensures View() == Run(start, steps + RunningAll(functors[..i + 1], queues))
      ensures InCallback(View()) && batch == functors[i + 1..]
    {
      hide Legal, Run;
      ghost var done := steps + RunningAll(functors[..i], queues);
      RunningNext(functors, i, queues, steps);
      hide RunningAll;
      RunExtends(start, done, RunFunctor);
      executed, batch := executed + [functors[i]], batch[1..];
      RunCallbacks(queues(functors[i]), start, done + [RunFunctor]);
    }

    /** The whole batch. */
    method RunBatch(functors: seq<Functor>, queues: Functor -> seq<Functor>, ghost start: State, ghost steps: seq<Step>)
      requires batch == functors && Legal(start, steps) && View() == Run(start, steps)
      requires callingPendingFunctors && InCallback(View()) && place.Running?
      modifies this`pendingFunctors, this`wakeupFd, this`history, this`waking, this`owes, this`executed, this`batch
      ensures Legal(start, steps + RunningAll(functors, queues))
      ensures View() == Run(start, steps + RunningAll(functors, queues))
      ensures InCallback(View()) && batch == [] && place.Running?
    {
      hide Legal, Run;
      assert steps + RunningAll([], queues) == steps;
      for i := 0 to |functors|
        invariant Legal(start, steps + RunningAll(functors[..i], queues))
        invariant View() == Run(start, steps + RunningAll(functors[..i], queues))
        invariant callingPendingFunctors && InCallback(View()) && place.Running? && batch == functors[i..]
      {
        RunOne(functors, i, queues, start, steps);
      }
      assert functors[..|functors|] == functors;
    }

    /** A round undisturbed by other threads is one run of the machine, the functor calls included. */
    method DoPendingFunctors(queues: Functor -> seq<Functor>)
      requires Ordered(View()) && Enabled(View(), BeginFunctors)
      modifies this
      ensures Legal(old(View()), Round(old(pendingFunctors), queues))
      ensures View() == Run(old(View()), Round(old(pendingFunctors), queues))
    {
      hide *;
      ghost var start := View();
      var functors := SwapOut();
      RunBatch(functors, queues, start, [BeginFunctors, Swap]);
      Leave(start, [BeginFunctors, Swap] + RunningAll(functors, queues));
      RoundIs(functors, queues);
    }

    method SwapOut() returns (functors: seq<Functor>)
      requires Ordered(View()) && Enabled(View(), BeginFunctors)
      modifies this`callingPendingFunctors, this`pendingFunctors, this`place, this`batch
      ensures Legal(old(View()), [BeginFunctors, Swap]) && View() == Run(old(View()), [BeginFunctors, Swap])
      ensures functors == old(pendingFunctors) == batch
      ensures callingPendingFunctors && InCallback(View()) && place.Running?
    {
      TwoSteps(View(), BeginFunctors, Swap);
      hide Legal, Run;
      callingPendingFunctors := true;
      functors := pendingFunctors;
      pendingFunctors := [];
      place, batch := Running, functors;
    }

    method Leave(ghost start: State, ghost steps: seq<Step>)
      requires Legal(start, steps) && View() == Run(start, steps)
      requires InCallback(View()) && place.Running? && batch == []
      modifies this`callingPendingFunctors, this`place
      ensures Legal(start, steps + [EndFunctors]) && View() == Run(start, steps + [EndFunctors])
    {
      hide Legal, Run;
      RunExtends(start, steps, EndFunctors);
      callingPendingFunctors := false;
      place := Testing;
    }
  }
}
