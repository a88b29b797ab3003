/**
 * The sending half of a connection: direct writes while nothing is queued, an output buffer for what
 * the socket did not take, and a shutdown that waits for the buffer to drain. `shutdown` and
 * `forceClose` may be called on any thread; they test the state and then set it, without a lock.
 */
module TcpConnection {
  import Buffer

  type byte = Buffer.byte
  type Thread = nat

  datatype Phase = Connecting | Connected | Disconnecting | Disconnected

  /** What `write` returns to a direct send: bytes taken, a full socket, a broken peer, another error. */
  datatype WriteResult = Wrote(n: nat) | WouldBlock | Fault | OtherError

  /** What became of a message: kept, lost to a broken peer, or too late for a closed connection. */
  datatype Fate = Kept | Lost | Late

  datatype Sent = Sent(data: seq<byte>, fate: Fate)

  /** What a thread that has tested the state is about to do: shut down, close, or only mark the state. */
  datatype Intent = Shut | Force | Mark

  datatype State = State(
    phase: Phase,
    writing: bool,                // the channel waits for the socket to become writable
    reading: bool,
    notifies: bool,               // a write-complete callback is set
    output: seq<byte>,            // outputBuffer_
    wire: seq<byte>,              // what the socket has taken
    sent: seq<Sent>,              // every message given to sendInLoop
    intents: map<Thread, Intent>, // threads between their test and their set of the state
    asked: nat,                   // how often a shutdown has been asked for
    shutsDue: nat,                // calls of shutdownInLoop still to run
    forcesDue: nat,               // calls of forceCloseInLoop still to run
    destroying: bool,             // connectDestroyed is between its test and its set of the state
    closes: nat,                  // how often the connection has been closed
    shutdowns: nat,               // calls of shutdownWrite
    completions: nat)             // write-complete callbacks queued

  datatype Event =
    | Established
    | Observe(notifies: bool)
    | SendInLoop(data: seq<byte>, result: WriteResult)
    | Writable(n: int)
    | Test(thread: Thread, intent: Intent)
    | Set(thread: Thread)
    | ShutdownInLoop
    | ForceCloseInLoop
    | Close
    | DestroyTest
    | DestroySet

  const INITIAL := State(Connecting, false, false, false, [], [], [], map[], 0, 0, 0, false, 0, 0, 0)

  /** What the socket and the callers may do; the conditions on phases are the asserts of the code. */
  predicate Enabled(s: State, e: Event) {
    match e
    case Test(t, _) => t !in s.intents
    case Set(t) => t in s.intents
    case DestroySet => s.destroying
    case Established => !s.destroying && s.phase.Connecting?
    case SendInLoop(data, result) => !s.destroying && (result.Wrote? ==> result.n <= |data|)
    case Writable(n) => !s.destroying && n <= |s.output|
    case ShutdownInLoop => !s.destroying && s.shutsDue > 0
    case ForceCloseInLoop => !s.destroying && s.forcesDue > 0
    case Close => !s.destroying && Open(s)
    case Observe(_) => !s.destroying
    case DestroyTest => !s.destroying
  }

  predicate Open(s: State) {
    s.phase.Connected? || s.phase.Disconnecting?
  }

  /** The test of each of the three calls. */
  predicate Passes(s: State, intent: Intent) {
    s.phase.Connected? || (!intent.Shut? && s.phase.Disconnecting?)
  }

  function SendStep(s: State, data: seq<byte>, result: WriteResult): State
    requires result.Wrote? ==> result.n <= |data|
  {
    if s.phase.Disconnected? then s.(sent := s.sent + [Sent(data, Late)])
    else
      var direct := !s.writing && s.output == [];
      var taken := if direct && result.Wrote? then result.n else 0;
      if direct && result.Fault? then s.(sent := s.sent + [Sent(data, Lost)])
      else
        s.(sent := s.sent + [Sent(data, Kept)],
           wire := s.wire + data[..taken],
           output := s.output + data[taken..],
           completions := s.completions + if direct && result.Wrote? && taken == |data| && s.notifies then 1 else 0,
           writing := s.writing || taken < |data|)
  }

  function ShutdownStep(s: State): State {
    if s.writing then s else s.(shutdowns := s.shutdowns + 1)
  }

  function WriteStep(s: State, n: int): State
    requires n <= |s.output|
  {
    if !s.writing || n <= 0 then s
    else
      var t := s.(wire := s.wire + s.output[..n], output := s.output[n..]);
      if t.output != [] then t
      else
        var idle := t.(writing := false, completions := t.completions + if s.notifies then 1 else 0);
        if s.phase.Disconnecting? then ShutdownStep(idle) else idle
  }

  /** The state is set to disconnected, and the channel loses all interest. */
  function Closed(s: State): State {
    s.(phase := Disconnected, writing := false, reading := false, closes := s.closes + 1)
  }

  /** A thread that has seen an open connection marks it, whatever it has become since. */
  function SetStep(s: State, t: Thread): State
    requires t in s.intents
  {
    s.(phase := Disconnecting, intents := s.intents - {t},
       asked := s.asked + if s.intents[t].Shut? then 1 else 0,
       shutsDue := s.shutsDue + if s.intents[t].Shut? then 1 else 0,
       forcesDue := s.forcesDue + if s.intents[t].Force? then 1 else 0)
  }

  function Next(s: State, e: Event): State
    requires Enabled(s, e)
  {
    match e
    case Established => s.(phase := Connected, reading := true)
    case Observe(notifies) => s.(notifies := notifies)
    case SendInLoop(data, result) => SendStep(s, data, result)
    case Writable(n) => WriteStep(s, n)
    case Test(t, intent) => if Passes(s, intent) then s.(intents := s.intents[t := intent]) else s
    case Set(t) => SetStep(s, t)
    case ShutdownInLoop => ShutdownStep(s.(shutsDue := s.shutsDue - 1))
    case ForceCloseInLoop =>
      var run := s.(forcesDue := s.forcesDue - 1);
      if Open(s) then Closed(run) else run
    case Close => Closed(s)
    case DestroyTest => if s.phase.Connected? then s.(destroying := true) else s
    case DestroySet => Closed(s).(destroying := false)
  }

  ghost predicate Legal(s: State, es: seq<Event>)
    decreases es
  {
    es != [] ==> Enabled(s, es[0]) && Legal(Next(s, es[0]), es[1..])
  }

  function Run(s: State, es: seq<Event>): State
    requires Legal(s, es)
    decreases es
  {
    if es == [] then s else Run(Next(s, es[0]), es[1..])
  }

  /** The bytes of the messages that were not lost. */
  function KeptBytes(sent: seq<Sent>): seq<byte> {
    if sent == [] then []
    else KeptBytes(sent[..|sent| - 1]) + if sent[|sent| - 1].fate.Kept? then sent[|sent| - 1].data else []
  }

  function AllBytes(sent: seq<Sent>): seq<byte> {
    if sent == [] then [] else AllBytes(sent[..|sent| - 1]) + sent[|sent| - 1].data
  }

  /** Holds in every run, whatever threads do to the state. */
  ghost predicate Conserved(s: State) {
    && s.wire + s.output == KeptBytes(s.sent)
    && (s.writing ==> s.output != [])
    && (s.closes == 0 && s.output != [] ==> s.writing)
    && (s.phase.Disconnected? ==> s.closes > 0)
    && (s.destroying ==> s.closes == 0)
    && (s.phase.Connecting? ==> s.intents == map[])
    && (s.phase.Connecting? || s.phase.Connected? ==> s.closes == 0)
    && (s.reading <==> !s.phase.Connecting? && s.closes == 0)
    && (s.asked > 0 && s.closes == 0 ==>
          s.phase.Disconnecting? && (s.shutsDue > 0 || s.shutdowns > 0 || s.writing))
  }

  lemma KeptSnoc(sent: seq<Sent>, m: Sent)
    ensures KeptBytes(sent + [m]) == KeptBytes(sent) + if m.fate.Kept? then m.data else []
    ensures AllBytes(sent + [m]) == AllBytes(sent) + m.data
  {
  }

  lemma JoinTaken(wire: seq<byte>, output: seq<byte>, data: seq<byte>, taken: nat)
    requires taken <= |data| && (taken > 0 ==> output == [])
    ensures (wire + data[..taken]) + (output + data[taken..]) == (wire + output) + data
  {
  }

  lemma SendConserves(s: State, data: seq<byte>, result: WriteResult)
    requires Conserved(s) && (result.Wrote? ==> result.n <= |data|)
    ensures Conserved(SendStep(s, data, result))
  {
    hide KeptBytes;
    var t := SendStep(s, data, result);
    var direct := !s.writing && s.output == [];
    if s.phase.Disconnected? {
      KeptSnoc(s.sent, Sent(data, Late));
    } else if direct && result.Fault? {
      KeptSnoc(s.sent, Sent(data, Lost));
    } else {
      KeptSnoc(s.sent, Sent(data, Kept));
      var taken := if direct && result.Wrote? then result.n else 0;
      JoinTaken(s.wire, s.output, data, taken);
      assert t.wire + t.output == KeptBytes(t.sent);
      assert |t.output| == |s.output| + |data| - taken;
    }
  }

  lemma StepConserves(s: State, e: Event)
    requires Conserved(s) && Enabled(s, e)
    ensures Conserved(Next(s, e))
  {
    hide KeptBytes;
    match e
    case SendInLoop(data, result) => SendConserves(s, data, result);
    case Writable(n) =>
      if s.writing && n > 0 {
        assert s.output == s.output[..n] + s.output[n..];
        assert (s.wire + s.output[..n]) + s.output[n..] == s.wire + s.output;
      }
    case _ =>
  }

  lemma {:induction false} RunConserves(s: State, es: seq<Event>)
    requires Conserved(s) && Legal(s, es)
    ensures Conserved(Run(s, es))
    decreases es
  {
    hide Conserved, Next;
    if es != [] {
      StepConserves(s, es[0]);
      RunConserves(Next(s, es[0]), es[1..]);
    }
  }

  /**
   * In every run the socket has taken, and the buffer still holds, exactly the bytes of the messages
   * kept, in order; until a close the channel waits for writability exactly when the buffer is not
   * empty; and it reads exactly from its establishment to its close.
   */
  lemma ByteStreamConserved(es: seq<Event>)
    requires Legal(INITIAL, es)
    ensures var s := Run(INITIAL, es);
      && s.wire + s.output == KeptBytes(s.sent)
      && (s.closes == 0 ==> (s.writing <==> s.output != []))
      && (s.reading <==> !s.phase.Connecting? && s.closes == 0)
  {
    RunConserves(INITIAL, es);
  }

  /** A thread that has seen a connected state asks for a shutdown. */
  predicate Asks(s: State, e: Event) {
    e.Set? && e.thread in s.intents && s.intents[e.thread].Shut?
  }

  ghost predicate AskedIn(s: State, es: seq<Event>)
    requires Legal(s, es)
    decreases es
  {
    es != [] && (Asks(s, es[0]) || AskedIn(Next(s, es[0]), es[1..]))
  }

  lemma {:induction false} AskedCounts(s: State, es: seq<Event>)
    requires Legal(s, es)
    ensures Run(s, es).asked >= s.asked && (AskedIn(s, es) ==> Run(s, es).asked > 0)
    decreases es
  {
    if es != [] {
      AskedCounts(Next(s, es[0]), es[1..]);
    }
  }

  /**
   * A shutdown asked for does happen: in every run, once no call is left to run and the buffer has drained,
   * the write side has been shut down, unless the connection was closed first.
   */
  lemma ShutdownHappens(es: seq<Event>)
    requires Legal(INITIAL, es) && AskedIn(INITIAL, es)
    ensures var s := Run(INITIAL, es);
      s.closes == 0 && s.shutsDue == 0 && s.output == [] ==> s.shutdowns > 0
  {
    RunConserves(INITIAL, es);
    AskedCounts(INITIAL, es);
    hide Run, AskedIn, KeptBytes;
  }

  ghost predicate FaultFree(es: seq<Event>) {
    forall i :: 0 <= i < |es| && es[i].SendInLoop? ==> !es[i].result.Fault?
  }

  /** Without a broken peer, a connection that has not been closed loses nothing. */
  lemma {:induction false} NothingLost(s: State, es: seq<Event>)
    requires Conserved(s) && Legal(s, es) && FaultFree(es) && Run(s, es).closes == 0
    requires KeptBytes(s.sent) == AllBytes(s.sent)
    ensures KeptBytes(Run(s, es).sent) == AllBytes(Run(s, es).sent)
    decreases es
  {
    if es != [] {
      var t := Next(s, es[0]);
      StepConserves(s, es[0]);
      ClosesGrow(s, es);
      SendKeeps(s, es[0]);
      hide Conserved, KeptBytes, AllBytes, Next, Enabled;
      NothingLost(t, es[1..]);
    }
  }

  lemma SendKeeps(s: State, e: Event)
    requires Conserved(s) && Enabled(s, e) && s.closes == 0 && (e.SendInLoop? ==> !e.result.Fault?)
    requires KeptBytes(s.sent) == AllBytes(s.sent)
    ensures KeptBytes(Next(s, e).sent) == AllBytes(Next(s, e).sent)
  {
    if e.SendInLoop? {
      KeptSnoc(s.sent, Sent(e.data, Kept));
    }
    hide KeptBytes, AllBytes;
  }

  lemma {:induction false} ClosesGrow(s: State, es: seq<Event>)
    requires Legal(s, es)
    ensures s.closes <= Run(s, es).closes
    decreases es
  {
    if es != [] { ClosesGrow(Next(s, es[0]), es[1..]); }
  }

  lemma FaultFreeStream(es: seq<Event>)
    requires Legal(INITIAL, es) && FaultFree(es) && Run(INITIAL, es).closes == 0
    ensures var s := Run(INITIAL, es);
      s.wire + s.output == AllBytes(s.sent)
  {
    RunConserves(INITIAL, es);
    NothingLost(INITIAL, es);
  }

  lemma ShutsBy(s: State, e: Event)
    requires Enabled(s, e) && Next(s, e).shutdowns > s.shutdowns
    ensures Next(s, e).closes == s.closes
    ensures if e.Writable? then Next(s, e).output == [] else !s.writing && Next(s, e).output == s.output
  {
  }

  /**
   * Until a close, the write side is shut down only with every kept byte on the wire. After one, a drain
   * still shuts it down with an empty buffer, and a call from the queue with whatever was left.
   */
  lemma ShutdownAfterDrain(es: seq<Event>, e: Event)
    requires Legal(INITIAL, es) && Enabled(Run(INITIAL, es), e)
    requires Next(Run(INITIAL, es), e).shutdowns > Run(INITIAL, es).shutdowns
    ensures var s, t := Run(INITIAL, es), Next(Run(INITIAL, es), e);
      && (s.closes == 0 ==> t.output == [] && t.wire == KeptBytes(t.sent))
      && (t.output == [] <==> s.closes == 0 || e.Writable? || s.output == [])
  {
    var s, t := Run(INITIAL, es), Next(Run(INITIAL, es), e);
    RunConserves(INITIAL, es);
    StepConserves(s, e);
    ShutsBy(s, e);
    assert t.wire + t.output == KeptBytes(t.sent);
    hide Run, KeptBytes, Next, Enabled;
    assert t.wire + [] == t.wire;
  }

  /** A direct write that takes the whole message, or a drain of the whole buffer. */
  predicate Completes(s: State, e: Event) {
    || (e.SendInLoop? && !s.phase.Disconnected? && !s.writing && s.output == [] && e.result == Wrote(|e.data|))
    || (e.Writable? && s.writing && e.n > 0 && e.n == |s.output|)
  }

  /**
   * With a callback set, exactly a full direct write or a full drain queues a write-complete callback, and one;
   * and every kept byte is then on the wire.
   */
  lemma CompletionExactly(es: seq<Event>, e: Event)
    requires Legal(INITIAL, es) && Enabled(Run(INITIAL, es), e)
    ensures var s, t := Run(INITIAL, es), Next(Run(INITIAL, es), e);
      && t.completions == s.completions + (if s.notifies && Completes(s, e) then 1 else 0)
      && (t.completions > s.completions ==> t.output == [] && t.wire == KeptBytes(t.sent))
  {
    var s, t := Run(INITIAL, es), Next(Run(INITIAL, es), e);
    RunConserves(INITIAL, es);
    StepConserves(s, e);
    CompletesBy(s, e);
    assert t.wire + t.output == KeptBytes(t.sent);
    assert t.wire + [] == t.wire;
    hide *;
  }

  lemma CompletesBy(s: State, e: Event)
    requires Enabled(s, e)
    ensures Next(s, e).completions == s.completions + if s.notifies && Completes(s, e) then 1 else 0
    ensures Next(s, e).completions > s.completions ==> Next(s, e).output == []
  {
    if e.SendInLoop? {
      assert e.data[|e.data|..] == [] && s.output + [] == s.output;
    }
  }

  /** `shutdown` acts on a connected connection only; `forceClose` also on one that is shutting down. */
  lemma TestExactly(s: State, t: Thread, intent: Intent)
    requires Enabled(s, Test(t, intent))
    ensures var u := Next(s, Test(t, intent));
      && (t in u.intents <==> s.phase.Connected? || (s.phase.Disconnecting? && intent != Shut))
      && u == s.(intents := u.intents) && u.intents - {t} == s.intents - {t}
  {
  }

  // ----- What the missing lock does -----

  /** The state says closed exactly when the connection has been closed. */
  predicate Agrees(s: State) {
    s.phase.Disconnected? <==> s.closes > 0
  }

  /** A thread sets the state of a connection that was closed after its test. */
  predicate LateSet(s: State, e: Event) {
    e.Set? && s.closes > 0
  }

  ghost predicate NoLateSet(s: State, es: seq<Event>)
    requires Legal(s, es)
    decreases es
  {
    es != [] ==> !LateSet(s, es[0]) && NoLateSet(Next(s, es[0]), es[1..])
  }

  /** In an agreeing state, exactly a late set breaks the agreement. */
  lemma AgreesStep(s: State, e: Event)
    requires Conserved(s) && Agrees(s) && Enabled(s, e)
    ensures Agrees(Next(s, e)) <==> !LateSet(s, e)
    ensures s.closes <= 1 && !LateSet(s, e) ==> Next(s, e).closes <= 1
  {
    hide KeptBytes;
  }

  lemma {:induction false} AgreesKept(s: State, es: seq<Event>)
    requires Conserved(s) && Agrees(s) && s.closes <= 1 && Legal(s, es) && NoLateSet(s, es)
    ensures Agrees(Run(s, es)) && Run(s, es).closes <= 1
    decreases es
  {
    hide Conserved, Agrees, LateSet, Next;
    if es != [] {
      StepConserves(s, es[0]);
      AgreesStep(s, es[0]);
      AgreesKept(Next(s, es[0]), es[1..]);
    }
  }

  /** In every run without a late set, the state tells the truth and the connection closes at most once. */
  lemma StateTellsTruth(es: seq<Event>)
    requires Legal(INITIAL, es) && NoLateSet(INITIAL, es)
    ensures Run(INITIAL, es).phase.Disconnected? <==> Run(INITIAL, es).closes > 0
    ensures Run(INITIAL, es).closes <= 1
  {
    AgreesKept(INITIAL, es);
  }

  lemma {:induction false} RunExtends(es: seq<Event>, e: Event, s: State, t: State)
    requires Legal(INITIAL, es) && Run(INITIAL, es) == s && Enabled(s, e) && Next(s, e) == t
    ensures Legal(INITIAL, es + [e]) && Run(INITIAL, es + [e]) == t
  {
    hide Enabled, Next;
    RunAppends(INITIAL, es, e);
  }

  lemma {:induction false} RunAppends(s: State, es: seq<Event>, e: Event)
    requires Legal(s, es) && Enabled(Run(s, es), e)
    ensures Legal(s, es + [e]) && Run(s, es + [e]) == Next(Run(s, es), e)
    decreases es
  {
    hide Enabled, Next;
    if es == [] {
      assert [e][1..] == [] && es + [e] == [e];
    } else {
      assert (es + [e])[1..] == es[1..] + [e];
      RunAppends(Next(s, es[0]), es[1..], e);
    }
  }

  lemma LegalEmpty()
    ensures Legal(INITIAL, []) && Run(INITIAL, []) == INITIAL
  {
  }

  /** A message that the socket does not take, on a connection that a thread is about to mark. */
  const TESTED :=
    INITIAL.(phase := Connected, reading := true, sent := [Sent([1], Kept)], output := [1], writing := true)

  function Opening(intent: Intent): seq<Event> {
    [Established, SendInLoop([1], WouldBlock), Test(0, intent)]
  }

  lemma Opened(intent: Intent)
    ensures Legal(INITIAL, Opening(intent))
    ensures Run(INITIAL, Opening(intent)) == TESTED.(intents := map[0 := intent])
  {
    hide Legal, Run;
    LegalEmpty();
    assert [] + [Established] == [Established];
    assert [Established] + [SendInLoop([1], WouldBlock)] + [Test(0, intent)] == Opening(intent);
    var a := INITIAL.(phase := Connected, reading := true);
    RunExtends([], Established, INITIAL, a);
    RunExtends([Established], SendInLoop([1], WouldBlock), a, TESTED);
    RunExtends([Established] + [SendInLoop([1], WouldBlock)], Test(0, intent), TESTED,
               TESTED.(intents := map[0 := intent]));
  }

  const LATE_SHUTDOWN := Opening(Shut) + [Set(0)] + [Close] + [ShutdownInLoop]

  /** A shutdown queued before a close but run after it finds the channel idle and unsent bytes in the buffer. */
  lemma LateShutdownLeavesBytes()
    ensures Legal(INITIAL, LATE_SHUTDOWN)
    ensures var s := Run(INITIAL, LATE_SHUTDOWN);
      s.shutdowns == 1 && s.output == [1] && s.phase.Disconnected?
  {
    hide Legal, Run, Opening;
    Opened(Shut);
    var a := SetStep(TESTED.(intents := map[0 := Shut]), 0);
    RunExtends(Opening(Shut), Set(0), TESTED.(intents := map[0 := Shut]), a);
    RunExtends(Opening(Shut) + [Set(0)], Close, a, Closed(a));
    RunExtends(Opening(Shut) + [Set(0)] + [Close], ShutdownInLoop, Closed(a), Next(Closed(a), ShutdownInLoop));
  }

  /** The connection closes between the test and the set, which opens its state again. */
  const REOPENED := TESTED.(phase := Disconnecting, writing := false, reading := false, closes := 1)

  function Due(intent: Intent): State {
    REOPENED.(asked := if intent.Shut? then 1 else 0, shutsDue := if intent.Shut? then 1 else 0,
              forcesDue := if intent.Force? then 1 else 0)
  }

  lemma Reopened(intent: Intent)
    ensures Legal(INITIAL, Opening(intent) + [Close] + [Set(0)])
    ensures Run(INITIAL, Opening(intent) + [Close] + [Set(0)]) == Due(intent)
  {
    hide Legal, Run, Opening;
    Opened(intent);
    var a := TESTED.(intents := map[0 := intent]);
    RunExtends(Opening(intent), Close, a, Closed(a));
    assert map[0 := intent] - {0} == map[];
    assert SetStep(Closed(a), 0) == Due(intent);
    RunExtends(Opening(intent) + [Close], Set(0), Closed(a), Due(intent));
  }

  const LATE_SET := Opening(Shut) + [Close] + [Set(0)] + [ShutdownInLoop]

  /** A close between a thread's test and its set: the state is open again, and bytes are left all the same. */
  lemma LateSetLeavesBytes()
    ensures Legal(INITIAL, LATE_SET)
    ensures var s := Run(INITIAL, LATE_SET);
      s.shutdowns == 1 && s.output == [1] && s.phase.Disconnecting? && s.closes == 1
  {
    hide Legal, Run, Opening;
    Reopened(Shut);
    RunExtends(Opening(Shut) + [Close] + [Set(0)], ShutdownInLoop, Due(Shut), Next(Due(Shut), ShutdownInLoop));
  }

  const CLOSED_TWICE := Opening(Force) + [Close] + [Set(0)] + [ForceCloseInLoop]

  /** The same with `forceClose` closes the connection a second time. */
  lemma LateSetClosesTwice()
    ensures Legal(INITIAL, CLOSED_TWICE) && Run(INITIAL, CLOSED_TWICE).closes == 2
  {
    hide Legal, Run, Opening;
    Reopened(Force);
    RunExtends(Opening(Force) + [Close] + [Set(0)], ForceCloseInLoop, Due(Force), Next(Due(Force), ForceCloseInLoop));
  }

  /** The connection; all but the two calls that any thread may make run on the loop thread. */
  class Connection {
    var state: Phase
    var writing: bool
    var reading: bool
    var writeCompleteCallback: bool
    var outputBuffer: seq<byte>
    ghost var wire: seq<byte>
    ghost var sent: seq<Sent>
    ghost var intents: map<Thread, Intent>
    ghost var asked: nat
    ghost var shutsDue: nat
    ghost var forcesDue: nat
    ghost var destroying: bool
    ghost var closes: nat
    ghost var shutdowns: nat
    ghost var completions: nat

    constructor ()
      ensures View() == INITIAL
    {
      state, writing, reading, writeCompleteCallback, outputBuffer := Connecting, false, false, false, [];
      wire, sent, intents, asked, shutsDue, forcesDue := [], [], map[], 0, 0, 0;
      destroying, closes, shutdowns, completions := false, 0, 0, 0;
    }

    ghost function View(): State
      reads this
    {
      State(state, writing, reading, writeCompleteCallback, outputBuffer, wire, sent, intents, asked, shutsDue,
            forcesDue, destroying, closes, shutdowns, completions)
    }

    method SendInLoop(data: seq<byte>, result: WriteResult)
      requires Enabled(View(), Event.SendInLoop(data, result))
      modifies this`outputBuffer, this`writing, this`wire, this`sent, this`completions
      ensures View() == Next(old(View()), Event.SendInLoop(data, result))
    {
      hide KeptBytes;
      if state == Disconnected {
        sent := sent + [Sent(data, Late)];
        return;
      }
      var nwrote, faultError := 0, false;
      if !writing && outputBuffer == [] {
        nwrote, faultError := WriteDirectly(data, result);
      }
      sent := sent + [Sent(data, if faultError then Lost else Kept)];
      if !faultError && nwrote < |data| {
        outputBuffer := outputBuffer + data[nwrote..];
        if !writing {
          writing := true;
        }
      }
    }

    /** One `write` on the socket. */
    method WriteDirectly(data: seq<byte>, result: WriteResult) returns (nwrote: nat, faultError: bool)
      requires result.Wrote? ==> result.n <= |data|
      modifies this`wire, this`completions
      ensures nwrote == (if result.Wrote? then result.n else 0) && faultError == result.Fault?
      ensures wire == old(wire) + data[..nwrote]
      ensures completions == old(completions)
                + if result.Wrote? && nwrote == |data| && writeCompleteCallback then 1 else 0
    {
      nwrote, faultError := 0, false;
      match result
      case Wrote(n) =>
        nwrote := n;
        wire := wire + data[..n];
        if n == |data| && writeCompleteCallback {
          completions := completions + 1;
        }
      case Fault => faultError := true;
      case WouldBlock =>
      case OtherError =>
    }

    method ShutdownInLoop()
      modifies this`shutdowns
      ensures View() == ShutdownStep(old(View()))
    {
      if !writing {
        shutdowns := shutdowns + 1;
      }
    }

    method HandleWrite(n: int)
      requires Enabled(View(), Writable(n))
      modifies this`outputBuffer, this`writing, this`wire, this`completions, this`shutdowns
      ensures View() == Next(old(View()), Writable(n))
    {
      if writing {
        if n > 0 {
          wire := wire + outputBuffer[..n];
          outputBuffer := outputBuffer[n..];
          if outputBuffer == [] {
            writing := false;
            if writeCompleteCallback {
              completions := completions + 1;
            }
            if state == Disconnecting {
              ShutdownInLoop();
            }
          }
        }
      }
    }

    /** Undisturbed between its test and its set; a caller on the loop thread then runs `ShutdownInLoop` at once. */
    method Shutdown(ghost t: Thread)
      requires Enabled(View(), Test(t, Shut))
      modifies this`state, this`asked, this`shutsDue
      ensures var tested := Next(old(View()), Test(t, Shut));
        View() == if t in tested.intents then Next(tested, Set(t)) else tested
    {
      if state == Connected {
        state := Disconnecting;
        asked, shutsDue := asked + 1, shutsDue + 1;
        assert old(intents)[t := Shut] - {t} == intents;
      }
    }

    method ForceClose(ghost t: Thread)
      requires Enabled(View(), Test(t, Force))
      modifies this`state, this`forcesDue
      ensures var tested := Next(old(View()), Test(t, Force));
        View() == if t in tested.intents then Next(tested, Set(t)) else tested
    {
      if state == Connected || state == Disconnecting {
        state := Disconnecting;
        forcesDue := forcesDue + 1;
        assert old(intents)[t := Force] - {t} == intents;
      }
    }

    method HandleClose()
      requires Enabled(View(), Close)
      modifies this`state, this`writing, this`reading, this`closes
      ensures View() == Next(old(View()), Close)
    {
      state := Disconnected;
      writing, reading := false, false;
      closes := closes + 1;
    }
  }
}
