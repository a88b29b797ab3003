/**
 * Calls that deliver chunks at the same time. A call looks its stream up under one lock, stores its
 * chunk under the stream's own lock, and erases the stream under the first lock again; between these
 * regions other calls run, so that a call may hold a stream that is no longer in the table.
 */
module StreamCalls {
  import opened Sequences
  import opened StreamInput

  type Thread = nat
  type Id = nat

  /** Where a call is. */
  datatype Call =
    | Holding(key: string, id: Id, chunk: Chunk, now: int)      // has looked its stream up
    | Finishing(key: string, id: Id, chunks: map<int, string>)  // has taken the chunks out
    | Failing(key: string)                                      // will erase whatever the key has

  datatype State = State(
    streams: map<string, Id>,       // stream_states_
    objects: map<Id, Stream>,       // every stream object made
    nextId: Id,
    calls: map<Thread, Call>)

  datatype Step =
    | Lookup(thread: Thread, key: string, chunk: Chunk, now: int)
    | Reject(thread: Thread, key: string)
    | Store(thread: Thread)
    | Erase(thread: Thread)
    | EraseKey(thread: Thread)

  const INITIAL := State(map[], map[], 0, map[])

  predicate Enabled(s: State, step: Step) {
    match step
    case Lookup(t, _, chunk, _) => t !in s.calls && HasIndex(chunk) && TableKnown(s)
    case Reject(t, _) => t !in s.calls
    case Store(t) => t in s.calls && s.calls[t].Holding? && s.calls[t].id in s.objects && HasIndex(s.calls[t].chunk)
    case Erase(t) => t in s.calls && s.calls[t].Finishing?
    case EraseKey(t) => t in s.calls && s.calls[t].Failing?
  }

  predicate TableKnown(s: State) {
    forall k :: k in s.streams ==> s.streams[k] in s.objects
  }

  function ExpiredKeys(s: State, now: int): set<string>
    requires TableKnown(s)
  {
    set k | k in s.streams && now - s.objects[s.streams[k]].updatedMs > TTL_MS
  }

  /** The lookup clears out expired streams and makes a new one if none is left. */
  function LookupStep(s: State, t: Thread, key: string, chunk: Chunk, now: int): State
    requires TableKnown(s)
  {
    var kept := s.streams - ExpiredKeys(s, now);
    if key in kept then s.(streams := kept, calls := s.calls[t := Holding(key, kept[key], chunk, now)])
    else
      State(kept[key := s.nextId], s.objects[s.nextId := Fresh(now)], s.nextId + 1,
            s.calls[t := Holding(key, s.nextId, chunk, now)])
  }

  predicate Oversized(o: Stream) { |o.chunks| > MAX_CHUNKS || o.totalBytes > MAX_BYTES }

  /** The object after the call's chunk is stored. */
  function Written(s: State, c: Call): Stream
    requires c.Holding? && c.id in s.objects && HasIndex(c.chunk)
  {
    Stored(s.objects[c.id], c.chunk.index.value, c.chunk.delta, c.now)
  }

  function StoreStep(s: State, t: Thread): State
    requires Enabled(s, Store(t))
  {
    var c := s.calls[t];
    var o := Written(s, c);
    if Oversized(o) then s.(objects := s.objects[c.id := o], calls := s.calls[t := Failing(c.key)])
    else if !c.chunk.finish then s.(objects := s.objects[c.id := o], calls := s.calls - {t})
    else
      s.(objects := s.objects[c.id := o.(chunks := map[], totalBytes := 0)],
         calls := s.calls[t := Finishing(c.key, c.id, o.chunks)])
  }

  /** The finished stream leaves the table if it is still there; a gap then erases whatever the key has. */
  function EraseStep(s: State, t: Thread): State
    requires Enabled(s, Erase(t))
  {
    var c := s.calls[t];
    s.(streams := if c.key in s.streams && s.streams[c.key] == c.id then s.streams - {c.key} else s.streams,
       calls := if Assembled(c.chunks).Done? then s.calls - {t} else s.calls[t := Failing(c.key)])
  }

  function Next(s: State, step: Step): State
    requires Enabled(s, step)
  {
    match step
    case Lookup(t, key, chunk, now) => LookupStep(s, t, key, chunk, now)
    case Reject(t, key) => s.(calls := s.calls[t := Failing(key)])
    case Store(t) => StoreStep(s, t)
    case Erase(t) => EraseStep(s, t)
    case EraseKey(t) => s.(streams := s.streams - {s.calls[t].key}, calls := s.calls - {t})
  }

  ghost predicate Legal(s: State, steps: seq<Step>)
    decreases steps
  {
    steps != [] ==> Enabled(s, steps[0]) && Legal(Next(s, steps[0]), steps[1..])
  }

  function Run(s: State, steps: seq<Step>): State
    requires Legal(s, steps)
    decreases steps
  {
    if steps == [] then s else Run(Next(s, steps[0]), steps[1..])
  }

  // ----- The invariant -----

  ghost predicate Tabled(s: State) {
    && (forall k :: k in s.streams ==> s.streams[k] in s.objects)
    && (forall k, l :: k in s.streams && l in s.streams && s.streams[k] == s.streams[l] ==> k == l)
    && (forall id :: id in s.objects ==> id < s.nextId)
    && (forall t :: t in s.calls && s.calls[t].Holding? ==> s.calls[t].id in s.objects && HasIndex(s.calls[t].chunk))
  }

  /** On every object, in the table or not, the counter is the bytes stored. */
  ghost predicate Counted(s: State) {
    forall id :: id in s.objects ==> Sized(s.objects[id].chunks, s.objects[id].totalBytes)
  }

  ghost predicate Invariant(s: State) { Tabled(s) && Counted(s) }

  lemma TabledStep(s: State, step: Step)
    requires Tabled(s) && Enabled(s, step)
    ensures Tabled(Next(s, step))
  {
    hide Oversized, Assembled, Stored;
  }

  lemma CountedStore(s: State, t: Thread)
    requires Counted(s) && Enabled(s, Store(t))
    ensures Counted(StoreStep(s, t))
  {
    SizedNone();
    var c := s.calls[t];
    var o := s.objects[c.id];
    SizedStored(o.chunks, o.totalBytes, c.chunk.index.value, c.chunk.delta);
    hide Sized, Oversized;
  }

  lemma CountedStep(s: State, step: Step)
    requires Counted(s) && Enabled(s, step)
    ensures Counted(Next(s, step))
  {
    SizedNone();
    hide Sized, StoreStep, Assembled;
    if step.Store? {
      CountedStore(s, step.thread);
    }
  }

  lemma SizedNone()
    ensures Sized(map[], 0)
  {
    assert Below(map[], 0) && Sum(map[], 0) == 0;
  }

  lemma {:induction false} RunKeeps(s: State, steps: seq<Step>)
    requires Invariant(s) && Legal(s, steps)
    ensures Invariant(Run(s, steps))
    decreases steps
  {
    hide Tabled, Counted, Next;
    if steps != [] {
      TabledStep(s, steps[0]);
      CountedStep(s, steps[0]);
      RunKeeps(Next(s, steps[0]), steps[1..]);
    }
  }

  /** However calls interleave, the byte counter of every object is exact, and its subtraction never underflows. */
  lemma BytesAlwaysCounted(steps: seq<Step>, id: Id, index: nat)
    requires Legal(INITIAL, steps) && id in Run(INITIAL, steps).objects
    ensures var o := Run(INITIAL, steps).objects[id];
      Sized(o.chunks, o.totalBytes) && (index in o.chunks ==> |o.chunks[index]| <= o.totalBytes)
  {
    RunKeeps(INITIAL, steps);
    hide Run, Tabled;
    var o := Run(INITIAL, steps).objects[id];
    SizedStored(o.chunks, o.totalBytes, index, "");
  }

  // ----- When a chunk is lost -----

  /** The step takes the chunks of object `id` out, for a reply to a client. */
  predicate Takes(s: State, step: Step, id: Id) {
    && step.Store? && Enabled(s, step)
    && s.calls[step.thread].id == id && s.calls[step.thread].chunk.finish
    && !Oversized(Written(s, s.calls[step.thread]))
  }

  ghost predicate TakenIn(s: State, steps: seq<Step>, id: Id)
    requires Legal(s, steps)
    decreases steps
  {
    steps != [] && (Takes(s, steps[0], id) || TakenIn(Next(s, steps[0]), steps[1..], id))
  }

  predicate InTable(s: State, id: Id) {
    exists k :: k in s.streams && s.streams[k] == id
  }

  /** Some call still holds the object with a finishing chunk. */
  predicate FinisherHolds(s: State, id: Id) {
    exists t :: t in s.calls && s.calls[t].Holding? && s.calls[t].id == id && s.calls[t].chunk.finish
  }

  predicate Abandoned(s: State, id: Id) { !InTable(s, id) && !FinisherHolds(s, id) }

  lemma AbandonedStep(s: State, step: Step, id: Id)
    requires Tabled(s) && Enabled(s, step) && id in s.objects && Abandoned(s, id)
    ensures id in Next(s, step).objects && Abandoned(Next(s, step), id) && !Takes(s, step, id)
  {
    hide Oversized, Assembled, Stored;
  }

  /** What is abandoned stays so, and no call ever takes it. */
  lemma {:induction false} AbandonedForever(s: State, steps: seq<Step>, id: Id)
    requires Tabled(s) && Legal(s, steps) && id in s.objects && Abandoned(s, id)
    ensures !TakenIn(s, steps, id)
    decreases steps
  {
    hide Tabled, Abandoned, Next, Takes;
    if steps != [] {
      AbandonedStep(s, steps[0], id);
      TabledStep(s, steps[0]);
      AbandonedForever(Next(s, steps[0]), steps[1..], id);
    }
  }

  lemma OneTake(s: State, step: Step, id: Id)
    requires Enabled(s, step) && Takes(s, step, id)
    ensures Legal(s, [step]) && TakenIn(s, [step], id)
  {
    assert [step][1..] == [];
  }

  lemma TakeNext(s: State, first: Step, step: Step, id: Id)
    requires Enabled(s, first) && Enabled(Next(s, first), step) && Takes(Next(s, first), step, id)
    ensures Legal(s, [first, step]) && TakenIn(s, [first, step], id)
  {
    OneTake(Next(s, first), step, id);
    assert [first, step][1..] == [step];
    hide Next, Enabled, Takes;
  }

  /** A thread that is in no call. */
  lemma {:induction false} IdleThread(threads: set<Thread>) returns (t: Thread)
    ensures t !in threads
  {
    t := 0;
    var rest := threads;
    while rest != {}
      invariant forall u :: u in threads && u !in rest ==> u < t
      decreases rest
    {
      var u :| u in rest;
      rest := rest - {u};
      t := if u < t then t else u + 1;
    }
  }

  /** Writing a chunk once more, as the finishing one, takes everything. */
  lemma TableCanFinish(s: State, key: string, i: nat) returns (steps: seq<Step>)
    requires Tabled(s) && key in s.streams && i in s.objects[s.streams[key]].chunks
    requires !Oversized(s.objects[s.streams[key]])
    ensures Legal(s, steps) && TakenIn(s, steps, s.streams[key])
  {
    var id := s.streams[key];
    var o := s.objects[id];
    var t := IdleThread(s.calls.Keys);
    var chunk := Chunk(Some(i), o.chunks[i], true);
    var first := Lookup(t, key, chunk, o.updatedMs);
    var held := Next(s, first);
    assert held.objects == s.objects && held.calls[t] == Holding(key, id, chunk, o.updatedMs);
    assert o.chunks[i := o.chunks[i]] == o.chunks;
    assert Written(held, held.calls[t]) == o;
    TakeNext(s, first, Store(t), id);
    steps := [first, Store(t)];
  }

  ghost predicate FinishersFit(s: State, id: Id) {
    forall t :: t in s.calls && Enabled(s, Store(t)) && s.calls[t].id == id && s.calls[t].chunk.finish ==>
      !Oversized(Written(s, s.calls[t]))
  }

  /**
   * Chunks that wait in a stream object are lost exactly when the object has left the table and no call
   * holds it with a finishing chunk: otherwise some continuation takes them, and then none does.
   */
  lemma LostExactly(s: State, id: Id, i: nat)
    requires Invariant(s) && id in s.objects && i in s.objects[id].chunks
    requires !Oversized(s.objects[id]) && FinishersFit(s, id)
    ensures Abandoned(s, id) <==> forall steps :: Legal(s, steps) ==> !TakenIn(s, steps, id)
  {
    if Abandoned(s, id) {
      forall steps | Legal(s, steps) ensures !TakenIn(s, steps, id) {
        AbandonedForever(s, steps, id);
      }
    } else {
      var steps := CanBeTaken(s, id, i);
      assert Legal(s, steps) && TakenIn(s, steps, id);
    }
  }

  lemma CanBeTaken(s: State, id: Id, i: nat) returns (steps: seq<Step>)
    requires Tabled(s) && id in s.objects && i in s.objects[id].chunks
    requires !Oversized(s.objects[id]) && FinishersFit(s, id) && !Abandoned(s, id)
    ensures Legal(s, steps) && TakenIn(s, steps, id)
  {
    hide Oversized;
    if k :| k in s.streams && s.streams[k] == id {
      steps := TableCanFinish(s, k, i);
    } else {
      var t :| t in s.calls && s.calls[t].Holding? && s.calls[t].id == id && s.calls[t].chunk.finish;
      OneTake(s, Store(t), id);
      steps := [Store(t)];
    }
  }

  // ----- A run that loses a chunk -----

  lemma {:induction false} RunAppends(s: State, steps: seq<Step>, step: Step)
    requires Legal(s, steps) && Enabled(Run(s, steps), step)
    ensures Legal(s, steps + [step]) && Run(s, steps + [step]) == Next(Run(s, steps), step)
    decreases steps
  {
    hide Enabled, Next;
    if steps == [] {
      assert [step][1..] == [] && steps + [step] == [step];
    } else {
      assert (steps + [step])[1..] == steps[1..] + [step];
      RunAppends(Next(s, steps[0]), steps[1..], step);
    }
  }

  const LAST := Chunk(Some(0), "a", true)
  const EARLIER := Chunk(Some(1), "b", false)

  /** Both calls look the stream up; the finishing one is done before the other stores. */
  function LosingRun(key: string): seq<Step> {
    [Lookup(0, key, LAST, 0), Lookup(1, key, EARLIER, 0), Store(0), Erase(0), Store(1)]
  }

  function Finisher(key: string): Call { Holding(key, 0, LAST, 0) }

  function Latecomer(key: string): Call { Holding(key, 0, EARLIER, 0) }

  /** Both calls hold the stream. */
  function BothHold(key: string): State {
    State(map[key := 0], map[0 := Fresh(0)], 1, map[0 := Finisher(key), 1 := Latecomer(key)])
  }

  lemma TwoLookups(key: string)
    ensures Legal(INITIAL, [Lookup(0, key, LAST, 0)] + [Lookup(1, key, EARLIER, 0)])
    ensures Run(INITIAL, [Lookup(0, key, LAST, 0)] + [Lookup(1, key, EARLIER, 0)]) == BothHold(key)
  {
    hide Legal, Run;
    LegalNone();
    var a := State(map[key := 0], map[0 := Fresh(0)], 1, map[0 := Finisher(key)]);
    Extend([], Lookup(0, key, LAST, 0), INITIAL, a);
    assert [] + [Lookup(0, key, LAST, 0)] == [Lookup(0, key, LAST, 0)];
    assert a.streams - ExpiredKeys(a, 0) == a.streams;
    assert a.calls[1 := Latecomer(key)] == BothHold(key).calls;
    Extend([Lookup(0, key, LAST, 0)], Lookup(1, key, EARLIER, 0), a, BothHold(key));
  }

  /** The finishing call has taken its chunk out, and erases the stream. */
  function Taken(key: string): State {
    BothHold(key).(calls := map[0 := Finishing(key, 0, map[0 := "a"]), 1 := Latecomer(key)])
  }

  function Gone(key: string): State {
    State(map[], map[0 := Fresh(0)], 1, map[1 := Latecomer(key)])
  }

  lemma FinisherDone(key: string)
    ensures Enabled(BothHold(key), Store(0)) && Next(BothHold(key), Store(0)) == Taken(key)
    ensures Enabled(Taken(key), Erase(0)) && Next(Taken(key), Erase(0)) == Gone(key)
  {
    assert map[0 := "a"][0] == "a";
    assert BothHold(key).objects[0 := Fresh(0)] == BothHold(key).objects;
    assert BothHold(key).calls[0 := Finishing(key, 0, map[0 := "a"])] == Taken(key).calls;
    assert Assembled(map[0 := "a"]).Done?;
    hide Assembled;
    assert Taken(key).streams - {key} == map[] && Taken(key).calls - {0} == Gone(key).calls;
  }

  const LEFT := State(map[], map[0 := Stream(map[1 := "b"], 1, 0)], 1, map[])

  lemma LatecomerStores(key: string)
    ensures Enabled(Gone(key), Store(1)) && Next(Gone(key), Store(1)) == LEFT
  {
    assert Gone(key).calls - {1} == map[];
  }

  /** The latecomer is told to go on, and its chunk is abandoned. */
  lemma ChunkLost(key: string)
    ensures Legal(INITIAL, LosingRun(key)) && Run(INITIAL, LosingRun(key)) == LEFT
    ensures Abandoned(LEFT, 0)
  {
    hide Legal, Run, Next, Enabled, BothHold, Taken, Gone;
    TwoLookups(key);
    FinisherDone(key);
    LatecomerStores(key);
    var run := [Lookup(0, key, LAST, 0)] + [Lookup(1, key, EARLIER, 0)];
    Extend(run, Store(0), BothHold(key), Taken(key));
    Extend(run + [Store(0)], Erase(0), Taken(key), Gone(key));
    Extend(run + [Store(0)] + [Erase(0)], Store(1), Gone(key), LEFT);
    assert run + [Store(0)] + [Erase(0)] + [Store(1)] == LosingRun(key);
  }

  lemma LegalNone()
    ensures Legal(INITIAL, []) && Run(INITIAL, []) == INITIAL
  {
  }

  lemma Extend(steps: seq<Step>, step: Step, s: State, t: State)
    requires Legal(INITIAL, steps) && Run(INITIAL, steps) == s && Enabled(s, step) && Next(s, step) == t
    ensures Legal(INITIAL, steps + [step]) && Run(INITIAL, steps + [step]) == t
  {
    hide Enabled, Next;
    RunAppends(INITIAL, steps, step);
  }

  /**
   * A store writes the chunk in every case, also where it exceeds a limit; a finishing one within the limits then
   * takes everything out, its own chunk included. No other stream object changes.
   */
  lemma StoreExactly(s: State, t: Thread)
    requires Enabled(s, Store(t))
    ensures var c, u := s.calls[t], Next(s, Store(t));
      var writes := s.objects[c.id].chunks[c.chunk.index.value := c.chunk.delta];
      && u.streams == s.streams && u.objects.Keys == s.objects.Keys
      && (forall id :: id in s.objects && id != c.id ==> u.objects[id] == s.objects[id])
      && if Takes(s, Store(t), c.id)
         then u.objects[c.id].chunks == map[] && u.calls[t] == Finishing(c.key, c.id, writes)
         else u.objects[c.id].chunks == writes
  {
  }

  /** A finishing call erases its own stream only, never one that has taken its place; a failing call erases either. */
  lemma EraseExactly(s: State, t: Thread, key: string)
    ensures Enabled(s, Erase(t)) ==>
      (key in Next(s, Erase(t)).streams
       <==> key in s.streams && !(key == s.calls[t].key && s.streams[key] == s.calls[t].id))
    ensures Enabled(s, EraseKey(t)) ==>
      (key in Next(s, EraseKey(t)).streams <==> key in s.streams && key != s.calls[t].key)
  {
    hide Assembled;
  }

  // ----- Undisturbed calls -----

  /** What the table says about each key. */
  function View(s: State): map<string, Stream>
    requires TableKnown(s)
  {
    map k | k in s.streams :: s.objects[s.streams[k]]
  }

  /** The rest of a call, undisturbed. */
  function Completed(s: State, t: Thread): State
    requires Enabled(s, Store(t))
  {
    var stored := StoreStep(s, t);
    if t !in stored.calls then stored
    else if stored.calls[t].Failing? then Next(stored, EraseKey(t))
    else
      var erased := EraseStep(stored, t);
      if t !in erased.calls then erased else Next(erased, EraseKey(t))
  }

  lemma ViewLookup(s: State, t: Thread, key: string, chunk: Chunk, now: int)
    requires Tabled(s) && Enabled(s, Lookup(t, key, chunk, now))
    ensures var held := LookupStep(s, t, key, chunk, now);
      var kept := Kept(View(s), Delivery(key, chunk, now));
      && Tabled(held) && Enabled(held, Store(t)) && held.calls[t].key == key && held.calls[t].chunk == chunk
      && held.calls[t].now == now && key in held.streams && held.streams[key] == held.calls[t].id
      && View(held) == kept[key := if key in kept then kept[key] else Fresh(now)]
  {
    TabledStep(s, Lookup(t, key, chunk, now));
    assert Expired(View(s), now) == ExpiredKeys(s, now);
  }

  /** An object in the table changes under its own key only. */
  lemma ViewUpdate(s: State, key: string, o: Stream, calls: map<Thread, Call>)
    requires Tabled(s) && key in s.streams
    ensures var t := s.(objects := s.objects[s.streams[key] := o], calls := calls);
      TableKnown(t) && View(t) == View(s)[key := o]
  {
  }

  lemma ViewErase(s: State, key: string, calls: map<Thread, Call>)
    requires TableKnown(s)
    ensures var t := State(s.streams - {key}, s.objects, s.nextId, calls);
      TableKnown(t) && View(t) == View(s) - {key}
  {
  }

  /** Storing a chunk is receiving it, with the table untouched. */
  lemma StoreReceives(s: State, t: Thread)
    requires Enabled(s, Store(t))
    ensures var c := s.calls[t];
      var left := Receive(s.objects[c.id], c.chunk, c.now).1;
      var u := StoreStep(s, t);
      && u.streams == s.streams && u.nextId == s.nextId
      && c.id in u.objects && u.objects == s.objects[c.id := u.objects[c.id]]
      && (left.Some? <==> t !in u.calls)
      && (left.Some? ==> u.objects[c.id] == left.value)
      && (left.None? ==> u.calls[t] == Failing(c.key)
                         || (u.calls[t].Finishing? && u.calls[t].key == c.key && u.calls[t].id == c.id))
  {
    hide Assembled, Stored;
  }

  /** After a store that ends the stream, the rest of the call removes its key. */
  lemma CompletedErases(s: State, t: Thread)
    requires Enabled(s, Store(t)) && s.calls[t].key in s.streams && s.streams[s.calls[t].key] == s.calls[t].id
    ensures var stored := StoreStep(s, t);
      && (t !in stored.calls ==> Completed(s, t) == stored)
      && (t in stored.calls ==>
            Completed(s, t)
            == State(stored.streams - {s.calls[t].key}, stored.objects, stored.nextId, Completed(s, t).calls))
  {
    StoreReceives(s, t);
    hide Assembled, StoreStep, Receive;
    var key := s.calls[t].key;
    assert (s.streams - {key}) - {key} == s.streams - {key};
  }

  lemma ViewCompleted(s: State, t: Thread)
    requires Tabled(s) && Enabled(s, Store(t))
    requires s.calls[t].key in s.streams && s.streams[s.calls[t].key] == s.calls[t].id
    ensures TableKnown(Completed(s, t))
    ensures var c := s.calls[t];
      var left := Receive(s.objects[c.id], c.chunk, c.now).1;
      View(Completed(s, t)) == if left.Some? then View(s)[c.key := left.value] else View(s) - {c.key}
  {
    StoreReceives(s, t);
    CompletedErases(s, t);
    hide View, Receive, StoreStep, Completed;
    var key, stored := s.calls[t].key, StoreStep(s, t);
    var o := stored.objects[s.calls[t].id];
    ViewUpdate(s, key, o, stored.calls);
    ViewErase(stored, key, Completed(s, t).calls);
    assert View(s)[key := o] - {key} == View(s) - {key};
  }

  /** A call that nobody disturbs, on a table that others may hold streams of, does what one delivery does. */
  lemma UndisturbedIsDelivered(s: State, t: Thread, key: string, chunk: Chunk, now: int)
    requires Tabled(s) && Enabled(s, Lookup(t, key, chunk, now))
    ensures var held := LookupStep(s, t, key, chunk, now);
      && Enabled(held, Store(t)) && TableKnown(Completed(held, t))
      && View(Completed(held, t)) == Delivered(View(s), Delivery(key, chunk, now)).1
  {
    ViewLookup(s, t, key, chunk, now);
    var held := LookupStep(s, t, key, chunk, now);
    ViewAt(held, key);
    DeliveredFrom(View(s), Delivery(key, chunk, now));
    ViewCompleted(held, t);
    hide *;
  }

  lemma DeliveredFrom(streams: map<string, Stream>, d: Delivery)
    ensures var kept := Kept(streams, d);
      var o := if d.key in kept then kept[d.key] else Fresh(d.now);
      var left := Receive(o, d.chunk, d.now).1;
      Delivered(streams, d).1
      == if left.Some? then kept[d.key := o][d.key := left.value] else kept[d.key := o] - {d.key}
  {
    hide Kept, Receive;
    var kept := Kept(streams, d);
    var o := if d.key in kept then kept[d.key] else Fresh(d.now);
    var left := Receive(o, d.chunk, d.now).1;
    assert left.Some? ==> kept[d.key := o][d.key := left.value] == kept[d.key := left.value];
    assert kept[d.key := o] - {d.key} == kept - {d.key};
  }

  lemma ViewAt(s: State, key: string)
    requires TableKnown(s) && key in s.streams
    ensures key in View(s) && View(s)[key] == s.objects[s.streams[key]]
  {
  }
}
