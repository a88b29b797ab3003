/**
 * All endpoint objects of the scheduler as a state machine. Workers select an endpoint and report
 * back, a health thread checks endpoints, and reloads replace the listed objects while workers still
 * hold old ones. The first load takes over or creates one object per entry and then lists them, some
 * perhaps twice. Each step runs under the endpoints lock.
 */
module Fleet {
  import opened Sequences
  import opened Endpoint
  import opened BreakerHistory
  import opened Router

  type Worker = nat
  type ObjectId = nat

  /**
   * An endpoint object, with three things the source does not store: the outcomes it has seen, the
   * largest concurrency limit it has had, and how much was in flight when it last became half open.
   */
  datatype Object = Object(config: Config, rt: Runtime, history: History, peak: int, entry: int)

  datatype State = State(
    objects: map<ObjectId, Object>,
    nextId: ObjectId,
    listed: seq<ObjectId>,
    attempts: map<Worker, ObjectId>,   // selected and not yet reported
    clock: int)

  datatype Step =
    | Select(worker: Worker, req: RouteRequest, now: int, high: int)
    | Report(worker: Worker, ok: bool, latency: int, now: int)
    | Health(id: ObjectId, ok: bool, latency: int, now: int)
    | Reload(configs: seq<Config>)
    | Share(id: ObjectId, config: Config)
    | Create(config: Config)
    | List(ids: seq<ObjectId>)

  const INITIAL := State(map[], 0, [], map[], 0)

  function Key(c: Config): string { c.baseUrl + "|" + c.servedModel }

  predicate Enabled(s: State, step: Step) {
    match step
    case Select(w, _, now, _) => w !in s.attempts && s.clock <= now && forall id :: id in s.listed ==> id in s.objects
    case Report(w, _, _, now) => w in s.attempts && s.attempts[w] in s.objects && s.clock <= now
    case Health(id, _, _, now) => id in s.objects && s.clock <= now
    case Reload(configs) => (forall id :: id in s.listed ==> id in s.objects)
                            && forall c :: c in configs ==> c.maxConcurrency >= 1
    case Share(id, config) => id in s.objects && Key(config) == Key(s.objects[id].config) && config.maxConcurrency >= 1
    case Create(config) => config.maxConcurrency >= 1
    case List(ids) => forall id :: id in ids ==> id in s.objects
  }

  // ----- What the steps do to one object -----

  function Look(o: Object, now: int): Object {
    var rt := Probe(o.rt, now);
    o.(rt := rt, entry := if rt != o.rt then o.rt.inflight else o.entry)
  }

  function Take(o: Object): Object { o.(rt := Acquire(o.rt)) }

  function GiveBack(o: Object, ok: bool, latency: int, now: int, th: Thresholds): Object {
    o.(rt := Result(o.rt, ok, latency, now, th), history := o.history + [Outcome(ok, now)])
  }

  function Check(o: Object, ok: bool, latency: int, now: int, th: Thresholds): Object {
    o.(rt := Checked(o.rt, ok, latency, now, th), history := o.history + [Outcome(ok, now)])
  }

  function Fresh(c: Config): Object { Object(c, FRESH, [], c.maxConcurrency, 0) }

  /** A reload copies the breaker of the old object and starts with nothing in flight. */
  function Renewed(c: Config, previous: Object): Object {
    Object(c, previous.rt.(inflight := 0, halfOpenInflight := 0), previous.history, c.maxConcurrency, 0)
  }

  function Reconfigured(o: Object, c: Config): Object {
    o.(config := c.(baseUrl := o.config.baseUrl, servedModel := o.config.servedModel),
       peak := if c.maxConcurrency > o.peak then c.maxConcurrency else o.peak)
  }

  // ----- The steps -----

  /** The listed object that a reload takes over from: the last one with the same key. */
  function Predecessor(s: State, ids: seq<ObjectId>, key: string): (id: Option<ObjectId>)
    requires forall id :: id in ids ==> id in s.objects
    ensures id.Some? ==> id.value in s.objects
  {
    if ids == [] then None
    else if Key(s.objects[ids[|ids| - 1]].config) == key then Some(ids[|ids| - 1])
    else Predecessor(s, ids[..|ids| - 1], key)
  }

  function Committed(s: State, c: Config): Object
    requires forall id :: id in s.listed ==> id in s.objects
  {
    var previous := Predecessor(s, s.listed, Key(c));
    if previous.Some? then Renewed(c, s.objects[previous.value]) else Fresh(c)
  }

  function CommittedAll(s: State, configs: seq<Config>): (news: seq<Object>)
    requires forall id :: id in s.listed ==> id in s.objects
    ensures |news| == |configs|
    ensures forall i :: 0 <= i < |configs| ==> news[i] == Committed(s, configs[i])
  {
    seq(|configs|, i requires 0 <= i < |configs| => Committed(s, configs[i]))
  }

  /** The store with `news` added under the ids from `first` on. */
  function Installed(objects: map<ObjectId, Object>, first: ObjectId, news: seq<Object>): (r: map<ObjectId, Object>)
    ensures forall id :: id in r <==> id in objects || first <= id < first + |news|
    ensures forall id :: first <= id < first + |news| ==> r[id] == news[id - first]
    ensures forall id :: id in objects && id < first ==> r[id] == objects[id]
  {
    if news == [] then objects
    else
      var n := |news| - 1;
      Installed(objects, first, news[..n])[first + n := news[n]]
  }

  function Reloaded(s: State, configs: seq<Config>): State
    requires forall id :: id in s.listed ==> id in s.objects
  {
    s.(objects := Installed(s.objects, s.nextId, CommittedAll(s, configs)),
       nextId := s.nextId + |configs|,
       listed := seq(|configs|, i => s.nextId + i))
  }

  function Picked(s: State, req: RouteRequest, now: int, high: int): (id: Option<ObjectId>)
    requires forall id :: id in s.listed ==> id in s.objects
    ensures id.Some? ==> id.value in s.listed
  {
    var n := |s.listed|;
    var configs := seq(n, i requires 0 <= i < n => s.objects[s.listed[i]].config);
    var probed := seq(n, i requires 0 <= i < n => Probe(s.objects[s.listed[i]].rt, now));
    var cs := Candidates(configs, probed, req, high);
    PickSound(cs);
    if Pick(cs).Some? then Some(s.listed[Pick(cs).value.index]) else None
  }

  function Surveyed(s: State, req: RouteRequest, now: int): map<ObjectId, Object> {
    map id | id in s.objects ::
      if id in s.listed && Supports(s.objects[id].config, req) then Look(s.objects[id], now) else s.objects[id]
  }

  function Next(th: Thresholds, s: State, step: Step): State
    requires Enabled(s, step)
  {
    match step
    case Select(w, req, now, high) =>
      var seen := Surveyed(s, req, now);
      var picked := Picked(s, req, now, high);
      if picked.None? then s.(objects := seen, clock := now)
      else s.(objects := seen[picked.value := Take(seen[picked.value])],
              attempts := s.attempts[w := picked.value], clock := now)
    case Report(w, ok, latency, now) =>
      var id := s.attempts[w];
      s.(objects := s.objects[id := GiveBack(s.objects[id], ok, latency, now, th)],
         attempts := s.attempts - {w}, clock := now)
    case Health(id, ok, latency, now) =>
      s.(objects := s.objects[id := Check(s.objects[id], ok, latency, now, th)], clock := now)
    case Reload(configs) => Reloaded(s, configs)
    case Share(id, config) => s.(objects := s.objects[id := Reconfigured(s.objects[id], config)])
    case Create(config) => s.(objects := s.objects[s.nextId := Fresh(config)], nextId := s.nextId + 1)
    case List(ids) => s.(listed := ids)
  }

  ghost predicate Legal(th: Thresholds, s: State, steps: seq<Step>)
    decreases steps
  {
    steps != [] ==> Enabled(s, steps[0]) && Legal(th, Next(th, s, steps[0]), steps[1..])
  }

  function Run(th: Thresholds, s: State, steps: seq<Step>): State
    requires Legal(th, s, steps)
    decreases steps
  {
    if steps == [] then s else Run(th, Next(th, s, steps[0]), steps[1..])
  }

  // ----- The invariant -----

  ghost function Holders(attempts: map<Worker, ObjectId>, id: ObjectId): set<Worker> {
    set w | w in attempts && attempts[w] == id
  }

  /** The number of attempts selected on an object and not yet reported. */
  ghost function Load(attempts: map<Worker, ObjectId>, id: ObjectId): nat {
    |Holders(attempts, id)|
  }

  ghost predicate Sound(o: Object, load: nat, th: Thresholds, clock: int) {
    && o.rt.inflight == load
    && 0 <= o.rt.halfOpenInflight <= 1
    && o.rt.halfOpenInflight <= load
    && load <= o.peak
    && o.config.maxConcurrency <= o.peak
    && (o.rt.circuit.HalfOpen? ==> load - o.rt.halfOpenInflight <= o.entry)
    && o.rt.avgLatency >= 0.0
    && Refines(o.rt, o.history, th, clock)
  }

  ghost predicate Invariant(th: Thresholds, s: State) {
    && (forall id :: id in s.objects ==> id < s.nextId)
    && (forall id :: id in s.listed ==> id in s.objects)
    && (forall w :: w in s.attempts ==> s.attempts[w] in s.objects)
    && (forall id :: id in s.objects ==> Sound(s.objects[id], Load(s.attempts, id), th, s.clock))
  }

  lemma LoadAdd(attempts: map<Worker, ObjectId>, w: Worker, id: ObjectId, other: ObjectId)
    requires w !in attempts
    ensures Load(attempts[w := id], other) == Load(attempts, other) + if other == id then 1 else 0
  {
    var before := Holders(attempts, other);
    assert Holders(attempts[w := id], other) == if other == id then before + {w} else before;
  }

  lemma LoadDrop(attempts: map<Worker, ObjectId>, w: Worker, other: ObjectId)
    requires w in attempts
    ensures Load(attempts - {w}, other) == Load(attempts, other) - if other == attempts[w] then 1 else 0
  {
    var before := Holders(attempts, other);
    assert Holders(attempts - {w}, other) == if other == attempts[w] then before - {w} else before;
  }

  lemma LoadNone(attempts: map<Worker, ObjectId>, id: ObjectId)
    requires forall w :: w in attempts ==> attempts[w] != id
    ensures Load(attempts, id) == 0
  {
  }

  // ----- One object -----

  lemma LaterSound(o: Object, load: nat, th: Thresholds, clock: int, now: int)
    requires Sound(o, load, th, clock) && clock <= now
    ensures Sound(o, load, th, now)
  {
  }

  lemma LookSound(o: Object, load: nat, th: Thresholds, clock: int, now: int)
    requires Sound(o, load, th, clock) && clock <= now
    ensures Sound(Look(o, now), load, th, now)
  {
    ProbeRefines(o.rt, o.history, th, clock, now);
    hide Refines;
  }

  lemma TakeSound(o: Object, load: nat, th: Thresholds, now: int)
    requires Sound(o, load, th, now) && Available(o.rt, o.config.maxConcurrency)
    ensures Sound(Take(o), load + 1, th, now)
  {
  }

  /** The guards of `Release` never fire: there is always something to give back. */
  lemma GiveBackSound(o: Object, load: nat, th: Thresholds, clock: int, ok: bool, latency: int, now: int)
    requires Sound(o, load, th, clock) && clock <= now && load > 0
    ensures Sound(GiveBack(o, ok, latency, now, th), load - 1, th, now)
  {
    OutcomeRefines(o.rt, o.history, th, clock, ok, latency, now);
    hide Refines;
  }

  lemma CheckSound(o: Object, load: nat, th: Thresholds, clock: int, ok: bool, latency: int, now: int)
    requires Sound(o, load, th, clock) && clock <= now
    ensures Sound(Check(o, ok, latency, now, th), load, th, now)
  {
    OutcomeRefines(o.rt, o.history, th, clock, ok, latency, now);
    hide Refines;
  }

  lemma FreshSound(c: Config, th: Thresholds, clock: int)
    requires c.maxConcurrency >= 1
    ensures Sound(Fresh(c), 0, th, clock)
  {
  }

  lemma RenewedSound(c: Config, o: Object, load: nat, th: Thresholds, clock: int)
    requires Sound(o, load, th, clock) && c.maxConcurrency >= 1
    ensures Sound(Renewed(c, o), 0, th, clock)
  {
  }

  lemma ReconfiguredSound(o: Object, c: Config, load: nat, th: Thresholds, clock: int)
    requires Sound(o, load, th, clock)
    ensures Sound(Reconfigured(o, c), load, th, clock)
  {
  }

  // ----- One step -----

  /** A picked object was looked at, and was available then. */
  lemma PickedAvailable(s: State, req: RouteRequest, now: int, high: int)
    requires forall id :: id in s.listed ==> id in s.objects
    requires Picked(s, req, now, high).Some?
    ensures var id := Picked(s, req, now, high).value;
      && id in s.listed
      && Surveyed(s, req, now)[id] == Look(s.objects[id], now)
      && Available(Probe(s.objects[id].rt, now), s.objects[id].config.maxConcurrency)
  {
    var n := |s.listed|;
    var configs := seq(n, i requires 0 <= i < n => s.objects[s.listed[i]].config);
    var probed := seq(n, i requires 0 <= i < n => Probe(s.objects[s.listed[i]].rt, now));
    RouteSound(configs, probed, req, high);
  }

  lemma SelectKeeps(th: Thresholds, s: State, w: Worker, req: RouteRequest, now: int, high: int)
    requires Invariant(th, s) && Enabled(s, Select(w, req, now, high))
    ensures Invariant(th, Next(th, s, Select(w, req, now, high)))
  {
    hide Sound, Supports, Look, Take, Picked, Load;
    var t := Next(th, s, Select(w, req, now, high));
    var seen, picked := Surveyed(s, req, now), Picked(s, req, now, high);
    forall id | id in s.objects ensures Sound(seen[id], Load(s.attempts, id), th, now) {
      LaterSound(s.objects[id], Load(s.attempts, id), th, s.clock, now);
      LookSound(s.objects[id], Load(s.attempts, id), th, s.clock, now);
    }
    if picked.Some? {
      PickedAvailable(s, req, now, high);
      LookIs(s.objects[picked.value], now);
      TakeSound(seen[picked.value], Load(s.attempts, picked.value), th, now);
      forall id | id in t.objects ensures Sound(t.objects[id], Load(t.attempts, id), th, now) {
        LoadAdd(s.attempts, w, picked.value, id);
      }
    }
  }

  lemma LookIs(o: Object, now: int)
    ensures Look(o, now).rt == Probe(o.rt, now) && Look(o, now).config == o.config
  {
  }

  lemma ReportKeeps(th: Thresholds, s: State, w: Worker, ok: bool, latency: int, now: int)
    requires Invariant(th, s) && Enabled(s, Report(w, ok, latency, now))
    ensures Invariant(th, Next(th, s, Report(w, ok, latency, now)))
  {
    hide Sound, GiveBack;
    var t := Next(th, s, Report(w, ok, latency, now));
    assert w in Holders(s.attempts, s.attempts[w]);
    forall id | id in t.objects ensures Sound(t.objects[id], Load(t.attempts, id), th, now) {
      LoadDrop(s.attempts, w, id);
      LaterSound(s.objects[id], Load(s.attempts, id), th, s.clock, now);
      if id == s.attempts[w] {
        GiveBackSound(s.objects[id], Load(s.attempts, id), th, s.clock, ok, latency, now);
      }
    }
  }

  lemma HealthKeeps(th: Thresholds, s: State, id: ObjectId, ok: bool, latency: int, now: int)
    requires Invariant(th, s) && Enabled(s, Health(id, ok, latency, now))
    ensures Invariant(th, Next(th, s, Health(id, ok, latency, now)))
  {
    hide Sound, Check, Load;
    forall other | other in s.objects ensures Sound(s.objects[other], Load(s.attempts, other), th, now) {
      LaterSound(s.objects[other], Load(s.attempts, other), th, s.clock, now);
    }
    CheckSound(s.objects[id], Load(s.attempts, id), th, s.clock, ok, latency, now);
  }

  lemma CommittedSound(th: Thresholds, s: State, c: Config)
    requires Invariant(th, s) && c.maxConcurrency >= 1
    ensures Sound(Committed(s, c), 0, th, s.clock)
  {
    hide Sound, Load, Renewed, Fresh, Predecessor;
    FreshSound(c, th, s.clock);
    var previous := Predecessor(s, s.listed, Key(c));
    if previous.Some? {
      RenewedSound(c, s.objects[previous.value], Load(s.attempts, previous.value), th, s.clock);
    }
  }

  lemma ReloadKeeps(th: Thresholds, s: State, configs: seq<Config>)
    requires Invariant(th, s) && Enabled(s, Reload(configs))
    ensures Invariant(th, Next(th, s, Reload(configs)))
  {
    hide Sound, Load, Committed, CommittedAll, Installed;
    var t := Next(th, s, Reload(configs));
    forall id | id in t.objects ensures Sound(t.objects[id], Load(t.attempts, id), th, t.clock) {
      if id >= s.nextId {
        LoadNone(s.attempts, id);
        assert t.objects[id] == Committed(s, configs[id - s.nextId]);
        CommittedSound(th, s, configs[id - s.nextId]);
      }
    }
  }

  lemma ShareKeeps(th: Thresholds, s: State, id: ObjectId, config: Config)
    requires Invariant(th, s) && Enabled(s, Share(id, config))
    ensures Invariant(th, Next(th, s, Share(id, config)))
  {
    hide Sound, Load, Reconfigured;
    ReconfiguredSound(s.objects[id], config, Load(s.attempts, id), th, s.clock);
  }

  lemma CreateKeeps(th: Thresholds, s: State, config: Config)
    requires Invariant(th, s) && Enabled(s, Create(config))
    ensures Invariant(th, Next(th, s, Create(config)))
  {
    hide Sound, Load, Fresh;
    FreshSound(config, th, s.clock);
    LoadNone(s.attempts, s.nextId);
  }

  lemma ListKeeps(th: Thresholds, s: State, ids: seq<ObjectId>)
    requires Invariant(th, s) && Enabled(s, List(ids))
    ensures Invariant(th, Next(th, s, List(ids)))
  {
    hide Sound, Load;
  }

  lemma StepKeeps(th: Thresholds, s: State, step: Step)
    requires Invariant(th, s) && Enabled(s, step)
    ensures Invariant(th, Next(th, s, step))
  {
    hide Invariant;
    match step
    case Select(w, req, now, high) => SelectKeeps(th, s, w, req, now, high);
    case Report(w, ok, latency, now) => ReportKeeps(th, s, w, ok, latency, now);
    case Health(id, ok, latency, now) => HealthKeeps(th, s, id, ok, latency, now);
    case Reload(configs) => ReloadKeeps(th, s, configs);
    case Share(id, config) => ShareKeeps(th, s, id, config);
    case Create(config) => CreateKeeps(th, s, config);
    case List(ids) => ListKeeps(th, s, ids);
  }

  lemma {:induction false} RunKeeps(th: Thresholds, s: State, steps: seq<Step>)
    requires Invariant(th, s) && Legal(th, s, steps)
    ensures Invariant(th, Run(th, s, steps))
    decreases steps
  {
    hide Invariant, Next;
    if steps != [] {
      StepKeeps(th, s, steps[0]);
      RunKeeps(th, Next(th, s, steps[0]), steps[1..]);
    }
  }

  // ----- Main results -----

  /**
   * After every run, on every object ever created: what is in flight is what is held; it stays within
   * the largest limit configured; at most one probe is counted; and a half-open circuit that was
   * entered with `entry` requests in flight carries at most one more.
   */
  lemma InflightConserved(th: Thresholds, steps: seq<Step>, id: ObjectId)
    requires Legal(th, INITIAL, steps)
    requires id in Run(th, INITIAL, steps).objects
    ensures var s := Run(th, INITIAL, steps);
      var o := s.objects[id];
      && o.rt.inflight == Load(s.attempts, id)
      && 0 <= o.rt.inflight <= o.peak
      && 0 <= o.rt.halfOpenInflight <= 1
      && o.rt.halfOpenInflight <= o.rt.inflight
      && (o.rt.circuit.HalfOpen? ==> o.rt.inflight <= o.entry + 1)
      && (o.rt.circuit.HalfOpen? && o.entry == 0 ==> o.rt.inflight == o.rt.halfOpenInflight)
  {
    RunKeeps(th, INITIAL, steps);
  }

  /** After every run, every breaker - of replaced objects too - is what its history says. */
  lemma BreakerRefinesHistory(th: Thresholds, steps: seq<Step>, id: ObjectId)
    requires Legal(th, INITIAL, steps)
    requires id in Run(th, INITIAL, steps).objects
    ensures var s := Run(th, INITIAL, steps);
      Refines(s.objects[id].rt, s.objects[id].history, th, s.clock)
  {
    RunKeeps(th, INITIAL, steps);
  }

  /** No run selects an endpoint inside the open window of its latest trip, or beyond its limit. */
  lemma SelectsNoOpenCircuit(th: Thresholds, steps: seq<Step>, w: Worker, req: RouteRequest, now: int, high: int)
    requires Legal(th, INITIAL, steps)
    requires var s := Run(th, INITIAL, steps);
      Enabled(s, Select(w, req, now, high)) && Picked(s, req, now, high).Some?
    ensures var s := Run(th, INITIAL, steps);
      var o := s.objects[Picked(s, req, now, high).value];
      && (Latched(o.history, th.circuit, th.recovery) ==> now >= LastTrip(o.history, th.circuit) + th.openMs)
      && (Latched(o.history, th.unhealthy, th.recovery) ==> Latched(o.history, th.circuit, th.recovery))
      && Load(s.attempts, Picked(s, req, now, high).value) < o.config.maxConcurrency
  {
    RunKeeps(th, INITIAL, steps);
    var s := Run(th, INITIAL, steps);
    hide Run, Legal, Refines, Latched, LastTrip, Picked;
    PickedAvailable(s, req, now, high);
    var o := s.objects[Picked(s, req, now, high).value];
    assert Sound(o, Load(s.attempts, Picked(s, req, now, high).value), th, s.clock);
    NeverEarly(o.rt, o.history, th, s.clock, now, o.config.maxConcurrency);
  }

  /** Objects listed by a reload are new: no attempt is held on them. */
  lemma ReloadStartsEmpty(th: Thresholds, s: State, configs: seq<Config>, id: ObjectId)
    requires Invariant(th, s) && Enabled(s, Reload(configs))
    requires id in Next(th, s, Reload(configs)).listed
    ensures id !in s.objects
    ensures Load(Next(th, s, Reload(configs)).attempts, id) == 0
  {
    hide Sound;
    LoadNone(s.attempts, id);
  }

  /** Reconfiguring a shared object keeps it within its limit exactly when the limit is not below its load. */
  lemma ShareWithin(th: Thresholds, s: State, id: ObjectId, config: Config)
    requires Invariant(th, s) && Enabled(s, Share(id, config))
    ensures var o := Next(th, s, Share(id, config)).objects[id];
      o.rt.inflight <= o.config.maxConcurrency <==> Load(s.attempts, id) <= config.maxConcurrency
  {
    assert Sound(s.objects[id], Load(s.attempts, id), th, s.clock);
  }

  predicate Within(o: Object) { o.rt.inflight <= o.config.maxConcurrency }

  ghost predicate AllWithin(s: State) { forall id :: id in s.objects ==> Within(s.objects[id]) }

  /** No step of the run lowers a shared object's limit below its load. */
  ghost predicate Considerate(th: Thresholds, s: State, steps: seq<Step>)
    requires Legal(th, s, steps)
    decreases steps
  {
    steps != [] ==>
      && (steps[0].Share? ==> Load(s.attempts, steps[0].id) <= steps[0].config.maxConcurrency)
      && Considerate(th, Next(th, s, steps[0]), steps[1..])
  }

  lemma ObjectWithin(o: Object, th: Thresholds, ok: bool, latency: int, now: int)
    ensures Within(o) ==> Within(Look(o, now)) && Within(Check(o, ok, latency, now, th))
    ensures Within(o) ==> Within(GiveBack(o, ok, latency, now, th))
    ensures Available(Probe(o.rt, now), o.config.maxConcurrency) ==> Within(Take(Look(o, now)))
  {
  }

  lemma SelectWithin(th: Thresholds, s: State, w: Worker, req: RouteRequest, now: int, high: int)
    requires Enabled(s, Select(w, req, now, high)) && AllWithin(s)
    ensures AllWithin(Next(th, s, Select(w, req, now, high)))
  {
    hide Within, Look, Take, Available, Picked, Supports;
    forall id | id in s.objects ensures Within(Surveyed(s, req, now)[id]) {
      ObjectWithin(s.objects[id], th, true, 0, now);
    }
    if Picked(s, req, now, high).Some? {
      PickedAvailable(s, req, now, high);
      ObjectWithin(s.objects[Picked(s, req, now, high).value], th, true, 0, now);
    }
  }

  lemma ReloadWithin(th: Thresholds, s: State, configs: seq<Config>)
    requires Enabled(s, Reload(configs)) && AllWithin(s)
    requires forall id :: id in s.objects ==> id < s.nextId
    ensures AllWithin(Next(th, s, Reload(configs)))
  {
    hide Within, Committed, CommittedAll, Installed;
    var t := Next(th, s, Reload(configs));
    forall id | id in t.objects ensures Within(t.objects[id]) {
      if id >= s.nextId {
        assert t.objects[id] == Committed(s, configs[id - s.nextId]);
        CommittedWithin(s, configs[id - s.nextId]);
      }
    }
  }

  lemma CommittedWithin(s: State, c: Config)
    requires c.maxConcurrency >= 1 && forall id :: id in s.listed ==> id in s.objects
    ensures Within(Committed(s, c))
  {
  }

  lemma WithinStep(th: Thresholds, s: State, step: Step)
    requires Invariant(th, s) && Enabled(s, step) && AllWithin(s)
    requires step.Share? ==> Load(s.attempts, step.id) <= step.config.maxConcurrency
    ensures AllWithin(Next(th, s, step))
  {
    hide Sound, Load, Look, Check, GiveBack, Take, Reloaded, Picked, Surveyed, Reconfigured;
    match step
    case Select(w, req, now, high) => SelectWithin(th, s, w, req, now, high);
    case Report(w, ok, latency, now) => ObjectWithin(s.objects[s.attempts[w]], th, ok, latency, now);
    case Health(id, ok, latency, now) => ObjectWithin(s.objects[id], th, ok, latency, now);
    case Reload(configs) => ReloadWithin(th, s, configs);
    case Share(id, config) => ShareWithin(th, s, id, config);
    case Create(config) =>
    case List(ids) =>
  }

  lemma {:induction false} WithinKept(th: Thresholds, s: State, steps: seq<Step>)
    requires Invariant(th, s) && AllWithin(s) && Legal(th, s, steps) && Considerate(th, s, steps)
    ensures AllWithin(Run(th, s, steps))
    decreases steps
  {
    hide Invariant, AllWithin, Next;
    if steps != [] {
      StepKeeps(th, s, steps[0]);
      WithinStep(th, s, steps[0]);
      WithinKept(th, Next(th, s, steps[0]), steps[1..]);
    }
  }

  /** Objects are shared only by the first load, before anything is selected. */
  ghost predicate SharesFirst(steps: seq<Step>) {
    forall i, j :: 0 <= i < j < |steps| && steps[i].Select? ==> !steps[j].Share?
  }

  lemma {:induction false} NoShares(th: Thresholds, s: State, steps: seq<Step>)
    requires Legal(th, s, steps) && forall i :: 0 <= i < |steps| ==> !steps[i].Share?
    ensures Considerate(th, s, steps)
    decreases steps
  {
    hide Next, Enabled;
    if steps != [] {
      NoShares(th, Next(th, s, steps[0]), steps[1..]);
    }
  }

  /** While nothing has been selected, nothing is in flight, so no limit is below a load. */
  lemma {:induction false} SharesFirstConsiderate(th: Thresholds, s: State, steps: seq<Step>)
    requires s.attempts == map[] && Legal(th, s, steps) && SharesFirst(steps)
    ensures Considerate(th, s, steps)
    decreases steps
  {
    hide Load;
    if steps != [] {
      var rest := steps[1..];
      assert forall i :: 0 <= i < |rest| ==> rest[i] == steps[i + 1];
      if steps[0].Select? {
        NoShares(th, Next(th, s, steps[0]), rest);
      } else {
        if steps[0].Share? {
          LoadNone(s.attempts, steps[0].id);
        }
        SharesFirstConsiderate(th, Next(th, s, steps[0]), rest);
      }
    }
  }

  /**
   * The program shares objects only while it loads its one task, and reloads make new ones: in every such
   * run every object, listed or replaced, stays within its limit.
   */
  lemma InflightWithinLimit(th: Thresholds, steps: seq<Step>, id: ObjectId)
    requires Legal(th, INITIAL, steps) && SharesFirst(steps)
    requires id in Run(th, INITIAL, steps).objects
    ensures var s := Run(th, INITIAL, steps);
      0 <= s.objects[id].rt.inflight <= s.objects[id].config.maxConcurrency
  {
    SharesFirstConsiderate(th, INITIAL, steps);
    WithinKept(th, INITIAL, steps);
    InflightConserved(th, steps, id);
  }

  // ----- Old attempts and new objects -----

  /** Every listed object is at least as new as `first`, and `w` still holds the attempt on `id`. */
  ghost predicate HeldOver(s: State, first: ObjectId, w: Worker, id: ObjectId) {
    && first <= s.nextId
    && (forall i :: 0 <= i < |s.listed| ==> s.listed[i] >= first)
    && w in s.attempts && s.attempts[w] == id
  }

  lemma HeldOverStep(th: Thresholds, s: State, step: Step, first: ObjectId, w: Worker, id: ObjectId)
    requires HeldOver(s, first, w, id) && Enabled(s, step)
    requires !step.List? && !(step.Report? && step.worker == w)
    ensures HeldOver(Next(th, s, step), first, w, id)
  {
    hide Picked, Surveyed, Take, GiveBack, Check, Installed, CommittedAll;
  }

  lemma {:induction false} HeldOverRun(
    th: Thresholds, s: State, steps: seq<Step>, first: ObjectId, w: Worker, id: ObjectId)
    requires HeldOver(s, first, w, id) && Legal(th, s, steps)
    requires forall i :: 0 <= i < |steps| ==> !steps[i].List? && !(steps[i].Report? && steps[i].worker == w)
    ensures HeldOver(Run(th, s, steps), first, w, id)
    decreases steps
  {
    hide HeldOver, Next, Enabled;
    if steps != [] {
      HeldOverStep(th, s, steps[0], first, w, id);
      HeldOverRun(th, Next(th, s, steps[0]), steps[1..], first, w, id);
    }
  }

  /**
   * In every run: when an attempt that was selected before a reload completes, however much later and after
   * however many further reloads, the completion changes no listed object.
   */
  lemma OldCompletionsHarmless(
    th: Thresholds, before: seq<Step>, configs: seq<Config>, later: seq<Step>, w: Worker, ok: bool, latency: int,
    now: int)
    requires Legal(th, INITIAL, before) && Enabled(Run(th, INITIAL, before), Reload(configs))
    requires w in Run(th, INITIAL, before).attempts
    requires Legal(th, Next(th, Run(th, INITIAL, before), Reload(configs)), later)
    requires forall j :: 0 <= j < |later| ==> !later[j].List? && !(later[j].Report? && later[j].worker == w)
    requires var u := Run(th, Next(th, Run(th, INITIAL, before), Reload(configs)), later);
      Enabled(u, Report(w, ok, latency, now))
    ensures var u := Run(th, Next(th, Run(th, INITIAL, before), Reload(configs)), later);
      forall id :: id in u.listed && id in u.objects ==>
        Next(th, u, Report(w, ok, latency, now)).objects[id] == u.objects[id]
  {
    var s := Run(th, INITIAL, before);
    RunKeeps(th, INITIAL, before);
    assert s.attempts[w] < s.nextId;
    hide Run, Legal, Sound, Invariant;
    var t := Next(th, s, Reload(configs));
    HeldOverStart(th, s, configs, w);
    HeldOverRun(th, t, later, s.nextId, w, s.attempts[w]);
    hide GiveBack;
  }

  lemma HeldOverStart(th: Thresholds, s: State, configs: seq<Config>, w: Worker)
    requires Enabled(s, Reload(configs)) && w in s.attempts
    ensures HeldOver(Next(th, s, Reload(configs)), s.nextId, w, s.attempts[w])
  {
    hide Installed, CommittedAll;
  }

  // ----- What steps leave alone, and what they carry over -----

  /** A selection touches no object that is not listed or does not support the request, and changes no configuration. */
  lemma SelectTouches(th: Thresholds, s: State, w: Worker, req: RouteRequest, now: int, high: int, id: ObjectId)
    requires Enabled(s, Select(w, req, now, high)) && id in s.objects
    ensures var t := Next(th, s, Select(w, req, now, high));
      && id in t.objects && t.objects[id].config == s.objects[id].config
      && (id !in s.listed || !Supports(s.objects[id].config, req) ==> t.objects[id] == s.objects[id])
  {
    hide Supports, Available, Score, Rank;
    if Picked(s, req, now, high).Some? {
      PickedSupports(s, req, now, high);
    }
    hide Picked;
  }

  lemma PickedSupports(s: State, req: RouteRequest, now: int, high: int)
    requires forall id :: id in s.listed ==> id in s.objects
    requires Picked(s, req, now, high).Some?
    ensures Supports(s.objects[Picked(s, req, now, high).value].config, req)
  {
    var n := |s.listed|;
    var configs := seq(n, i requires 0 <= i < n => s.objects[s.listed[i]].config);
    var probed := seq(n, i requires 0 <= i < n => Probe(s.objects[s.listed[i]].rt, now));
    RouteSound(configs, probed, req, high);
  }

  /** `p` is the last listed position whose object has the URL and the model of `c`. */
  ghost predicate LastOfKind(s: State, c: Config, p: nat)
    requires forall id :: id in s.listed ==> id in s.objects
  {
    && p < |s.listed| && SameKind(s.objects[s.listed[p]].config, c)
    && forall q :: p < q < |s.listed| ==> !SameKind(s.objects[s.listed[q]].config, c)
  }

  predicate SameKind(a: Config, b: Config) {
    a.baseUrl + "|" + a.servedModel == b.baseUrl + "|" + b.servedModel
  }

  lemma {:induction false} PredecessorLast(s: State, c: Config, n: nat)
    requires (forall id :: id in s.listed ==> id in s.objects) && n <= |s.listed|
    ensures var found := Predecessor(s, s.listed[..n], Key(c));
      if found.None? then forall q :: 0 <= q < n ==> !SameKind(s.objects[s.listed[q]].config, c)
      else exists p :: 0 <= p < n && found.value == s.listed[p] && SameKind(s.objects[s.listed[p]].config, c)
                       && forall q :: p < q < n ==> !SameKind(s.objects[s.listed[q]].config, c)
  {
    if n > 0 {
      assert s.listed[..n][..n - 1] == s.listed[..n - 1];
      PredecessorLast(s, c, n - 1);
    }
  }

  /**
   * A reload carries over the breaker, the health and the latency of the last listed object with the same URL
   * and model, with nothing in flight; where there is none, it starts afresh.
   */
  lemma ReloadCarriesOver(th: Thresholds, s: State, configs: seq<Config>, i: nat, p: nat)
    requires Invariant(th, s) && Enabled(s, Reload(configs)) && i < |configs|
    ensures var t := Next(th, s, Reload(configs));
      && |t.listed| == |configs| && t.listed[i] in t.objects
      && t.objects[t.listed[i]].config == configs[i]
      && (LastOfKind(s, configs[i], p) ==>
            t.objects[t.listed[i]].rt == s.objects[s.listed[p]].rt.(inflight := 0, halfOpenInflight := 0))
      && ((forall q :: 0 <= q < |s.listed| ==> !SameKind(s.objects[s.listed[q]].config, configs[i])) ==>
            t.objects[t.listed[i]].rt == FRESH)
  {
    CommittedCarries(s, configs[i], p);
    ReloadedPlace(th, s, configs, i);
    hide Next, Committed, LastOfKind, SameKind, Sound, Invariant;
  }

  lemma ReloadedPlace(th: Thresholds, s: State, configs: seq<Config>, i: nat)
    requires Enabled(s, Reload(configs)) && i < |configs|
    ensures var t := Next(th, s, Reload(configs));
      |t.listed| == |configs| && t.listed[i] in t.objects && t.objects[t.listed[i]] == Committed(s, configs[i])
  {
    hide Committed, CommittedAll, Installed;
  }

  lemma CommittedCarries(s: State, c: Config, p: nat)
    requires forall id :: id in s.listed ==> id in s.objects
    ensures Committed(s, c).config == c
    ensures LastOfKind(s, c, p) ==>
      Committed(s, c).rt == s.objects[s.listed[p]].rt.(inflight := 0, halfOpenInflight := 0)
    ensures (forall q :: 0 <= q < |s.listed| ==> !SameKind(s.objects[s.listed[q]].config, c)) ==>
      Committed(s, c).rt == FRESH
  {
    PredecessorLast(s, c, |s.listed|);
    assert s.listed[..|s.listed|] == s.listed;
    hide Predecessor, SameKind, Key;
  }

  /** Taking over an object replaces its configuration but for its key, and leaves everything else. */
  lemma ShareReplaces(th: Thresholds, s: State, id: ObjectId, config: Config)
    requires Enabled(s, Share(id, config))
    ensures var o := Next(th, s, Share(id, config)).objects[id];
      && o.rt == s.objects[id].rt
      && (o.config.role, o.config.logicalModels, o.config.weight, o.config.maxContextLen, o.config.maxConcurrency)
         == (config.role, config.logicalModels, config.weight, config.maxContextLen, config.maxConcurrency)
      && SameKind(o.config, config)
  {
  }

  // ----- How far it goes: exact conditions, and runs that go there -----

  lemma {:induction false} RunExtends(th: Thresholds, s: State, steps: seq<Step>, step: Step)
    requires Legal(th, s, steps) && Enabled(Run(th, s, steps), step)
    ensures Legal(th, s, steps + [step]) && Run(th, s, steps + [step]) == Next(th, Run(th, s, steps), step)
    decreases steps
  {
    hide Enabled, Next;
    if steps == [] {
      assert [step][1..] == [] && steps + [step] == [step];
    } else {
      assert (steps + [step])[1..] == steps[1..] + [step];
      RunExtends(th, Next(th, s, steps[0]), steps[1..], step);
    }
  }

  /** An object listed alone is picked exactly when it can serve the request. */
  lemma SolePicked(s: State, id: ObjectId, req: RouteRequest, now: int, high: int)
    requires s.listed == [id] && id in s.objects && req.allowDegrade
    ensures Picked(s, req, now, high)
            == if Servable(s.objects[id].config, Probe(s.objects[id].rt, now), req) then Some(id) else None
  {
    var configs := seq(1, i requires 0 <= i < 1 => s.objects[s.listed[i]].config);
    var probed := seq(1, i requires 0 <= i < 1 => Probe(s.objects[s.listed[i]].rt, now));
    RouteOptimal(configs, probed, req, high);
    PickSound(Candidates(configs, probed, req, high));
    hide Servable, Pick, Candidates;
    assert configs[0] == s.objects[id].config && probed[0] == Probe(s.objects[id].rt, now);
  }

  /** What a selection does then. */
  lemma SoleSelect(th: Thresholds, s: State, id: ObjectId, w: Worker, req: RouteRequest, now: int, high: int)
    requires s.listed == [id] && id in s.objects && req.allowDegrade && w !in s.attempts && s.clock <= now
    requires Servable(s.objects[id].config, Probe(s.objects[id].rt, now), req)
    ensures Enabled(s, Select(w, req, now, high))
    ensures Next(th, s, Select(w, req, now, high))
            == State(s.objects[id := Take(Look(s.objects[id], now))], s.nextId, s.listed, s.attempts[w := id], now)
  {
    SolePicked(s, id, req, now, high);
    hide Picked, Take, Look;
    var seen := Surveyed(s, req, now);
    assert seen == s.objects[id := Look(s.objects[id], now)];
    assert seen[id := Take(seen[id])] == s.objects[id := Take(seen[id])];
  }

  /**
   * The bound on half-open circuits is exact: in any run, the selection that finds the window of a sole
   * open endpoint over takes it to one request more than at entry if and only if its limit allows.
   */
  lemma ProbeBoundAttained(
    th: Thresholds, steps: seq<Step>, id: ObjectId, w: Worker, req: RouteRequest, now: int, high: int)
    requires Legal(th, INITIAL, steps)
    requires var s := Run(th, INITIAL, steps);
      && s.listed == [id] && id in s.objects && w !in s.attempts && s.clock <= now && req.allowDegrade
      && s.objects[id].rt.circuit.Open? && now >= s.objects[id].rt.openUntil
      && Supports(s.objects[id].config, req) && Fits(s.objects[id].config, req)
    ensures var s := Run(th, INITIAL, steps);
      && Enabled(s, Select(w, req, now, high))
      && var o := Next(th, s, Select(w, req, now, high)).objects[id];
         && o.rt.circuit.HalfOpen? && o.entry == Load(s.attempts, id)
         && (o.rt.inflight == o.entry + 1 <==> o.entry < o.config.maxConcurrency)
  {
    var s := Run(th, INITIAL, steps);
    InflightConserved(th, steps, id);
    hide Run, Legal, Load;
    if Load(s.attempts, id) < s.objects[id].config.maxConcurrency {
      SoleSelect(th, s, id, w, req, now, high);
    } else {
      SolePicked(s, id, req, now, high);
      hide Picked;
    }
  }

  /**
   * In any run, an endpoint listed alone is selected exactly when it has room and its history allows: no trip
   * lasts and it is healthy, or the window of the latest trip is over and no probe is in flight.
   */
  lemma SelectedExactly(th: Thresholds, steps: seq<Step>, id: ObjectId, req: RouteRequest, now: int, high: int)
    requires Legal(th, INITIAL, steps)
    requires var s := Run(th, INITIAL, steps);
      s.listed == [id] && id in s.objects && s.clock <= now && Suits(s.objects[id].config, req)
    ensures var s := Run(th, INITIAL, steps);
      var o := s.objects[id];
      Picked(s, req, now, high) == Some(id) <==>
        && Load(s.attempts, id) < o.config.maxConcurrency
        && if Latched(o.history, th.circuit, th.recovery)
           then now >= LastTrip(o.history, th.circuit) + th.openMs && !Probing(o.rt)
           else !Latched(o.history, th.unhealthy, th.recovery)
  {
    RunKeeps(th, INITIAL, steps);
    var s := Run(th, INITIAL, steps);
    hide Run, Legal, Latched, LastTrip, Picked, Supports, Fits, Available, Probe;
    var o := s.objects[id];
    assert Sound(o, Load(s.attempts, id), th, s.clock);
    hide Load, Refines;
    AvailableExactly(o.rt, o.history, th, s.clock, now, o.config.maxConcurrency);
    SolePicked(s, id, req, now, high);
  }

  /** One failure opens the circuit for ten milliseconds; two successes close it. */
  const TOUCHY := Thresholds(2, 1, 1, 10)

  /** A request that the endpoint serves, if it is available. */
  predicate Suits(c: Config, req: RouteRequest) {
    req.allowDegrade && Supports(c, req) && Fits(c, req)
  }

  /** One object, listed alone. */
  function Solo(o: Object, attempts: map<Worker, ObjectId>, clock: int): State {
    State(map[0 := o], 1, [0], attempts, clock)
  }

  lemma Loaded(th: Thresholds, c: Config)
    requires c.maxConcurrency >= 1
    ensures Legal(th, INITIAL, [Reload([c])])
    ensures Run(th, INITIAL, [Reload([c])]) == Solo(Fresh(c), map[], 0)
  {
    RunExtends(th, INITIAL, [], Reload([c]));
    assert [] + [Reload([c])] == [Reload([c])];
    var t := Next(th, INITIAL, Reload([c]));
    assert t.listed == [0] && t.objects == map[0 := Fresh(c)];
  }

  lemma ThenSelect(th: Thresholds, steps: seq<Step>, o: Object, attempts: map<Worker, ObjectId>, clock: int,
                   w: Worker, req: RouteRequest, now: int, high: int)
    requires Legal(th, INITIAL, steps) && Run(th, INITIAL, steps) == Solo(o, attempts, clock)
    requires w !in attempts && clock <= now && Suits(o.config, req)
    requires Available(Probe(o.rt, now), o.config.maxConcurrency)
    ensures Legal(th, INITIAL, steps + [Select(w, req, now, high)])
    ensures Run(th, INITIAL, steps + [Select(w, req, now, high)])
            == Solo(Take(Look(o, now)), attempts[w := 0], now)
  {
    hide Legal, Run, Take, Look, Available, Supports, Fits;
    SoleSelect(th, Solo(o, attempts, clock), 0, w, req, now, high);
    RunExtends(th, INITIAL, steps, Select(w, req, now, high));
    assert map[0 := o][0 := Take(Look(o, now))] == map[0 := Take(Look(o, now))];
  }

  lemma ThenHealth(th: Thresholds, steps: seq<Step>, o: Object, attempts: map<Worker, ObjectId>, clock: int, ok: bool,
                   now: int)
    requires Legal(th, INITIAL, steps) && Run(th, INITIAL, steps) == Solo(o, attempts, clock) && clock <= now
    ensures Legal(th, INITIAL, steps + [Health(0, ok, 0, now)])
    ensures Run(th, INITIAL, steps + [Health(0, ok, 0, now)]) == Solo(Check(o, ok, 0, now, th), attempts, now)
  {
    hide Legal, Run, Check;
    RunExtends(th, INITIAL, steps, Health(0, ok, 0, now));
    assert map[0 := o][0 := Check(o, ok, 0, now, th)] == map[0 := Check(o, ok, 0, now, th)];
  }

  lemma ThenReport(th: Thresholds, steps: seq<Step>, o: Object, attempts: map<Worker, ObjectId>, clock: int,
                   w: Worker, ok: bool, now: int)
    requires Legal(th, INITIAL, steps) && Run(th, INITIAL, steps) == Solo(o, attempts, clock)
    requires w in attempts && attempts[w] == 0 && clock <= now
    ensures Legal(th, INITIAL, steps + [Report(w, ok, 0, now)])
    ensures Run(th, INITIAL, steps + [Report(w, ok, 0, now)])
            == Solo(GiveBack(o, ok, 0, now, th), attempts - {w}, now)
  {
    hide Legal, Run, GiveBack;
    RunExtends(th, INITIAL, steps, Report(w, ok, 0, now));
    assert map[0 := o][0 := GiveBack(o, ok, 0, now, th)] == map[0 := GiveBack(o, ok, 0, now, th)];
  }

  /** A run in which the circuit opens under a request, which then completes during the probe. */
  function StaleRun(c: Config, req: RouteRequest, high: int): seq<Step> {
    [Reload([c]), Select(0, req, 0, high), Health(0, false, 0, 0), Select(1, req, 10, high),
     Report(0, true, 0, 10), Select(2, req, 10, high)]
  }

  /** A completion sent before the circuit opened frees the probe slot: two probes are in flight at once. */
  lemma StaleCompletionFreesProbe(c: Config, req: RouteRequest, high: int)
    requires c.maxConcurrency >= 2 && Suits(c, req)
    ensures Legal(TOUCHY, INITIAL, StaleRun(c, req, high))
    ensures var s := Run(TOUCHY, INITIAL, StaleRun(c, req, high));
      && s.objects.Keys == {0} && s.attempts == map[1 := 0, 2 := 0]
      && s.objects[0].rt.circuit.HalfOpen? && s.objects[0].rt.inflight == 2
  {
    hide Legal, Run, Supports, Fits;
    Loaded(TOUCHY, c);
    var run := [Reload([c])];
    var o := Fresh(c);
    ThenSelect(TOUCHY, run, o, map[], 0, 0, req, 0, high);
    run, o := run + [Select(0, req, 0, high)], Take(Look(o, 0));
    ThenHealth(TOUCHY, run, o, map[0 := 0], 0, false, 0);
    run, o := run + [Health(0, false, 0, 0)], Check(o, false, 0, 0, TOUCHY);
    ThenSelect(TOUCHY, run, o, map[0 := 0], 0, 1, req, 10, high);
    run, o := run + [Select(1, req, 10, high)], Take(Look(o, 10));
    ThenReport(TOUCHY, run, o, map[0 := 0, 1 := 0], 10, 0, true, 10);
    run, o := run + [Report(0, true, 0, 10)], GiveBack(o, true, 0, 10, TOUCHY);
    assert map[0 := 0, 1 := 0] - {0} == map[1 := 0];
    ThenSelect(TOUCHY, run, o, map[1 := 0], 10, 2, req, 10, high);
    assert run + [Select(2, req, 10, high)] == StaleRun(c, req, high);
  }

  /**
   * The single probe is per object, not per backend: after a reload, the successor of an object is ready
   * for a half-open probe of its own exactly when the object is half open, probing or not.
   */
  lemma SuccessorProbes(th: Thresholds, s: State, configs: seq<Config>, i: nat, previous: ObjectId, now: int)
    requires Invariant(th, s) && Enabled(s, Reload(configs)) && i < |configs|
    requires Predecessor(s, s.listed, Key(configs[i])) == Some(previous)
    ensures var t := Next(th, s, Reload(configs));
      && i < |t.listed| && t.listed[i] !in s.objects && t.objects[previous] == s.objects[previous]
      && var rt := Probe(t.objects[t.listed[i]].rt, now);
         rt.circuit.HalfOpen? && Available(rt, configs[i].maxConcurrency)
         <==> Probe(s.objects[previous].rt, now).circuit.HalfOpen?
  {
    ReloadedAt(th, s, configs, i, previous);
    hide Sound, Predecessor, Load, Probe, Available, Renewed, Next, Invariant;
    RenewedProbes(configs[i], s.objects[previous], now);
  }

  lemma ReloadedAt(th: Thresholds, s: State, configs: seq<Config>, i: nat, previous: ObjectId)
    requires Invariant(th, s) && Enabled(s, Reload(configs)) && i < |configs| && previous in s.objects
    ensures var t := Next(th, s, Reload(configs));
      && i < |t.listed| && t.listed[i] !in s.objects && t.listed[i] in t.objects
      && t.objects[t.listed[i]] == Committed(s, configs[i])
      && previous in t.objects && t.objects[previous] == s.objects[previous]
  {
    hide Sound, Committed, CommittedAll, Installed;
  }

  lemma RenewedProbes(c: Config, o: Object, now: int)
    requires c.maxConcurrency >= 1
    ensures var rt := Probe(Renewed(c, o).rt, now);
      rt.circuit.HalfOpen? && Available(rt, c.maxConcurrency) <==> Probe(o.rt, now).circuit.HalfOpen?
  {
  }

  /** A run in which a reload comes while a probe is in flight. */
  function SecondProbeRun(c: Config, req: RouteRequest, high: int): seq<Step> {
    [Reload([c]), Health(0, false, 0, 0), Select(0, req, 10, high), Reload([c]), Select(1, req, 10, high)]
  }

  lemma ReloadAllowsSecondProbe(c: Config, req: RouteRequest, high: int)
    requires c.maxConcurrency >= 1 && Suits(c, req)
    ensures Legal(TOUCHY, INITIAL, SecondProbeRun(c, req, high))
    ensures var s := Run(TOUCHY, INITIAL, SecondProbeRun(c, req, high));
      && s.attempts == map[0 := 0, 1 := 1] && s.objects.Keys == {0, 1}
      && Key(s.objects[0].config) == Key(s.objects[1].config)
      && s.objects[0].rt.circuit.HalfOpen? && s.objects[0].rt.halfOpenInflight == 1
      && s.objects[1].rt.circuit.HalfOpen? && s.objects[1].rt.halfOpenInflight == 1
  {
    hide Legal, Run, Supports, Fits;
    Loaded(TOUCHY, c);
    var run := [Reload([c])];
    var o := Fresh(c);
    ThenHealth(TOUCHY, run, o, map[], 0, false, 0);
    run, o := run + [Health(0, false, 0, 0)], Check(o, false, 0, 0, TOUCHY);
    ThenSelect(TOUCHY, run, o, map[], 0, 0, req, 10, high);
    run, o := run + [Select(0, req, 10, high)], Take(Look(o, 10));
    RunExtends(TOUCHY, INITIAL, run, Reload([c]));
    run := run + [Reload([c])];
    SoloReloaded(TOUCHY, c, o, map[0 := 0], 10);
    var t := State(map[0 := o, 1 := Renewed(c, o)], 2, [1], map[0 := 0], 10);
    SoleSelect(TOUCHY, t, 1, 1, req, 10, high);
    RunExtends(TOUCHY, INITIAL, run, Select(1, req, 10, high));
    assert run + [Select(1, req, 10, high)] == SecondProbeRun(c, req, high);
  }

  lemma SoloReloaded(th: Thresholds, c: Config, o: Object, attempts: map<Worker, ObjectId>, clock: int)
    requires c.maxConcurrency >= 1 && Key(o.config) == Key(c)
    ensures Enabled(Solo(o, attempts, clock), Reload([c]))
    ensures Next(th, Solo(o, attempts, clock), Reload([c]))
            == State(map[0 := o, 1 := Renewed(c, o)], 2, [1], attempts, clock)
  {
    hide Renewed, Key;
    var s := Solo(o, attempts, clock);
    var t := Next(th, s, Reload([c]));
    assert Committed(s, c) == Renewed(c, o);
    assert t.listed == [1] && t.objects == map[0 := o, 1 := Renewed(c, o)];
  }
}
