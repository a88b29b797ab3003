/**
 * The poller: its map from descriptors to channels, the index each channel carries, and the kernel's
 * interest set must agree for every epoll call to be legal.
 */
module Poller {

  const NEW := -1
  const ADDED := 1
  const DELETED := 2

  type Mask = bv32
  const NONE_EVENT: Mask := 0
  const READ_EVENT: Mask := 0x1
  const WRITE_EVENT: Mask := 0x4

  class Channel {
    const fd: int
    var events: Mask
    var index: int
    var addedToLoop: bool

    constructor (fd: int)
      ensures this.fd == fd && View() == BLANK
    {
      this.fd, events, index, addedToLoop := fd, NONE_EVENT, NEW, false;
    }

    function View(): Mark
      reads this
    {
      Mark(events, index, addedToLoop)
    }
  }

  /** The mutable part of a channel. */
  datatype Mark = Mark(events: Mask, index: int, added: bool)

  const BLANK := Mark(NONE_EVENT, NEW, false)

  datatype Control = Add | Modify | Delete

  /** One entry of the kernel's interest set. */
  datatype Interest = Interest(events: Mask, channel: Channel)

  datatype Kernel = Kernel(entries: map<int, Interest>, refusals: nat)

  /** The poller, and every channel created for its loop. */
  datatype State = State(channels: map<int, Channel>, kernel: Kernel, marks: map<Channel, Mark>)

  datatype Step =
    | Create(channel: Channel)
    | SetEvents(channel: Channel, events: Mask)
    | Remove(channel: Channel)

  const INITIAL := State(map[], Kernel(map[], 0), map[])

  predicate Registered(s: State, c: Channel) {
    c.fd in s.channels && s.channels[c.fd] == c
  }

  /** The asserts of the code, all of them. */
  predicate Enabled(s: State, step: Step) {
    match step
    case Create(c) => c !in s.marks
    case SetEvents(c, _) =>
      && c in s.marks
      && (if s.marks[c].index == NEW then c.fd !in s.channels else Registered(s, c))
      && (s.marks[c].index == NEW || s.marks[c].index == DELETED || s.marks[c].index == ADDED)
    case Remove(c) =>
      && c in s.marks
      && Registered(s, c)
      && s.marks[c].events == NONE_EVENT
      && (s.marks[c].index == ADDED || s.marks[c].index == DELETED)
  }

  /** The kernel refuses to add a descriptor that is present, and to change or delete one that is absent. */
  function Controlled(k: Kernel, op: Control, c: Channel, events: Mask): Kernel {
    if (op == Add) == (c.fd in k.entries) then k.(refusals := k.refusals + 1)
    else if op == Delete then k.(entries := k.entries - {c.fd})
    else k.(entries := k.entries[c.fd := Interest(events, c)])
  }

  /** A change of mask: a channel that the kernel does not poll is added, even with an empty mask. */
  function Updated(s: State, c: Channel, events: Mask): State
    requires c in s.marks
  {
    if s.marks[c].index == NEW || s.marks[c].index == DELETED then
      State(if s.marks[c].index == NEW then s.channels[c.fd := c] else s.channels,
            Controlled(s.kernel, Add, c, events),
            s.marks[c := Mark(events, ADDED, true)])
    else if events == NONE_EVENT then
      s.(kernel := Controlled(s.kernel, Delete, c, events), marks := s.marks[c := Mark(events, DELETED, true)])
    else
      s.(kernel := Controlled(s.kernel, Modify, c, events), marks := s.marks[c := Mark(events, s.marks[c].index, true)])
  }

  function Removed(s: State, c: Channel): State
    requires c in s.marks
  {
    State(s.channels - {c.fd},
          if s.marks[c].index == ADDED then Controlled(s.kernel, Delete, c, s.marks[c].events) else s.kernel,
          s.marks[c := Mark(s.marks[c].events, NEW, false)])
  }

  function Next(s: State, step: Step): State
    requires Enabled(s, step)
  {
    match step
    case Create(c) => s.(marks := s.marks[c := BLANK])
    case SetEvents(c, events) => Updated(s, c, events)
    case Remove(c) => Removed(s, c)
  }

  ghost predicate Legal(s: State, steps: seq<Step>)
    decreases steps
  {
    steps != [] ==> Enabled(s, steps[0]) && Legal(Next(s, steps[0]), steps[1..])
  }

  function Run(s: State, steps: seq<Step>): State
    requires Legal(s, steps)
    decreases steps
  {
    if steps == [] then s else Run(Next(s, steps[0]), steps[1..])
  }

  // ----- Agreement -----

  predicate Polled(s: State, c: Channel) {
    c.fd in s.kernel.entries && s.kernel.entries[c.fd].channel == c
  }

  /** The index of a channel says where it is, and the kernel has its mask. */
  predicate Agrees(s: State, c: Channel)
    requires c in s.marks
  {
    && (s.marks[c].index == NEW || s.marks[c].index == ADDED || s.marks[c].index == DELETED)
    && (s.marks[c].index != NEW <==> Registered(s, c))
    && (s.marks[c].index == ADDED <==> Polled(s, c))
    && (Polled(s, c) ==> s.kernel.entries[c.fd].events == s.marks[c].events)
    && (s.marks[c].index == DELETED ==> s.marks[c].events == NONE_EVENT)
  }

  /** Every entry of either map belongs to a channel of that descriptor. */
  ghost predicate Closed(s: State) {
    && (forall fd :: fd in s.channels ==> s.channels[fd] in s.marks && s.channels[fd].fd == fd)
    && (forall fd :: fd in s.kernel.entries ==>
          s.kernel.entries[fd].channel in s.marks && s.kernel.entries[fd].channel.fd == fd)
  }

  ghost predicate Invariant(s: State) {
    && Closed(s)
    && (forall c :: c in s.marks ==> Agrees(s, c))
    && s.kernel.refusals == 0
  }

  /** An entry in the kernel set is an entry in the map, for the same channel. */
  lemma PolledIsRegistered(s: State, fd: int)
    requires Invariant(s) && fd in s.kernel.entries
    ensures fd in s.channels && s.channels[fd] == s.kernel.entries[fd].channel
  {
    var c := s.kernel.entries[fd].channel;
    assert Polled(s, c) && Agrees(s, c);
  }

  /** What a step on `c` leaves alone: everything about other descriptors. */
  ghost predicate Local(s: State, t: State, c: Channel) {
    && (forall d :: d in s.marks && d != c ==> d in t.marks && t.marks[d] == s.marks[d])
    && (forall fd :: fd != c.fd ==>
          && (fd in s.channels <==> fd in t.channels)
          && (fd in s.channels ==> t.channels[fd] == s.channels[fd])
          && (fd in s.kernel.entries <==> fd in t.kernel.entries)
          && (fd in s.kernel.entries ==> t.kernel.entries[fd] == s.kernel.entries[fd]))
  }

  /** Channels other than `c` are where they were, if only `c`'s own descriptor changed hands with it. */
  lemma OthersAgree(s: State, t: State, c: Channel, d: Channel)
    requires Invariant(s) && Local(s, t, c) && c in s.marks && d in s.marks && d != c
    requires c.fd in t.channels ==> t.channels[c.fd] == c
    requires c.fd in t.kernel.entries ==> t.kernel.entries[c.fd].channel == c
    requires Registered(s, c) || c.fd !in s.channels
    ensures Agrees(t, d)
  {
    assert Agrees(s, d);
    if c.fd in s.kernel.entries {
      PolledIsRegistered(s, c.fd);
    }
  }

  /** A mask change is not refused, and puts the channel where its new index says. */
  lemma UpdatedAgrees(s: State, c: Channel, events: Mask)
    requires Invariant(s) && Enabled(s, SetEvents(c, events))
    ensures var t := Updated(s, c, events);
      && Agrees(t, c) && t.kernel.refusals == 0 && Registered(t, c) && t.marks[c].events == events
      && (Polled(t, c) <==> events != NONE_EVENT || s.marks[c].index != ADDED)
      && (c.fd in t.kernel.entries ==> Polled(t, c))
  {
    assert Agrees(s, c);
    if c.fd in s.kernel.entries {
      PolledIsRegistered(s, c.fd);
    }
  }

  lemma UpdatedLocal(s: State, c: Channel, events: Mask)
    requires c in s.marks
    ensures Local(s, Updated(s, c, events), c)
    ensures Updated(s, c, events).marks.Keys == s.marks.Keys
  {
  }

  /** A mask change keeps everything in agreement. */
  lemma UpdatedKeeps(s: State, c: Channel, events: Mask)
    requires Invariant(s) && Enabled(s, SetEvents(c, events))
    ensures Invariant(Updated(s, c, events))
  {
    UpdatedAgrees(s, c, events);
    UpdatedLocal(s, c, events);
    assert Agrees(s, c);
    var t := Updated(s, c, events);
    hide Updated;
    forall d | d in t.marks && d != c ensures Agrees(t, d) {
      OthersAgree(s, t, c, d);
    }
  }

  lemma RemovedKeeps(s: State, c: Channel)
    requires Invariant(s) && Enabled(s, Remove(c))
    ensures Invariant(Removed(s, c)) && Local(s, Removed(s, c), c)
    ensures c.fd !in Removed(s, c).channels && c.fd !in Removed(s, c).kernel.entries
  {
    assert Agrees(s, c);
    if c.fd in s.kernel.entries {
      PolledIsRegistered(s, c.fd);
    }
    var t := Removed(s, c);
    forall d | d in t.marks && d != c ensures Agrees(t, d) {
      assert Agrees(s, d);
    }
  }

  lemma CreateKeeps(s: State, c: Channel)
    requires Invariant(s) && Enabled(s, Create(c))
    ensures Invariant(Next(s, Create(c)))
  {
    var t := Next(s, Create(c));
    forall d | d in t.marks && d != c ensures Agrees(t, d) {
      assert Agrees(s, d);
    }
  }

  lemma StepKeeps(s: State, step: Step)
    requires Invariant(s) && Enabled(s, step)
    ensures Invariant(Next(s, step))
  {
    hide Invariant, Updated, Removed;
    match step
    case Create(c) => CreateKeeps(s, c);
    case SetEvents(c, events) => UpdatedKeeps(s, c, events);
    case Remove(c) => RemovedKeeps(s, c);
  }

  lemma {:induction false} RunKeeps(s: State, steps: seq<Step>)
    requires Invariant(s) && Legal(s, steps)
    ensures Invariant(Run(s, steps))
    decreases steps
  {
    hide Invariant, Next, Enabled;
    if steps != [] {
      StepKeeps(s, steps[0]);
      RunKeeps(Next(s, steps[0]), steps[1..]);
    }
  }

  /**
   * After any channels have been created, changed and removed in any order that respects the asserts:
   * a channel is in the map exactly when its index is not NEW, and in the kernel set exactly
   * when it is ADDED, with the same mask; and the kernel has refused nothing.
   */
  lemma AgreementEveryRun(steps: seq<Step>, c: Channel)
    requires Legal(INITIAL, steps) && c in Run(INITIAL, steps).marks
    ensures Agrees(Run(INITIAL, steps), c)
    ensures Run(INITIAL, steps).kernel.refusals == 0
  {
    RunKeeps(INITIAL, steps);
  }

  /**
   * In every reachable state the asserts come down to two conditions that a caller can see: a channel
   * not registered itself needs a free descriptor, and a removal needs a registered channel without
   * interest.
   */
  lemma AssertsReduce(steps: seq<Step>, c: Channel, events: Mask)
    requires Legal(INITIAL, steps) && c in Run(INITIAL, steps).marks
    ensures var s := Run(INITIAL, steps);
      && (Enabled(s, SetEvents(c, events)) <==> Registered(s, c) || c.fd !in s.channels)
      && (Enabled(s, Remove(c)) <==> Registered(s, c) && s.marks[c].events == NONE_EVENT)
  {
    AgreementEveryRun(steps, c);
  }

  // ----- The poller itself -----

  class EpollPoller {
    var channels: map<int, Channel>
    var kernel: Kernel
    ghost var known: set<Channel>      // every channel created for this loop

    ghost function View(): State
      reads this, known
    {
      State(channels, kernel, map c | c in known :: c.View())
    }

    constructor ()
      ensures View() == INITIAL && known == {}
    {
      channels, kernel, known := map[], Kernel(map[], 0), {};
    }

    ghost method Adopt(c: Channel)
      requires c !in known && c.View() == BLANK
      modifies this`known
      ensures View() == Next(old(View()), Create(c)) && known == old(known) + {c}
    {
      known := known + {c};
    }

    /** `epoll_ctl` with the mask of the channel. */
    method Update(operation: Control, c: Channel)
      modifies this`kernel
      ensures kernel == Controlled(old(kernel), operation, c, c.events)
    {
      if (operation == Add) == (c.fd in kernel.entries) {
        kernel := kernel.(refusals := kernel.refusals + 1);
      } else if operation == Delete {
        kernel := kernel.(entries := kernel.entries - {c.fd});
      } else {
        kernel := kernel.(entries := kernel.entries[c.fd := Interest(c.events, c)]);
      }
    }

    method UpdateChannel(c: Channel)
      modifies this`channels, this`kernel, c`index
      ensures channels == if old(c.index) == NEW then old(channels)[c.fd := c] else old(channels)
      ensures (kernel, c.index) ==
        if old(c.index) == NEW || old(c.index) == DELETED then (Controlled(old(kernel), Add, c, c.events), ADDED)
        else if c.events == NONE_EVENT then (Controlled(old(kernel), Delete, c, c.events), DELETED)
        else (Controlled(old(kernel), Modify, c, c.events), old(c.index))
    {
      hide Controlled;
      var index := c.index;
      if index == NEW || index == DELETED {
        if index == NEW {
          channels := channels[c.fd := c];
        }
        c.index := ADDED;
        Update(Add, c);
      } else if c.events == NONE_EVENT {
        Update(Delete, c);
        c.index := DELETED;
      } else {
        Update(Modify, c);
      }
    }

    /** `Channel::update` after a change of mask to `events`. */
    method SetEvents(c: Channel, events: Mask)
      requires Enabled(View(), Step.SetEvents(c, events))
      modifies this`channels, this`kernel, c
      ensures View() == Next(old(View()), Step.SetEvents(c, events))
    {
      assert c in known;
      hide Controlled, Enabled;
      c.events := events;
      c.addedToLoop := true;
      UpdateChannel(c);
      assert View().marks == old(View()).marks[c := c.View()];
    }

    method RemoveChannel(c: Channel)
      requires Enabled(View(), Remove(c))
      modifies this`channels, this`kernel, c
      ensures View() == Next(old(View()), Remove(c))
    {
      assert c in known;
      hide Controlled, Enabled;
      c.addedToLoop := false;
      var index := c.index;
      channels := channels - {c.fd};
      if index == ADDED {
        Update(Delete, c);
      }
      c.index := NEW;
      assert View().marks == old(View()).marks[c := c.View()];
    }

    method EnableReading(c: Channel)
      requires Enabled(View(), Step.SetEvents(c, c.events | READ_EVENT))
      modifies this`channels, this`kernel, c
      ensures View() == Next(old(View()), Step.SetEvents(c, old(c.events) | READ_EVENT))
    {
      SetEvents(c, c.events | READ_EVENT);
    }

    method DisableReading(c: Channel)
      requires Enabled(View(), Step.SetEvents(c, c.events & !READ_EVENT))
      modifies this`channels, this`kernel, c
      ensures View() == Next(old(View()), Step.SetEvents(c, old(c.events) & !READ_EVENT))
    {
      SetEvents(c, c.events & !READ_EVENT);
    }

    method EnableWriting(c: Channel)
      requires Enabled(View(), Step.SetEvents(c, c.events | WRITE_EVENT))
      modifies this`channels, this`kernel, c
      ensures View() == Next(old(View()), Step.SetEvents(c, old(c.events) | WRITE_EVENT))
    {
      SetEvents(c, c.events | WRITE_EVENT);
    }

    method DisableWriting(c: Channel)
      requires Enabled(View(), Step.SetEvents(c, c.events & !WRITE_EVENT))
      modifies this`channels, this`kernel, c
      ensures View() == Next(old(View()), Step.SetEvents(c, old(c.events) & !WRITE_EVENT))
    {
      SetEvents(c, c.events & !WRITE_EVENT);
    }

    method DisableAll(c: Channel)
      requires Enabled(View(), Step.SetEvents(c, NONE_EVENT))
      modifies this`channels, this`kernel, c
      ensures View() == Next(old(View()), Step.SetEvents(c, NONE_EVENT))
    {
      SetEvents(c, NONE_EVENT);
    }
  }
}
