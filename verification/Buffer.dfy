/** The connection buffer: a byte queue kept in one growing array, with room to prepend. */
module Buffer {

  newtype byte = x: int | 0 <= x < 256

  const CHEAP_PREPEND := 8
  const EXTRA_BUFFER := 1024 * 1024

  // ----- Integers in network order -----

  newtype int8 = x: int | -0x80 <= x < 0x80
  newtype int16 = x: int | -0x8000 <= x < 0x8000
  newtype int32 = x: int | -0x8000_0000 <= x < 0x8000_0000
  newtype int64 = x: int | -0x8000_0000_0000_0000 <= x < 0x8000_0000_0000_0000

  /** The low `width` bytes of a two's complement number, most significant first. */
  function Encode(x: int, width: nat): (bs: seq<byte>)
    ensures |bs| == width
    decreases width
  {
    if width == 0 then [] else Encode(x / 256, width - 1) + [(x % 256) as byte]
  }

  /** The number that two's complement bytes stand for: only the first byte carries the sign. */
  function Decode(bs: seq<byte>): int
    requires bs != []
  {
    var last := bs[|bs| - 1] as int;
    if |bs| == 1 then (if last < 128 then last else last - 256)
    else Decode(bs[..|bs| - 1]) * 256 + last
  }

  /** Whether a number fits in `width` bytes. */
  predicate Fits(x: int, width: nat)
    requires width > 0
    decreases width
  {
    if width == 1 then -128 <= x < 128 else Fits(x / 256, width - 1)
  }

  lemma {:induction false} DecodeEncode(x: int, width: nat)
    requires width > 0 && Fits(x, width)
    ensures Decode(Encode(x, width)) == x
    decreases width
  {
    var bs := Encode(x, width);
    assert bs[..width - 1] == Encode(x / 256, width - 1);
    if width > 1 {
      DecodeEncode(x / 256, width - 1);
    }
  }

  function Power(n: nat): (p: nat)
    ensures p > 0
  {
    if n == 0 then 1 else 256 * Power(n - 1)
  }

  /** Most significant byte first: byte `i` of `width` is the digit of weight 256 to the `width - 1 - i`. */
  lemma {:induction false} EncodeBigEndian(x: int, width: nat, i: nat)
    requires i < width
    ensures Encode(x, width)[i] as int == x / Power(width - 1 - i) % 256
    decreases width
  {
    if i < width - 1 {
      EncodeBigEndian(x / 256, width - 1, i);
      var p := Power(width - 2 - i);
      DivideTwice(x, p);
      assert Power(width - 1 - i) == 256 * p;
      assert Encode(x, width)[i] == Encode(x / 256, width - 1)[i];
    }
  }

  lemma DivideTwice(x: int, p: nat)
    requires p > 0
    ensures x / 256 / p == x / (256 * p)
  {
    var q, r := x / 256, x % 256;
    var a, b := q / p, q % p;
    assert x == 256 * (p * a + b) + r;
    assert 256 * (p * a + b) == (256 * p) * a + 256 * b;
    assert 0 <= 256 * b + r < 256 * p;
    DivideIs(x, 256 * p, a, 256 * b + r);
  }

  lemma DivideIs(x: int, d: int, q: int, r: int)
    requires d > 0 && x == d * q + r && 0 <= r < d
    ensures x / d == q
  {
    var e := x / d - q;
    assert d * e == r - x % d;
    assert e > 0 ==> d * e >= d;
    assert e < 0 ==> d * e <= -d;
  }

  /** Every value of the four integer types fits its width. */
  lemma IntsFit(a: int8, b: int16, c: int32, d: int64)
    ensures Fits(a as int, 1) && Fits(b as int, 2) && Fits(c as int, 4) && Fits(d as int, 8)
  {
    FitsInt16(b);
    FitsInt32(c);
    FitsInt64(d);
    hide Fits;
    FitsInt8(a);
  }

  lemma FitsInt8(x: int8)
    ensures Fits(x as int, 1)
  {
  }

  lemma FitsInt16(x: int16)
    ensures Fits(x as int, 2)
  {
    assert Fits(x as int / 256, 1);
  }

  lemma FitsInt32(x: int32)
    ensures Fits(x as int, 4)
  {
    var a := x as int / 256;
    var b := a / 256;
    var c := b / 256;
    assert Fits(c, 1) && Fits(b, 2) && Fits(a, 3);
  }

  lemma FitsInt64(x: int64)
    ensures Fits(x as int, 8)
  {
    var a := x as int / 256;
    var b := a / 256;
    var c := b / 256;
    var d := c / 256;
    assert -0x8000_0000 <= d < 0x8000_0000;
    FitsInt32(d as int32);
    assert Fits(c, 5) && Fits(b, 6) && Fits(a, 7);
  }

  // ----- The layout as a value -----

  /** A byte queue, where it starts in its array, and how long the array is. */
  datatype Layout = Layout(queue: seq<byte>, reader: nat, size: nat) {
    function Writable(): int { size - reader - |queue| }

    predicate Valid() { CHEAP_PREPEND <= size && Writable() >= 0 }
  }

  datatype Op =
    | Append(data: seq<byte>)
    | Retrieve(len: nat)
    | Prepend(data: seq<byte>)
    | Unwrite(len: nat)
    | ReadFd(data: seq<byte>)

  /** The condition that the operation asserts; for a read, that the data fits the vectors offered. */
  predicate Admits(l: Layout, op: Op) {
    match op
    case Append(_) => true
    case Retrieve(len) => len <= |l.queue|
    case Prepend(data) => |data| <= l.reader
    case Unwrite(len) => len <= |l.queue|
    case ReadFd(data) => |data| <= l.Writable() + if l.Writable() < EXTRA_BUFFER then EXTRA_BUFFER else 0
  }

  /** Room for `len` more bytes: as it is, by moving the queue down, or else in a longer array. */
  function Roomy(l: Layout, len: nat): (r: Layout)
    requires l.Valid()
    ensures r.Valid() && r.queue == l.queue && r.Writable() >= len
  {
    if l.Writable() >= len then l
    else if l.Writable() + l.reader < len + CHEAP_PREPEND then l.(size := l.reader + |l.queue| + len)
    else l.(reader := CHEAP_PREPEND)
  }

  /** The array grows only if the queue, the cheap prepend area and the data do not fit it, and then just enough. */
  lemma RoomyExactly(l: Layout, len: nat)
    requires l.Valid()
    ensures var r := Roomy(l, len);
      && (r.size != l.size <==> l.Writable() < len && l.size < CHEAP_PREPEND + |l.queue| + len)
      && (r.size != l.size ==> r.Writable() == len)
      && (r.reader != l.reader ==> r.reader == 8)
  {
  }

  function Extended(l: Layout, data: seq<byte>): (r: Layout)
    requires l.Valid()
    ensures r.Valid() && r.queue == l.queue + data
  {
    var room := Roomy(l, |data|);
    room.(queue := l.queue + data)
  }

  function Next(l: Layout, op: Op): (r: Layout)
    requires l.Valid() && Admits(l, op)
    ensures r.Valid()
  {
    match op
    case Append(data) => Extended(l, data)
    case Retrieve(len) =>
      if len < |l.queue| then l.(queue := l.queue[len..], reader := l.reader + len)
      else l.(queue := [], reader := CHEAP_PREPEND)
    case Prepend(data) => l.(queue := data + l.queue, reader := l.reader - |data|)
    case Unwrite(len) => l.(queue := l.queue[..|l.queue| - len])
    case ReadFd(data) =>
      if |data| <= l.Writable() then l.(queue := l.queue + data)
      else Extended(l.(queue := l.queue + data[..l.Writable()]), data[l.Writable()..])
  }

  /** A drained buffer is as good as new: the whole array behind the cheap prepend area can be written. */
  lemma DrainedResets(l: Layout, len: nat)
    requires l.Valid() && len == |l.queue|
    ensures Next(l, Retrieve(len)) == Layout([], 8, l.size)
  {
  }

  /** The operations whose asserted condition holds when their turn comes; the others are left out. */
  function Performed(l: Layout, ops: seq<Op>): seq<Op>
    requires l.Valid()
    decreases ops
  {
    if ops == [] then []
    else if Admits(l, ops[0]) then [ops[0]] + Performed(Next(l, ops[0]), ops[1..])
    else Performed(l, ops[1..])
  }

  function Run(l: Layout, ops: seq<Op>): (r: Layout)
    requires l.Valid()
    ensures r.Valid()
    decreases ops
  {
    if ops == [] then l
    else if Admits(l, ops[0]) then Run(Next(l, ops[0]), ops[1..])
    else Run(l, ops[1..])
  }

  // ----- The plain byte queue -----

  /** What an operation does to a plain byte queue; beyond its length, nothing is left. */
  function Applied(q: seq<byte>, op: Op): seq<byte> {
    match op
    case Append(data) => q + data
    case Retrieve(len) => if len <= |q| then q[len..] else []
    case Prepend(data) => data + q
    case Unwrite(len) => if len <= |q| then q[..|q| - len] else []
    case ReadFd(data) => q + data
  }

  function Replayed(q: seq<byte>, ops: seq<Op>): seq<byte>
    decreases ops
  {
    if ops == [] then q else Replayed(Applied(q, ops[0]), ops[1..])
  }

  lemma NextIsApplied(l: Layout, op: Op)
    requires l.Valid() && Admits(l, op)
    ensures Next(l, op).queue == Applied(l.queue, op)
  {
    if op.ReadFd? && |op.data| > l.Writable() {
      var n := l.Writable();
      assert op.data == op.data[..n] + op.data[n..];
      assert (l.queue + op.data[..n]) + op.data[n..] == l.queue + op.data;
    }
  }

  /**
   * Whatever moves and growth the operations cause, the readable bytes are those of a plain byte queue
   * that only sees the operations performed.
   */
  lemma {:induction false} ActsAsQueue(l: Layout, ops: seq<Op>)
    requires l.Valid()
    ensures Run(l, ops).queue == Replayed(l.queue, Performed(l, ops))
    decreases ops
  {
    hide Next, Applied;
    if ops != [] {
      if Admits(l, ops[0]) {
        NextIsApplied(l, ops[0]);
        var later := Performed(Next(l, ops[0]), ops[1..]);
        assert ([ops[0]] + later)[1..] == later;
        ActsAsQueue(Next(l, ops[0]), ops[1..]);
      } else {
        ActsAsQueue(l, ops[1..]);
      }
    }
  }

  function TotalPrepended(ops: seq<Op>): nat
    decreases ops
  {
    if ops == [] then 0 else (if ops[0].Prepend? then |ops[0].data| else 0) + TotalPrepended(ops[1..])
  }

  /**
   * The cheap prepend area is what it is for: as long as all prepends together need no more than it,
   * every one of them has room, however appends, reads and retrieves move and grow the buffer.
   */
  lemma {:induction false} CheapPrepends(l: Layout, ops: seq<Op>, used: nat)
    requires l.Valid() && l.reader + used >= CHEAP_PREPEND
    requires used + TotalPrepended(ops) <= CHEAP_PREPEND
    ensures Run(l, ops).reader + used + TotalPrepended(ops) >= CHEAP_PREPEND
    ensures TotalPrepended(Performed(l, ops)) == TotalPrepended(ops)
    decreases ops
  {
    if ops != [] {
      var op, rest := ops[0], ops[1..];
      if Admits(l, op) {
        var later := Performed(Next(l, op), rest);
        assert ([op] + later)[1..] == later;
        CheapPrepends(Next(l, op), rest, used + if op.Prepend? then |op.data| else 0);
      } else {
        CheapPrepends(l, rest, used);
      }
    }
  }

  // ----- The queue -----

  class ByteBuffer {
    var buffer: array<byte>
    var readerIndex: nat
    var writerIndex: nat

    ghost predicate Valid()
      reads this
    {
      && CHEAP_PREPEND <= buffer.Length
      && readerIndex <= writerIndex <= buffer.Length
    }

    /** The readable region: what the buffer holds, seen as a queue. */
    ghost function Contents(): seq<byte>
      requires Valid()
      reads this, buffer
    {
      buffer[readerIndex..writerIndex]
    }

    /** The whole state, as a value. */
    ghost function View(): (l: Layout)
      requires Valid()
      reads this, buffer
      ensures l.Valid()
    {
      Layout(Contents(), readerIndex, buffer.Length)
    }

    constructor (initialSize: nat)
      ensures Valid() && fresh(buffer)
      ensures View() == Layout([], CHEAP_PREPEND, CHEAP_PREPEND + initialSize)
    {
      buffer := new byte[CHEAP_PREPEND + initialSize](_ => 0);
      readerIndex, writerIndex := CHEAP_PREPEND, CHEAP_PREPEND;
    }

    function ReadableBytes(): nat
      requires Valid()
      reads this
    {
      writerIndex - readerIndex
    }

    function WritableBytes(): nat
      requires Valid()
      reads this
    {
      buffer.Length - writerIndex
    }

    function PrependableBytes(): nat
      reads this
    {
      readerIndex
    }

    method RetrieveAll()
      requires Valid()
      modifies this`readerIndex, this`writerIndex
      ensures Valid() && View() == old(View()).(queue := [], reader := CHEAP_PREPEND)
    {
      readerIndex, writerIndex := CHEAP_PREPEND, CHEAP_PREPEND;
    }

    method Retrieve(len: nat)
      requires Valid() && len <= ReadableBytes()
      modifies this`readerIndex, this`writerIndex
      ensures Valid() && View() == Next(old(View()), Op.Retrieve(len))
      ensures Contents() == old(Contents())[len..]
    {
      if len < ReadableBytes() {
        readerIndex := readerIndex + len;
      } else {
        RetrieveAll();
      }
    }

    method RetrieveAsString(len: nat) returns (s: seq<byte>)
      requires Valid() && len <= ReadableBytes()
      modifies this`readerIndex, this`writerIndex
      ensures Valid()
      ensures s == old(Contents())[..len] && View() == Next(old(View()), Op.Retrieve(len))
    {
      s := buffer[readerIndex..readerIndex + len];
      Retrieve(len);
    }

    /**
     * Called only when the writable part is too small; it keeps the contents and makes the part large
     * enough, by moving the contents down if that frees enough room, and else by growing the array.
     */
    method MakeSpace(len: nat)
      requires Valid() && WritableBytes() < len
      modifies this, buffer
      ensures Valid() && (buffer == old(buffer) || fresh(buffer))
      ensures View() == Roomy(old(View()), len)
      ensures Contents() == old(Contents()) && WritableBytes() >= len
    {
      if WritableBytes() + PrependableBytes() < len + CHEAP_PREPEND {
        Grow(writerIndex + len);
      } else {
        assert CHEAP_PREPEND < readerIndex;
        var readable := ReadableBytes();
        MoveDown(readable);
        readerIndex := CHEAP_PREPEND;
        writerIndex := readerIndex + readable;
        assert readable == ReadableBytes();
      }
    }

    /** Move everything to a larger array. */
    method Grow(size: nat)
      requires Valid() && buffer.Length <= size
      modifies this`buffer
      ensures Valid() && fresh(buffer) && buffer.Length == size
      ensures Contents() == old(Contents())
    {
      var larger := new byte[size](_ => 0);
      var i := 0;
      while i < buffer.Length
        invariant i <= buffer.Length && buffer == old(buffer)
        invariant forall k :: 0 <= k < i ==> larger[k] == buffer[k]
      {
        larger[i] := buffer[i];
        i := i + 1;
      }
      assert larger[readerIndex..writerIndex] == buffer[readerIndex..writerIndex];
      buffer := larger;
    }

    /** Copy the readable bytes, first to last, down to the start of the usable part. */
    method MoveDown(readable: nat)
      requires Valid() && CHEAP_PREPEND < readerIndex && readable == ReadableBytes()
      modifies buffer
      ensures buffer[CHEAP_PREPEND..CHEAP_PREPEND + readable] == old(Contents())
    {
      ghost var was := Contents();
      var i := 0;
      while i < readable
        invariant i <= readable
        invariant buffer[CHEAP_PREPEND..CHEAP_PREPEND + i] == was[..i]
        invariant buffer[readerIndex + i..writerIndex] == was[i..]
      {
        assert buffer[readerIndex + i] == was[i..][0];
        ghost var tail := buffer[readerIndex + i + 1..writerIndex];
        assert tail == was[i + 1..] by { assert tail == buffer[readerIndex + i..writerIndex][1..]; }
        buffer[CHEAP_PREPEND + i] := buffer[readerIndex + i];
        assert buffer[readerIndex + i + 1..writerIndex] == tail;
        i := i + 1;
      }
    }

    method EnsureWritableBytes(len: nat)
      requires Valid()
      modifies this, buffer
      ensures Valid() && (buffer == old(buffer) || fresh(buffer))
      ensures View() == Roomy(old(View()), len) && WritableBytes() >= len
    {
      if WritableBytes() < len {
        MakeSpace(len);
      }
    }

    method Append(data: seq<byte>)
      requires Valid()
      modifies this, buffer
      ensures Valid() && (buffer == old(buffer) || fresh(buffer))
      ensures View() == Next(old(View()), Op.Append(data)) == Extended(old(View()), data)
    {
      hide Roomy;
      EnsureWritableBytes(|data|);
      Write(data);
    }

    /** Copy to the writable part, and count it as written. */
    method Write(data: seq<byte>)
      requires Valid() && |data| <= WritableBytes()
      modifies this`writerIndex, buffer
      ensures Valid() && View() == old(View()).(queue := old(Contents()) + data)
    {
      Fill(writerIndex, data);
      writerIndex := writerIndex + |data|;
      assert buffer[readerIndex..old(writerIndex)] == old(Contents());
      assert buffer[old(writerIndex)..writerIndex] == data;
    }

    /** Overwrite the bytes from `at` on. */
    method Fill(at: nat, data: seq<byte>)
      requires at + |data| <= buffer.Length
      modifies buffer
      ensures buffer[..] == old(buffer[..at]) + data + old(buffer[at + |data|..])
    {
      var i := 0;
      while i < |data|
        invariant i <= |data|
        invariant forall k :: 0 <= k < buffer.Length ==>
          buffer[k] == if at <= k < at + i then data[k - at] else old(buffer[k])
      {
        buffer[at + i] := data[i];
        i := i + 1;
      }
    }

    method Unwrite(len: nat)
      requires Valid() && len <= ReadableBytes()
      modifies this`writerIndex
      ensures Valid() && View() == Next(old(View()), Op.Unwrite(len))
    {
      writerIndex := writerIndex - len;
      ghost var was := old(buffer[readerIndex..writerIndex]);
      assert forall k :: 0 <= k < |was| - len ==> buffer[readerIndex..writerIndex][k] == was[k];
    }

    method Prepend(data: seq<byte>)
      requires Valid() && |data| <= PrependableBytes()
      modifies this`readerIndex, buffer
      ensures Valid() && View() == Next(old(View()), Op.Prepend(data))
    {
      readerIndex := readerIndex - |data|;
      Fill(readerIndex, data);
      assert buffer[readerIndex..readerIndex + |data|] == data;
      assert buffer[readerIndex + |data|..writerIndex] == old(Contents());
    }

    /**
     * A scattered read of `incoming`: the kernel fills the writable part first, then a second vector that
     * is offered only when the writable part is smaller than it.
     */
    method ReadFd(incoming: seq<byte>)
      requires Valid()
      requires |incoming| <= WritableBytes() + if WritableBytes() < EXTRA_BUFFER then EXTRA_BUFFER else 0
      modifies this, buffer
      ensures Valid() && (buffer == old(buffer) || fresh(buffer))
      ensures View() == Next(old(View()), Op.ReadFd(incoming))
      ensures Contents() == old(Contents()) + incoming
    {
      hide Extended;
      var writable := WritableBytes();
      if |incoming| <= writable {
        Write(incoming);
      } else {
        Write(incoming[..writable]);
        Append(incoming[writable..]);
        assert (old(Contents()) + incoming[..writable]) + incoming[writable..] == old(Contents()) + incoming;
      }
    }

    /** Integers of 1, 2, 4 or 8 bytes, in network order. */
    method AppendInt(x: int, width: nat)
      requires Valid()
      modifies this, buffer
      ensures Valid() && (buffer == old(buffer) || fresh(buffer))
      ensures View() == Extended(old(View()), Encode(x, width))
    {
      Append(Encode(x, width));
    }

    method PeekInt(width: nat) returns (x: int)
      requires Valid() && 0 < width <= ReadableBytes()
      ensures x == Decode(Contents()[..width])
    {
      assert Contents()[..width] == buffer[readerIndex..readerIndex + width];
      x := Decode(buffer[readerIndex..readerIndex + width]);
    }

    /** Once everything in front of a number is consumed, the number reads back as written. */
    method ReadInt(width: nat, ghost x: int, ghost rest: seq<byte>) returns (y: int)
      requires Valid() && width > 0 && Fits(x, width) && Contents() == Encode(x, width) + rest
      modifies this`readerIndex, this`writerIndex
      ensures Valid() && y == x && Contents() == rest
    {
      y := PeekInt(width);
      assert Contents()[..width] == Encode(x, width);
      DecodeEncode(x, width);
      assert Contents()[width..] == rest;
      Retrieve(width);
    }
  }

  /**
   * Any operations on a buffer: those whose asserted condition fails are left out, exactly those, and the
   * buffer ends in the layout that the others lead to.
   */
  method Drive(b: ByteBuffer, ops: seq<Op>) returns (done: seq<Op>)
    requires b.Valid()
    modifies b, b.buffer
    ensures b.Valid() && (b.buffer == old(b.buffer) || fresh(b.buffer))
    ensures done == Performed(old(b.View()), ops)
    ensures b.View() == Run(old(b.View()), ops)
    ensures b.Contents() == Replayed(old(b.Contents()), done)
  {
    ghost var start, l := b.View(), b.View();
    ActsAsQueue(start, ops);
    hide Next, Admits, Replayed, Run, Performed, Applied, Extended, Roomy;
    done := [];
    assert ops[0..] == ops;
    for i := 0 to |ops|
      invariant b.Valid() && (b.buffer == old(b.buffer) || fresh(b.buffer))
      invariant b.View() == l && l.Valid()
      invariant Run(l, ops[i..]) == Run(start, ops)
      invariant done + Performed(l, ops[i..]) == Performed(start, ops)
    {
      OneMore(l, ops, i, done);
      var fits := Try(b, ops[i]);
      l := b.View();
      if fits {
        done := done + [ops[i]];
      }
    }
    assert ops[|ops|..] == [];
    Ended(l);
  }

  /** One operation, performed or left out, does not change what the whole comes to. */
  lemma OneMore(l: Layout, ops: seq<Op>, i: nat, done: seq<Op>)
    requires l.Valid() && i < |ops|
    ensures var fits := Admits(l, ops[i]);
      var t := if fits then Next(l, ops[i]) else l;
      && Run(t, ops[i + 1..]) == Run(l, ops[i..])
      && (if fits then done + [ops[i]] else done) + Performed(t, ops[i + 1..]) == done + Performed(l, ops[i..])
  {
    Unfold(l, ops, i);
    hide Next, Admits, Run, Performed;
  }

  lemma Unfold(l: Layout, ops: seq<Op>, i: nat)
    requires l.Valid() && i < |ops|
    ensures Run(l, ops[i..]) == Run(if Admits(l, ops[i]) then Next(l, ops[i]) else l, ops[i + 1..])
    ensures Performed(l, ops[i..])
            == if Admits(l, ops[i]) then [ops[i]] + Performed(Next(l, ops[i]), ops[i + 1..])
               else Performed(l, ops[i + 1..])
  {
    assert ops[i..][1..] == ops[i + 1..];
    hide Admits, Next;
  }

  lemma Ended(l: Layout)
    requires l.Valid()
    ensures Run(l, []) == l && Performed(l, []) == []
  {
  }

  /** One operation, exactly if its condition holds. */
  method Try(b: ByteBuffer, op: Op) returns (fits: bool)
    requires b.Valid()
    modifies b, b.buffer
    ensures b.Valid() && (b.buffer == old(b.buffer) || fresh(b.buffer))
    ensures fits <==> Admits(old(b.View()), op)
    ensures b.View() == if fits then Next(old(b.View()), op) else old(b.View())
  {
    hide Next;
    fits := true;
    match op
    case Append(data) => b.Append(data);
    case Retrieve(len) =>
      fits := len <= b.ReadableBytes();
      if fits { b.Retrieve(len); }
    case Prepend(data) =>
      fits := |data| <= b.PrependableBytes();
      if fits { b.Prepend(data); }
    case Unwrite(len) =>
      fits := len <= b.ReadableBytes();
      if fits { b.Unwrite(len); }
    case ReadFd(data) =>
      var writable := b.WritableBytes();
      fits := |data| <= writable + if writable < EXTRA_BUFFER then EXTRA_BUFFER else 0;
      if fits { b.ReadFd(data); }
  }
}
