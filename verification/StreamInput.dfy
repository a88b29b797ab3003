/**
 * Streamed input: a client sends a prompt as indexed chunks, in any order and possibly with
 * repetitions, and the chunk flagged as the last one completes it.
 */
module StreamInput {
  import opened Sequences

  const MAX_CHUNKS := 4096
  const MAX_BYTES := 8 * 1024 * 1024
  const TTL_MS := 60000

  /** One incoming message; `None` for an index that is missing or not a number. */
  datatype Chunk = Chunk(index: Option<int>, delta: string, finish: bool)

  datatype Stream = Stream(chunks: map<int, string>, totalBytes: int, updatedMs: int)

  datatype Reply = Waiting | Failed(reason: Reason) | Done(text: string)

  datatype Reason = BadIndex | NegativeIndex | TooManyChunks | TooLarge | MissingChunk(index: nat)

  function Fresh(now: int): Stream { Stream(map[], 0, now) }

  function Stored(s: Stream, index: int, delta: string, now: int): Stream {
    var freed := if index in s.chunks then |s.chunks[index]| else 0;
    Stream(s.chunks[index := delta], s.totalBytes - freed + |delta|, now)
  }

  /** Chunk texts in index order. */
  function Joined(chunks: map<int, string>, n: nat): string
    requires forall i :: 0 <= i < n ==> i in chunks
  {
    if n == 0 then "" else Joined(chunks, n - 1) + chunks[n - 1]
  }

  /** The least index below `n` that is not stored. */
  function FirstGap(chunks: map<int, string>, n: nat): (gap: Option<nat>)
    ensures gap.None? <==> forall i :: 0 <= i < n ==> i in chunks
    ensures gap.Some? ==> gap.value < n && gap.value !in chunks && forall i :: 0 <= i < gap.value ==> i in chunks
  {
    if n == 0 then None
    else
      var gap := FirstGap(chunks, n - 1);
      if gap.Some? then gap else if n - 1 in chunks then None else Some(n - 1)
  }

  function Assembled(chunks: map<int, string>): Reply {
    var gap := FirstGap(chunks, |chunks|);
    if gap.Some? then Failed(MissingChunk(gap.value)) else Done(Joined(chunks, |chunks|))
  }

  /** The reply to one chunk, and the stream that remains; `None` once it is given up or complete. */
  function Receive(s: Stream, c: Chunk, now: int): (Reply, Option<Stream>) {
    if c.index.None? then (Failed(BadIndex), None)
    else if c.index.value < 0 then (Failed(NegativeIndex), None)
    else
      var t := Stored(s, c.index.value, c.delta, now);
      if |t.chunks| > MAX_CHUNKS then (Failed(TooManyChunks), None)
      else if t.totalBytes > MAX_BYTES then (Failed(TooLarge), None)
      else if !c.finish then (Waiting, Some(t))
      else (Assembled(t.chunks), None)
  }

  // ----- Byte accounting -----

  ghost predicate Below(chunks: map<int, string>, n: nat) {
    forall i :: i in chunks ==> 0 <= i < n
  }

  /** The sizes of the chunks stored below index `n`, added up. */
  ghost function Sum(chunks: map<int, string>, n: nat): nat {
    if n == 0 then 0 else Sum(chunks, n - 1) + if n - 1 in chunks then |chunks[n - 1]| else 0
  }

  /** The stored chunks have `total` bytes. */
  ghost predicate Sized(chunks: map<int, string>, total: int) {
    exists n: nat :: Below(chunks, n) && Sum(chunks, n) == total
  }

  lemma {:induction false} SumBeyond(chunks: map<int, string>, n: nat, m: nat)
    requires Below(chunks, n) && n <= m
    ensures Sum(chunks, m) == Sum(chunks, n)
  {
    if n < m { SumBeyond(chunks, n, m - 1); }
  }

  lemma SizedUnique(chunks: map<int, string>, total: int, total': int)
    requires Sized(chunks, total) && Sized(chunks, total')
    ensures total == total'
  {
    var n: nat :| Below(chunks, n) && Sum(chunks, n) == total;
    var m: nat :| Below(chunks, m) && Sum(chunks, m) == total';
    if n <= m { SumBeyond(chunks, n, m); } else { SumBeyond(chunks, m, n); }
  }

  lemma {:induction false} SumStored(chunks: map<int, string>, i: nat, delta: string, n: nat)
    ensures Sum(chunks[i := delta], n)
            == Sum(chunks, n) + if i < n then |delta| - (if i in chunks then |chunks[i]| else 0) else 0
  {
    if n > 0 { SumStored(chunks, i, delta, n - 1); }
  }

  lemma {:induction false} SumAtLeast(chunks: map<int, string>, i: nat, n: nat)
    requires i < n && i in chunks
    ensures |chunks[i]| <= Sum(chunks, n)
  {
    if i < n - 1 { SumAtLeast(chunks, i, n - 1); }
  }

  lemma SizedStored(chunks: map<int, string>, total: int, i: nat, delta: string)
    requires Sized(chunks, total)
    ensures Sized(chunks[i := delta], total - (if i in chunks then |chunks[i]| else 0) + |delta|)
    ensures i in chunks ==> |chunks[i]| <= total
  {
    var n: nat :| Below(chunks, n) && Sum(chunks, n) == total;
    var m := if i < n then n else i + 1;
    SumBeyond(chunks, n, m);
    SumStored(chunks, i, delta, m);
    assert Below(chunks[i := delta], m);
    if i in chunks { SumAtLeast(chunks, i, n); }
  }

  /** The counter equals the bytes stored, so the subtraction never underflows. */
  ghost predicate Accounted(s: Stream) {
    && Sized(s.chunks, s.totalBytes)
    && |s.chunks| <= MAX_CHUNKS
    && s.totalBytes <= MAX_BYTES
  }

  lemma FreshAccounted(now: int)
    ensures Accounted(Fresh(now))
  {
    assert Below(map[], 0) && Sum(map[], 0) == 0;
  }

  lemma ReceiveAccounts(s: Stream, c: Chunk, now: int)
    requires Accounted(s)
    ensures Receive(s, c, now).1.Some? ==> Accounted(Receive(s, c, now).1.value)
    ensures c.index.Some? && c.index.value in s.chunks ==> |s.chunks[c.index.value]| <= s.totalBytes
  {
    var n: nat :| Below(s.chunks, n) && Sum(s.chunks, n) == s.totalBytes;
    if c.index.Some? && c.index.value >= 0 {
      SizedStored(s.chunks, s.totalBytes, c.index.value, c.delta);
    }
    hide Assembled;
  }

  lemma {:induction false} JoinedSize(chunks: map<int, string>, n: nat)
    requires forall i :: 0 <= i < n ==> i in chunks
    ensures |Joined(chunks, n)| == Sum(chunks, n)
  {
    if n > 0 { JoinedSize(chunks, n - 1); }
  }

  /** Chunk `i` stands in the text right after the bytes of the chunks before it. */
  ghost predicate PieceAt(text: string, chunks: map<int, string>, i: nat) {
    && i in chunks
    && var at := Sum(chunks, i);
       at + |chunks[i]| <= |text| && text[at..at + |chunks[i]|] == chunks[i]
  }

  /** The text is chunks `0..n-1` in order, and nothing else. */
  ghost predicate Laid(text: string, chunks: map<int, string>, n: nat) {
    |text| == Sum(chunks, n) && forall i :: 0 <= i < n ==> PieceAt(text, chunks, i)
  }

  lemma PieceStays(front: string, more: string, chunks: map<int, string>, i: nat)
    requires PieceAt(front, chunks, i)
    ensures PieceAt(front + more, chunks, i)
  {
    var at := Sum(chunks, i);
    assert (front + more)[at..at + |chunks[i]|] == front[at..at + |chunks[i]|];
  }

  lemma PieceLast(front: string, chunks: map<int, string>, n: nat)
    requires n in chunks && |front| == Sum(chunks, n)
    ensures PieceAt(front + chunks[n], chunks, n)
  {
  }

  lemma {:induction false} JoinedLaid(chunks: map<int, string>, n: nat)
    requires forall i :: 0 <= i < n ==> i in chunks
    ensures Laid(Joined(chunks, n), chunks, n)
  {
    hide PieceAt;
    JoinedSize(chunks, n);
    if n > 0 {
      var front, text := Joined(chunks, n - 1), Joined(chunks, n - 1) + chunks[n - 1];
      JoinedLaid(chunks, n - 1);
      PieceLast(front, chunks, n - 1);
      forall i | 0 <= i < n - 1 ensures PieceAt(text, chunks, i) {
        PieceStays(front, chunks[n - 1], chunks, i);
      }
    }
  }

  // ----- Gap detection -----

  function UpTo(n: nat): (s: set<int>)
    ensures forall i :: i in s <==> 0 <= i < n
    ensures |s| == n
  {
    if n == 0 then {} else UpTo(n - 1) + {n - 1}
  }

  lemma SubsetOfSameSize(a: set<int>, b: set<int>)
    requires a <= b && |a| == |b|
    ensures a == b
  {
    assert |b - a| == |b| - |a|;
  }

  /** Pigeonhole: counting up to the number of chunks finds every gap. */
  lemma GapExact(chunks: map<int, string>)
    ensures FirstGap(chunks, |chunks|).None? <==> chunks.Keys == UpTo(|chunks|)
  {
    if FirstGap(chunks, |chunks|).None? {
      assert UpTo(|chunks|) <= chunks.Keys;
      assert |chunks.Keys| == |chunks|;
      SubsetOfSameSize(UpTo(|chunks|), chunks.Keys);
    } else {
      assert FirstGap(chunks, |chunks|).value in UpTo(|chunks|);
    }
  }

  // ----- A whole stream -----

  /** The last text written for each index. */
  function LastWrites(cs: seq<Chunk>): map<int, string>
    requires forall c :: c in cs ==> c.index.Some?
  {
    if cs == [] then map[]
    else LastWrites(cs[..|cs| - 1])[cs[|cs| - 1].index.value := cs[|cs| - 1].delta]
  }

  /** The chunks arrive one after the other, each before the stream is given up. */
  function ReceiveAll(cs: seq<Chunk>, now: int): (Reply, Option<Stream>)
  {
    if cs == [] then (Waiting, Some(Fresh(now)))
    else
      var (reply, s) := ReceiveAll(cs[..|cs| - 1], now);
      if s.None? then (reply, None) else Receive(s.value, cs[|cs| - 1], now)
  }

  /** Every prefix stays within the limits. */
  ghost predicate WithinLimits(cs: seq<Chunk>) {
    && (forall c :: c in cs ==> c.index.Some? && c.index.value >= 0)
    && (forall n :: 0 <= n <= |cs| ==> |LastWrites(cs[..n])| <= MAX_CHUNKS)
    && (forall n, total :: 0 <= n <= |cs| && Sized(LastWrites(cs[..n]), total) ==> total <= MAX_BYTES)
  }

  ghost predicate OnlyLastFinishes(cs: seq<Chunk>) {
    cs != [] && cs[|cs| - 1].finish && forall i :: 0 <= i < |cs| - 1 ==> !cs[i].finish
  }

  /** An unfinished chunk within the limits is stored, and the stream goes on. */
  lemma StoreWaits(s: Stream, c: Chunk, now: int, writes: map<int, string>)
    requires Accounted(s) && c.index.Some? && c.index.value >= 0 && !c.finish
    requires writes == s.chunks[c.index.value := c.delta]
    requires |writes| <= MAX_CHUNKS && forall total :: Sized(writes, total) ==> total <= MAX_BYTES
    ensures Receive(s, c, now).0.Waiting? && Receive(s, c, now).1.Some?
    ensures Receive(s, c, now).1.value.chunks == writes
    ensures Accounted(Receive(s, c, now).1.value)
  {
    SizedStored(s.chunks, s.totalBytes, c.index.value, c.delta);
    ReceiveAccounts(s, c, now);
    hide Sized;
  }

  lemma {:induction false} Collecting(cs: seq<Chunk>, now: int)
    requires WithinLimits(cs) && forall c :: c in cs ==> !c.finish
    ensures var (reply, s) := ReceiveAll(cs, now);
      reply.Waiting? && s.Some? && s.value.chunks == LastWrites(cs) && Accounted(s.value)
  {
    FreshAccounted(now);
    hide Accounted, Sized, Receive;
    if cs != [] {
      var front, last := cs[..|cs| - 1], cs[|cs| - 1];
      assert forall n :: 0 <= n <= |front| ==> front[..n] == cs[..n];
      Collecting(front, now);
      var s := ReceiveAll(front, now).1.value;
      assert cs[..|cs|] == cs;
      StoreWaits(s, last, now, LastWrites(cs));
    }
  }

  lemma StoreFinishes(s: Stream, c: Chunk, now: int, writes: map<int, string>)
    requires Accounted(s) && c.index.Some? && c.index.value >= 0 && c.finish
    requires writes == s.chunks[c.index.value := c.delta]
    requires |writes| <= MAX_CHUNKS && forall total :: Sized(writes, total) ==> total <= MAX_BYTES
    ensures Receive(s, c, now) == (Assembled(writes), None)
  {
    SizedStored(s.chunks, s.totalBytes, c.index.value, c.delta);
    hide Sized, Assembled;
  }

  lemma FinishAssembles(cs: seq<Chunk>, now: int)
    requires WithinLimits(cs) && OnlyLastFinishes(cs)
    ensures ReceiveAll(cs, now) == (Assembled(LastWrites(cs)), None)
  {
    hide Assembled, Accounted, Sized, Receive;
    var front, last := cs[..|cs| - 1], cs[|cs| - 1];
    assert forall n :: 0 <= n <= |front| ==> front[..n] == cs[..n];
    Collecting(front, now);
    assert cs[..|cs|] == cs;
    StoreFinishes(ReceiveAll(front, now).1.value, last, now, LastWrites(cs));
  }

  /**
   * In any arrival order, a stream whose finishing chunk comes last ends with the texts joined in index
   * order, the last write of each index winning, exactly when the indices written are `0..n-1`;
   * otherwise it names the least missing index.
   */
  lemma StreamAssembles(cs: seq<Chunk>, now: int)
    requires WithinLimits(cs) && OnlyLastFinishes(cs)
    ensures var writes := LastWrites(cs);
      var (reply, s) := ReceiveAll(cs, now);
      && s.None?
      && (reply.Done? <==> writes.Keys == UpTo(|writes|))
      && (reply.Done? ==> Laid(reply.text, writes, |writes|))
      && (!reply.Done? ==> reply.Failed? && reply.reason.MissingChunk?
                           && reply.reason.index !in writes
                           && forall i :: 0 <= i < reply.reason.index ==> i in writes)
  {
    FinishAssembles(cs, now);
    hide ReceiveAll, WithinLimits, OnlyLastFinishes;
    var writes := LastWrites(cs);
    GapExact(writes);
    if FirstGap(writes, |writes|).None? {
      JoinedLaid(writes, |writes|);
    }
  }

  /** Streams that end up with the same writes get the same reply. */
  lemma SameWritesSameReply(cs: seq<Chunk>, cs': seq<Chunk>, now: int)
    requires WithinLimits(cs) && OnlyLastFinishes(cs)
    requires WithinLimits(cs') && OnlyLastFinishes(cs')
    requires LastWrites(cs) == LastWrites(cs')
    ensures ReceiveAll(cs, now).0 == ReceiveAll(cs', now).0
  {
    FinishAssembles(cs, now);
    FinishAssembles(cs', now);
  }

  ghost predicate DistinctIndices(cs: seq<Chunk>) {
    forall i, j :: 0 <= i < j < |cs| ==> cs[i].index != cs[j].index
  }

  /** Without repeated indices, every chunk is the last write of its own index. */
  lemma {:induction false} WritesAre(cs: seq<Chunk>)
    requires DistinctIndices(cs) && forall c :: c in cs ==> c.index.Some?
    ensures forall c :: c in cs ==> c.index.value in LastWrites(cs) && LastWrites(cs)[c.index.value] == c.delta
    ensures forall k :: k in LastWrites(cs) ==> exists c :: c in cs && c.index == Some(k)
  {
    if cs != [] {
      var n := |cs| - 1;
      WritesAre(cs[..n]);
      assert forall c :: c in cs <==> c in cs[..n] || c == cs[n];
      assert forall c :: c in cs[..n] ==> c.index != cs[n].index;
      forall k | k in LastWrites(cs) ensures exists c :: c in cs && c.index == Some(k) {
        if k == cs[n].index.value {
          assert cs[n] in cs;
        } else {
          var c :| c in cs[..n] && c.index == Some(k);
          assert c in cs;
        }
      }
    }
  }

  lemma PermutedWrites(cs: seq<Chunk>, cs': seq<Chunk>)
    requires DistinctIndices(cs) && DistinctIndices(cs') && multiset(cs) == multiset(cs')
    requires forall c :: c in cs || c in cs' ==> c.index.Some?
    ensures LastWrites(cs) == LastWrites(cs')
  {
    assert forall c :: c in cs <==> c in cs' by {
      assert forall c :: c in cs <==> c in multiset(cs);
      assert forall c :: c in cs' <==> c in multiset(cs');
    }
    WritesAre(cs);
    WritesAre(cs');
    hide LastWrites, DistinctIndices;
    var writes, writes' := LastWrites(cs), LastWrites(cs');
    forall k | k in writes ensures k in writes' && writes'[k] == writes[k] {
      var c :| c in cs && c.index == Some(k);
    }
    forall k | k in writes' ensures k in writes {
      var c :| c in cs' && c.index == Some(k);
    }
  }

  /** Chunks with distinct indices may arrive in any order: permuting them does not change the reply. */
  lemma ArrivalOrderIrrelevant(cs: seq<Chunk>, cs': seq<Chunk>, now: int)
    requires WithinLimits(cs) && OnlyLastFinishes(cs)
    requires WithinLimits(cs') && OnlyLastFinishes(cs')
    requires DistinctIndices(cs) && DistinctIndices(cs') && multiset(cs) == multiset(cs')
    ensures ReceiveAll(cs, now).0 == ReceiveAll(cs', now).0
  {
    hide LastWrites, DistinctIndices, OnlyLastFinishes, ReceiveAll, Sized;
    PermutedWrites(cs, cs');
    SameWritesSameReply(cs, cs', now);
  }

  // ----- All streams -----

  function Expired(streams: map<string, Stream>, now: int): set<string> {
    set k | k in streams && now - streams[k].updatedMs > TTL_MS
  }

  datatype Delivery = Delivery(key: string, chunk: Chunk, now: int)

  predicate HasIndex(c: Chunk) { c.index.Some? && c.index.value >= 0 }

  /** A valid index first clears out every stream that has expired. */
  function Kept(streams: map<string, Stream>, d: Delivery): map<string, Stream> {
    if HasIndex(d.chunk) then streams - Expired(streams, d.now) else streams
  }

  /** The reply to one delivery, and all streams after it. */
  function Delivered(streams: map<string, Stream>, d: Delivery): (Reply, map<string, Stream>) {
    var kept := Kept(streams, d);
    var (reply, left) := Receive(if d.key in kept then kept[d.key] else Fresh(d.now), d.chunk, d.now);
    (reply, if left.Some? then kept[d.key := left.value] else kept - {d.key})
  }

  function AfterAll(ds: seq<Delivery>): map<string, Stream> {
    if ds == [] then map[] else Delivered(AfterAll(ds[..|ds| - 1]), ds[|ds| - 1]).1
  }

  /** The time of the last delivery for `key`. */
  function LastTime(ds: seq<Delivery>, key: string): Option<int> {
    if ds == [] then None
    else if ds[|ds| - 1].key == key then Some(ds[|ds| - 1].now)
    else LastTime(ds[..|ds| - 1], key)
  }

  /** A valid delivery, for whatever key, comes when the last one for `key` is older than the time to live. */
  predicate Lapses(ds: seq<Delivery>, d: Delivery, key: string) {
    HasIndex(d.chunk) && LastTime(ds, key).Some? && d.now - LastTime(ds, key).value > TTL_MS
  }

  /** The chunks of the stream that `key` has open or had last: a finished, given up or lapsed one starts anew. */
  function Current(ds: seq<Delivery>, key: string): seq<Chunk> {
    if ds == [] then []
    else
      var before, d := ds[..|ds| - 1], ds[|ds| - 1];
      var cs := if Lapses(before, d, key) then [] else Current(before, key);
      if d.key != key then cs
      else if ReceiveAll(cs, 0).1.None? then [d.chunk]
      else cs + [d.chunk]
  }

  /** The same stream, at whatever time. */
  predicate Same(a: Option<Stream>, b: Option<Stream>) {
    (a.None? <==> b.None?)
    && (a.Some? ==> a.value.chunks == b.value.chunks && a.value.totalBytes == b.value.totalBytes)
  }

  function StreamOf(streams: map<string, Stream>, key: string): Option<Stream> {
    if key in streams then Some(streams[key]) else None
  }

  lemma ReceiveSame(a: Stream, b: Stream, c: Chunk, now: int, now': int)
    requires a.chunks == b.chunks && a.totalBytes == b.totalBytes
    ensures Receive(a, c, now).0 == Receive(b, c, now').0
    ensures Same(Receive(a, c, now).1, Receive(b, c, now').1)
    ensures Receive(a, c, now).1.Some? ==> Receive(a, c, now).1.value.updatedMs == now
  {
    hide Assembled;
  }

  lemma ReceiveAllSnoc(cs: seq<Chunk>, c: Chunk, now: int)
    requires ReceiveAll(cs, now).1.Some?
    ensures ReceiveAll(cs + [c], now) == Receive(ReceiveAll(cs, now).1.value, c, now)
  {
    assert (cs + [c])[..|cs|] == cs;
    hide Receive;
  }

  lemma ReceiveAllOne(c: Chunk, now: int)
    ensures ReceiveAll([c], now) == Receive(Fresh(now), c, now)
  {
    assert ReceiveAll([], now).1 == Some(Fresh(now));
    ReceiveAllSnoc([], c, now);
    assert [] + [c] == [c];
  }

  /** The open stream of `key` is that of its own chunks, and carries the time of the last. */
  ghost predicate Mirrors(streams: map<string, Stream>, ds: seq<Delivery>, key: string) {
    && (Current(ds, key) == [] ==> key !in streams)
    && (Current(ds, key) != [] ==> Same(StreamOf(streams, key), ReceiveAll(Current(ds, key), 0).1))
    && (key in streams ==> LastTime(ds, key) == Some(streams[key].updatedMs))
  }

  lemma CurrentSnoc(ds: seq<Delivery>, d: Delivery, key: string)
    ensures LastTime(ds + [d], key) == if d.key == key then Some(d.now) else LastTime(ds, key)
    ensures var cs := if Lapses(ds, d, key) then [] else Current(ds, key);
      Current(ds + [d], key)
      == if d.key != key then cs else if ReceiveAll(cs, 0).1.None? then [d.chunk] else cs + [d.chunk]
  {
    hide ReceiveAll;
    assert (ds + [d])[..|ds|] == ds;
  }

  /** What clearing out leaves of the stream of `key`. */
  lemma KeptMirrors(streams: map<string, Stream>, ds: seq<Delivery>, d: Delivery, key: string)
    requires Mirrors(streams, ds, key)
    ensures StreamOf(Kept(streams, d), key) == if Lapses(ds, d, key) then None else StreamOf(streams, key)
  {
    hide Current, ReceiveAll, LastTime;
  }

  lemma DeliveredIs(streams: map<string, Stream>, d: Delivery)
    ensures var o := StreamOf(Kept(streams, d), d.key);
      var s := if o.Some? then o.value else Fresh(d.now);
      && Delivered(streams, d).0 == Receive(s, d.chunk, d.now).0
      && StreamOf(Delivered(streams, d).1, d.key) == Receive(s, d.chunk, d.now).1
    ensures forall key :: key != d.key ==> StreamOf(Delivered(streams, d).1, key) == StreamOf(Kept(streams, d), key)
  {
    hide Receive, Kept;
  }

  lemma OwnDelivery(streams: map<string, Stream>, ds: seq<Delivery>, d: Delivery)
    requires Mirrors(streams, ds, d.key)
    ensures Mirrors(Delivered(streams, d).1, ds + [d], d.key)
    ensures Delivered(streams, d).0 == ReceiveAll(Current(ds + [d], d.key), 0).0
  {
    assert ReceiveAll([], 0).1 == Some(Fresh(0));
    hide Receive, ReceiveAll, Delivered, Current, LastTime, Kept, Lapses;
    CurrentSnoc(ds, d, d.key);
    KeptMirrors(streams, ds, d, d.key);
    DeliveredIs(streams, d);
    var o := StreamOf(Kept(streams, d), d.key);
    if o.Some? {
      var before := Current(ds, d.key);
      ReceiveAllSnoc(before, d.chunk, 0);
      ReceiveSame(o.value, ReceiveAll(before, 0).1.value, d.chunk, d.now, 0);
    } else {
      ReceiveAllOne(d.chunk, 0);
      ReceiveSame(Fresh(d.now), Fresh(0), d.chunk, d.now, 0);
      assert [] + [d.chunk] == [d.chunk];
    }
  }

  lemma OtherDelivery(streams: map<string, Stream>, ds: seq<Delivery>, d: Delivery, key: string)
    requires Mirrors(streams, ds, key) && d.key != key
    ensures Mirrors(Delivered(streams, d).1, ds + [d], key)
  {
    hide Receive, ReceiveAll, Delivered, Current, LastTime, Kept, Lapses;
    CurrentSnoc(ds, d, key);
    KeptMirrors(streams, ds, d, key);
    DeliveredIs(streams, d);
  }

  lemma {:induction false} MirrorsAll(ds: seq<Delivery>, key: string)
    ensures Mirrors(AfterAll(ds), ds, key)
  {
    hide Delivered, Mirrors;
    if ds == [] {
      MirrorsNone(key);
    } else {
      var before, d := ds[..|ds| - 1], ds[|ds| - 1];
      MirrorsAll(before, key);
      assert ds == before + [d];
      if d.key == key {
        OwnDelivery(AfterAll(before), before, d);
      } else {
        OtherDelivery(AfterAll(before), before, d, key);
      }
    }
  }

  lemma MirrorsNone(key: string)
    ensures Mirrors(map[], [], key)
  {
  }

  /**
   * However deliveries for many keys interleave, the reply to each is that of its own stream's chunks alone:
   * those since the stream was last finished, given up, or left alone for longer than the time to live.
   */
  lemma StreamsIndependent(ds: seq<Delivery>, d: Delivery)
    ensures Delivered(AfterAll(ds), d).0 == ReceiveAll(Current(ds + [d], d.key), 0).0
  {
    MirrorsAll(ds, d.key);
    OwnDelivery(AfterAll(ds), ds, d);
    hide *;
  }

  /** The first chunk after a lapse is received as the first chunk of all. */
  lemma LapsedStartsAnew(ds: seq<Delivery>, d: Delivery)
    requires Lapses(ds, d, d.key)
    ensures Delivered(AfterAll(ds), d).0 == Receive(Fresh(0), d.chunk, 0).0
  {
    StreamsIndependent(ds, d);
    CurrentSnoc(ds, d, d.key);
    ReceiveAllOne(d.chunk, 0);
    assert ReceiveAll([], 0).1 == Some(Fresh(0)) && [] + [d.chunk] == [d.chunk];
    hide *;
  }

  /** A chunk without a usable index is refused, and its stream given up. */
  lemma BadIndexExactly(s: Stream, c: Chunk, now: int)
    ensures Receive(s, c, now) == (Failed(BadIndex), None) <==> c.index.None?
    ensures Receive(s, c, now) == (Failed(NegativeIndex), None) <==> c.index.Some? && c.index.value < 0
  {
  }

  /** Which chunks are refused, and why: the number of indices is checked before the bytes. */
  lemma RefusedExactly(s: Stream, c: Chunk, now: int, total: int)
    requires Accounted(s) && HasIndex(c) && Sized(s.chunks[c.index.value := c.delta], total)
    ensures var count := |s.chunks.Keys + {c.index.value}|;
      var reply := Receive(s, c, now).0;
      && (reply == Failed(TooManyChunks) <==> count > 4096)
      && (reply == Failed(TooLarge) <==> count <= 4096 && total > 8388608)
      && (reply == Waiting <==> count <= 4096 && total <= 8388608 && !c.finish)
  {
    var writes := s.chunks[c.index.value := c.delta];
    SizedStored(s.chunks, s.totalBytes, c.index.value, c.delta);
    SizedUnique(writes, total, Stored(s, c.index.value, c.delta, now).totalBytes);
    assert writes.Keys == s.chunks.Keys + {c.index.value} && |writes.Keys| == |writes|;
    var t := Stored(s, c.index.value, c.delta, now);
    assert t.chunks == writes && t.totalBytes == total;
    hide Sized, Assembled, Accounted, Stored;
  }

  /** The streams of all clients, by work id and request id; one call at a time. */
  class Assembler {
    var streams: map<string, Stream>

    /** No stream ever stored exceeds the limits. */
    ghost predicate Valid()
      reads this
    {
      forall k :: k in streams ==> Accounted(streams[k])
    }

    constructor ()
      ensures Valid() && streams == map[]
    {
      streams := map[];
    }

    method Deliver(key: string, c: Chunk, now: int) returns (reply: Reply)
      requires Valid()
      modifies this
      ensures Valid()
      ensures (reply, streams) == Delivered(old(streams), Delivery(key, c, now))
    {
      if c.index.Some? && c.index.value >= 0 {
        streams := streams - Expired(streams, now);
      }
      assert streams == Kept(old(streams), Delivery(key, c, now));
      var s := if key in streams then streams[key] else Fresh(now);
      FreshAccounted(now);
      ReceiveAccounts(s, c, now);
      hide Accounted, Receive, Kept;
      var left;
      reply, left := Take(s, c, now);
      streams := if left.Some? then streams[key := left.value] else streams - {key};
    }

    /** The body of the call on its own stream: store, check the limits, and complete. */
    method Take(s: Stream, c: Chunk, now: int) returns (reply: Reply, left: Option<Stream>)
      requires Accounted(s)
      ensures (reply, left) == Receive(s, c, now)
    {
      left := None;
      if c.index.None? {
        return Failed(BadIndex), None;
      }
      var index := c.index.value;
      if index < 0 {
        return Failed(NegativeIndex), None;
      }
      ReceiveAccounts(s, c, now);
      hide Accounted, Assembled;
      var total := s.totalBytes;
      if index in s.chunks {
        total := total - |s.chunks[index]|;
        assert total >= 0;
      }
      var chunks := s.chunks[index := c.delta];
      total := total + |c.delta|;
      if |chunks| > MAX_CHUNKS {
        return Failed(TooManyChunks), None;
      }
      if total > MAX_BYTES {
        return Failed(TooLarge), None;
      }
      if !c.finish {
        return Waiting, Some(Stream(chunks, total, now));
      }
      reply := JoinChunks(chunks);
    }

    method JoinChunks(chunks: map<int, string>) returns (reply: Reply)
      ensures reply == Assembled(chunks)
    {
      var text := "";
      for i := 0 to |chunks|
        invariant forall j :: 0 <= j < i ==> j in chunks
        invariant text == Joined(chunks, i)
      {
        if i !in chunks {
          assert FirstGap(chunks, |chunks|) == Some(i) by { assert FirstGap(chunks, |chunks|).Some?; }
          return Failed(MissingChunk(i));
        }
        text := text + chunks[i];
      }
      reply := Done(text);
    }
  }
}
