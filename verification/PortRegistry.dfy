/**
 * The unit registry: every unit takes two ports from a bit list, is stored under its work id in a table
 * shared with plain settings, and gives the ports back when they are parsed out of its URLs.
 */
module PortRegistry {
  import opened Sequences
  import Decimal

  /** A URL format `<prefix>%i<suffix>`; neither part contains a conversion or white space. */
  datatype Format = Format(prefix: string, suffix: string)

  const DEFAULT_FORMAT := Format("ipc:///tmp/llm/", ".sock")

  // ----- Printing and scanning URLs -----

  predicate Contains(s: string, word: string) {
    exists i :: 0 <= i <= |s| && word <= s[i..]
  }

  /** What follows the port in a printed URL. */
  function Tail(f: Format, unit: string, tag: string): string {
    f.suffix + if Contains(f.prefix + "%i" + f.suffix, "sock") then "." + unit + tag else ""
  }

  function MakeUrl(f: Format, unit: string, tag: string, port: nat): string {
    f.prefix + Decimal.Print(port) + Tail(f, unit, tag)
  }

  /** The digit a character stands for in a base, or `None`. */
  function DigitIn(c: char, base: nat): Option<nat> {
    var d := if '0' <= c <= '9' then (c - '0') as nat
             else if 'a' <= c <= 'f' then (c - 'a') as nat + 10
             else if 'A' <= c <= 'F' then (c - 'A') as nat + 10
             else base;
    if d < base then Some(d) else None
  }

  /** The number written by the longest run of digits at the front, `read` being the part before it. */
  function ScanDigits(s: string, base: nat, read: nat): nat
    decreases s
  {
    if s == "" || DigitIn(s[0], base).None? then read
    else ScanDigits(s[1..], base, read * base + DigitIn(s[0], base).value)
  }

  /** The `%i` conversion: a sign, then hexadecimal, octal or decimal digits by their prefix. */
  function ScanInt(s: string): Option<int> {
    if s != "" && (s[0] == '-' || s[0] == '+') then
      var n := ScanNat(s[1..]);
      if n.None? then None else if s[0] == '-' then Some(-(n.value as int)) else Some(n.value)
    else
      var n := ScanNat(s);
      if n.None? then None else Some(n.value)
  }

  function ScanNat(s: string): Option<nat> {
    if s == "" || DigitIn(s[0], 10).None? then None
    else if s[0] != '0' then Some(ScanDigits(s, 10, 0))
    else if |s| > 2 && (s[1] == 'x' || s[1] == 'X') && DigitIn(s[2], 16).Some? then Some(ScanDigits(s[2..], 16, 0))
    else Some(ScanDigits(s, 8, 0))
  }

  function ParsePort(f: Format, url: string): Option<int> {
    if f.prefix <= url then ScanInt(url[|f.prefix|..]) else None
  }

  lemma {:induction false} ScanDigitsOf(digits: string, tail: string, read: nat)
    requires forall i :: 0 <= i < |digits| ==> Decimal.IsDigit(digits[i])
    ensures ScanDigits(digits + tail, 10, read) == ScanDigits(tail, 10, ScanDigits(digits, 10, read))
    decreases digits
  {
    if digits == "" {
      assert digits + tail == tail;
    } else {
      var d := DigitIn(digits[0], 10).value;
      assert (digits + tail)[1..] == digits[1..] + tail;
      ScanDigitsOf(digits[1..], tail, read * 10 + d);
    }
  }

  lemma {:induction false} ScanPrinted(n: nat)
    ensures ScanDigits(Decimal.Print(n), 10, 0) == n
  {
    var s := Decimal.Print(n);
    if n < 10 {
      assert s == [Decimal.DigitChar(n)] && s[1..] == "";
    } else {
      var last := [Decimal.DigitChar(n % 10)];
      ScanPrinted(n / 10);
      ScanDigitsOf(Decimal.Print(n / 10), last, 0);
      assert last[1..] == "";
    }
  }

  lemma {:induction false} ScanGrows(s: string, read: nat)
    ensures ScanDigits(s, 10, read) >= read
    decreases s
  {
    if s != "" && DigitIn(s[0], 10).Some? {
      ScanGrows(s[1..], read * 10 + DigitIn(s[0], 10).value);
    }
  }

  lemma ScanDecimal(s: string)
    requires s != "" && Decimal.IsDigit(s[0]) && s[0] != '0'
    ensures ScanInt(s) == Some(ScanDigits(s, 10, 0))
  {
    hide ScanDigits;
  }

  /** A positive port is recovered from a printed URL exactly when no digit follows it. */
  lemma PortRecovered(port: nat, tail: string)
    requires port > 0
    ensures ScanInt(Decimal.Print(port) + tail) == Some(port) <==> tail == "" || !Decimal.IsDigit(tail[0])
  {
    hide Decimal.Print, ScanInt;
    ScanPrinted(port);
    ScanDigitsOf(Decimal.Print(port), tail, 0);
    ScanDecimal(Decimal.Print(port) + tail);
    if tail != "" && Decimal.IsDigit(tail[0]) {
      ScanGrows(tail[1..], port * 10 + DigitIn(tail[0], 10).value);
    }
  }

  /** So a positive port survives its URL exactly when the text after it does not start with a digit. */
  lemma UrlExact(f: Format, unit: string, tag: string, port: nat)
    requires port > 0
    ensures ParsePort(f, MakeUrl(f, unit, tag, port)) == Some(port)
            <==> Tail(f, unit, tag) == "" || !Decimal.IsDigit(Tail(f, unit, tag)[0])
  {
    var url, tail := MakeUrl(f, unit, tag, port), Tail(f, unit, tag);
    hide Tail, ScanInt, Decimal.Print;
    assert url[|f.prefix|..] == Decimal.Print(port) + tail;
    PortRecovered(port, tail);
  }

  /** The text after the port does not run into it. */
  predicate Safe(f: Format) {
    f.suffix == "" || (!Decimal.IsDigit(f.suffix[0]) && f.suffix[0] != 'x' && f.suffix[0] != 'X')
  }

  /** Parsing undoes printing. */
  lemma UrlRoundTrip(f: Format, unit: string, tag: string, port: nat)
    requires Safe(f)
    ensures ParsePort(f, MakeUrl(f, unit, tag, port)) == Some(port)
  {
    var url, tail := MakeUrl(f, unit, tag, port), Tail(f, unit, tag);
    assert tail != "" ==> tail[0] == if f.suffix != "" then f.suffix[0] else '.';
    hide Tail;
    assert url[|f.prefix|..] == Decimal.Print(port) + tail;
    if port > 0 {
      PortRecovered(port, tail);
    } else {
      var s := "0" + tail;
      assert s[1..] == tail;
      assert tail != "" ==> s[1] == tail[0] && DigitIn(tail[0], 8).None?;
      assert ScanDigits(s, 8, 0) == 0;
    }
  }

  // ----- The registry -----

  datatype Unit = Unit(number: nat, workId: string, outputUrl: string, inferenceUrl: string)

  /** The table holds units and, for everything else, plain values. */
  datatype Entry = UnitEntry(unit: Unit) | Value(text: string)

  datatype Registry = Registry(start: nat, ports: seq<bool>, counter: nat, table: map<string, Entry>)

  function WorkId(unit: string, number: nat): string { unit + "." + Decimal.Print(number) }

  function OutPortKey(workId: string): string { workId + ".out_port" }

  /** The bits after taking the two first free ports, and the ports taken. */
  function TwoPorts(ports: seq<bool>): Option<(nat, nat)> {
    var a := IndexOf(ports, false);
    if a.None? then None
    else
      var b := IndexOf(ports[a.value := true], false);
      if b.None? then None else Some((a.value, b.value))
  }

  function Allocated(f: Format, r: Registry, unit: string): (Option<Unit>, Registry) {
    var two := TwoPorts(r.ports);
    if two.None? then (None, r)
    else
      var (a, b) := two.value;
      var u := Unit(r.counter, WorkId(unit, r.counter),
                    MakeUrl(f, unit, ".output_url", r.start + a), MakeUrl(f, unit, ".inference_url", r.start + b));
      (Some(u), r.(ports := r.ports[a := true][b := true],
                   counter := r.counter + 1,
                   table := r.table[u.workId := UnitEntry(u)][OutPortKey(u.workId) := Value(u.outputUrl)]))
  }

  function Freed(f: Format, start: nat, ports: seq<bool>, url: string): (p: seq<bool>)
    ensures |p| == |ports|
  {
    var port := ParsePort(f, url);
    if port.Some? && 0 <= port.value - start < |ports| then ports[port.value - start := false] else ports
  }

  function Released(f: Format, r: Registry, key: string): (int, Registry) {
    if key !in r.table || !r.table[key].UnitEntry? then (-1, r)
    else
      var u := r.table[key].unit;
      var once := Freed(f, r.start, r.ports, u.outputUrl);
      (0, r.(ports := Freed(f, r.start, once, u.inferenceUrl),
             table := r.table - {key} - {OutPortKey(key)}))
  }

  // ----- The invariant -----

  /** What the table says about one live unit: its number, and the two bits its URLs stand for. */
  datatype Slot = Slot(number: nat, first: int, second: int)

  function Bit(f: Format, start: nat, url: string): int {
    if ParsePort(f, url).Some? then ParsePort(f, url).value - start else -1
  }

  function SlotOf(f: Format, start: nat, u: Unit): Slot {
    Slot(u.number, Bit(f, start, u.outputUrl), Bit(f, start, u.inferenceUrl))
  }

  /** The live units. */
  function Units(f: Format, start: nat, table: map<string, Entry>): (units: map<string, Slot>)
    ensures forall k :: k in units <==> k in table && table[k].UnitEntry?
    ensures forall k :: k in units ==> units[k] == SlotOf(f, start, table[k].unit)
  {
    map k | k in table && table[k].UnitEntry? :: SlotOf(f, start, table[k].unit)
  }

  predicate Live(r: Registry, key: string) { key in r.table && r.table[key].UnitEntry? }

  predicate Holds(s: Slot, i: int) { i == s.first || i == s.second }

  /** Two bits of the list, both set. */
  predicate Backed(s: Slot, ports: seq<bool>, counter: nat) {
    && s.number < counter
    && 0 <= s.first < |ports| && ports[s.first]
    && 0 <= s.second < |ports| && ports[s.second]
    && s.first != s.second
  }

  predicate Apart(s: Slot, t: Slot) {
    s.number != t.number && !Holds(s, t.first) && !Holds(s, t.second)
  }

  predicate IsFree(bit: bool) { !bit }

  ghost predicate Owned(units: map<string, Slot>, i: int) {
    exists k :: k in units && Holds(units[k], i)
  }

  ghost predicate AllBacked(units: map<string, Slot>, ports: seq<bool>, counter: nat) {
    forall k :: k in units ==> Backed(units[k], ports, counter)
  }

  ghost predicate AllApart(units: map<string, Slot>) {
    forall k, l :: k in units && l in units && k != l ==> Apart(units[k], units[l])
  }

  ghost predicate Covered(units: map<string, Slot>, ports: seq<bool>) {
    forall i {:trigger Owned(units, i)} :: 0 <= i < |ports| && ports[i] ==> Owned(units, i)
  }

  /** Set bits that belong to no unit. */
  function Lost(units: map<string, Slot>, ports: seq<bool>): int {
    |ports| - CountIf(ports, IsFree) - 2 * |units|
  }

  ghost predicate IsWorkId(key: string, number: nat) { exists name :: key == WorkId(name, number) }

  /** Units are stored under their own work ids. */
  ghost predicate Named(table: map<string, Entry>) {
    forall k :: k in table && table[k].UnitEntry? ==>
      table[k].unit.workId == k && IsWorkId(k, table[k].unit.number)
  }

  /** Live units have disjoint pairs of set bits, distinct numbers, and are stored under their own keys. */
  ghost predicate Consistent(f: Format, r: Registry) {
    && AllBacked(Units(f, r.start, r.table), r.ports, r.counter)
    && AllApart(Units(f, r.start, r.table))
    && Named(r.table)
  }

  function LostPorts(f: Format, r: Registry): int { Lost(Units(f, r.start, r.table), r.ports) }

  /** And every set bit belongs to a live unit, so that free bits and twice the units add up to the list. */
  ghost predicate Invariant(f: Format, r: Registry) {
    && Consistent(f, r)
    && Covered(Units(f, r.start, r.table), r.ports)
    && LostPorts(f, r) == 0
  }

  // ----- Keys -----

  /** Work ids with different numbers differ, whatever the unit names. */
  lemma WorkIdDistinct(a: string, m: nat, b: string, n: nat)
    requires WorkId(a, m) == WorkId(b, n)
    ensures m == n && a == b
  {
    var s, p, q := WorkId(a, m), Decimal.Print(m), Decimal.Print(n);
    assert s[|s| - |p| - 1] == '.' && s[|s| - |q| - 1] == '.';
    assert forall i :: |s| - |p| <= i < |s| ==> s[i] == p[i - (|s| - |p|)];
    assert forall i :: |s| - |q| <= i < |s| ==> s[i] == q[i - (|s| - |q|)];
    assert |p| == |q|;
    assert s[|s| - |p|..] == p && s[|s| - |q|..] == q;
    Decimal.PrintInjective(m, n);
    assert a == s[..|s| - |p| - 1] && b == s[..|s| - |q| - 1];
  }

  /** The key of a URL is never the key of a unit. */
  lemma OutPortIsNoWorkId(key: string, name: string, n: nat)
    ensures OutPortKey(key) != WorkId(name, n)
  {
    var s, t := OutPortKey(key), WorkId(name, n);
    assert s[|s| - 1] == 't';
    assert t[|t| - 1] == Decimal.Print(n)[|Decimal.Print(n)| - 1];
  }

  // ----- Bits -----

  lemma CountSet(ports: seq<bool>, i: nat, bit: bool)
    requires i < |ports| && ports[i] != bit
    ensures CountIf(ports[i := bit], IsFree) == CountIf(ports, IsFree) + if bit then -1 else 1
  {
    CountRemove(ports, i, IsFree);
    CountRemove(ports[i := bit], i, IsFree);
    assert RemoveAt(ports, i) == RemoveAt(ports[i := bit], i);
  }

  lemma TwoPortsFree(ports: seq<bool>)
    requires TwoPorts(ports).Some?
    ensures var (a, b) := TwoPorts(ports).value;
      && a < |ports| && b < |ports| && a != b && !ports[a] && !ports[b]
      && CountIf(ports[a := true][b := true], IsFree) == CountIf(ports, IsFree) - 2
      && (forall i :: 0 <= i < |ports| && !ports[i] && i != a ==> a <= i && b <= i)
  {
    var (a, b) := TwoPorts(ports).value;
    CountSet(ports, a, true);
    CountSet(ports[a := true], b, true);
    var marked := ports[a := true];
    assert forall i :: 0 <= i < a ==> ports[i] in ports[..a];
    assert forall i :: 0 <= i < b ==> marked[i] in marked[..b];
    assert forall i :: 0 <= i < |ports| && i != a ==> marked[i] == ports[i];
  }

  /** Two ports cannot be had exactly when fewer than two bits are free. */
  lemma NoTwoPorts(ports: seq<bool>)
    ensures TwoPorts(ports).None? <==> CountIf(ports, IsFree) < 2
  {
    var a := IndexOf(ports, false);
    if a.None? {
      AllSet(ports);
    } else {
      CountSet(ports, a.value, true);
      var marked := ports[a.value := true];
      var b := IndexOf(marked, false);
      if b.None? {
        AllSet(marked);
      } else {
        CountSet(marked, b.value, true);
      }
    }
  }

  lemma {:induction false} AllSet(ports: seq<bool>)
    requires false !in ports
    ensures CountIf(ports, IsFree) == 0
  {
    if ports != [] {
      assert ports[|ports| - 1] in ports;
      AllSet(ports[..|ports| - 1]);
    }
  }

  // ----- Slots -----

  lemma BackedAdd(units: map<string, Slot>, ports: seq<bool>, counter: nat, key: string, a: nat, b: nat)
    requires AllBacked(units, ports, counter) && key !in units
    requires a < |ports| && b < |ports| && a != b
    ensures AllBacked(units[key := Slot(counter, a, b)], ports[a := true][b := true], counter + 1)
  {
    var marked := ports[a := true][b := true];
    forall k | k in units ensures Backed(units[k], marked, counter + 1) {
      assert Backed(units[k], ports, counter);
    }
  }

  lemma ApartAdd(units: map<string, Slot>, ports: seq<bool>, counter: nat, key: string, a: nat, b: nat)
    requires AllBacked(units, ports, counter) && AllApart(units) && key !in units
    requires a < |ports| && b < |ports| && a != b && !ports[a] && !ports[b]
    ensures AllApart(units[key := Slot(counter, a, b)])
  {
    var added := Slot(counter, a, b);
    forall k | k in units ensures Apart(added, units[k]) && Apart(units[k], added) {
      assert Backed(units[k], ports, counter);
    }
  }

  lemma CoveredAdd(units: map<string, Slot>, ports: seq<bool>, counter: nat, key: string, a: nat, b: nat)
    requires Covered(units, ports) && key !in units && a < |ports| && b < |ports|
    ensures Covered(units[key := Slot(counter, a, b)], ports[a := true][b := true])
  {
    var more, marked := units[key := Slot(counter, a, b)], ports[a := true][b := true];
    forall i | 0 <= i < |marked| && marked[i] ensures Owned(more, i) {
      if i == a || i == b {
        assert Holds(more[key], i);
      } else {
        assert Owned(units, i);
        var k :| k in units && Holds(units[k], i);
        assert Holds(more[k], i);
      }
    }
  }

  lemma LostAdd(units: map<string, Slot>, ports: seq<bool>, key: string, s: Slot, a: nat, b: nat)
    requires key !in units
    requires a < |ports| && b < |ports| && a != b && !ports[a] && !ports[b]
    ensures Lost(units[key := s], ports[a := true][b := true]) == Lost(units, ports)
  {
    var more := units[key := s];
    CountSet(ports, a, true);
    CountSet(ports[a := true], b, true);
    hide CountIf;
    assert more.Keys == units.Keys + {key} && |more.Keys| == |more|;
  }

  lemma BackedRemove(units: map<string, Slot>, ports: seq<bool>, counter: nat, key: string)
    requires AllBacked(units, ports, counter) && AllApart(units) && key in units
    ensures Backed(units[key], ports, counter)
    ensures AllBacked(units - {key}, ports[units[key].first := false][units[key].second := false], counter)
  {
    var s := units[key];
    assert Backed(s, ports, counter);
    var cleared := ports[s.first := false][s.second := false];
    forall k | k in units && k != key ensures Backed(units[k], cleared, counter) {
      assert Backed(units[k], ports, counter) && Apart(s, units[k]);
    }
  }

  lemma CoveredRemove(units: map<string, Slot>, ports: seq<bool>, counter: nat, key: string)
    requires Covered(units, ports) && key in units && Backed(units[key], ports, counter)
    ensures Covered(units - {key}, ports[units[key].first := false][units[key].second := false])
  {
    var s := units[key];
    var less, cleared := units - {key}, ports[s.first := false][s.second := false];
    forall i | 0 <= i < |cleared| && cleared[i] ensures Owned(less, i) {
      assert Owned(units, i);
      var k :| k in units && Holds(units[k], i);
      assert k in less && Holds(less[k], i);
    }
  }

  lemma LostRemove(units: map<string, Slot>, ports: seq<bool>, counter: nat, key: string)
    requires key in units && Backed(units[key], ports, counter)
    ensures Lost(units - {key}, ports[units[key].first := false][units[key].second := false]) == Lost(units, ports)
  {
    var s, less := units[key], units - {key};
    CountSet(ports, s.first, false);
    CountSet(ports[s.first := false], s.second, false);
    hide CountIf;
    assert less.Keys == units.Keys - {key} && |less.Keys| == |less|;
  }

  /** A unit that vanishes without giving back its bits loses both. */
  lemma LostTips(units: map<string, Slot>, ports: seq<bool>, key: string)
    ensures Lost(units - {key}, ports) == Lost(units, ports) + if key in units then 2 else 0
  {
    hide CountIf;
    var less := units - {key};
    if key in units {
      assert less.Keys == units.Keys - {key} && |less.Keys| == |less| && |units.Keys| == |units|;
    } else {
      assert less == units;
    }
  }

  // ----- Allocation and release -----

  lemma LiveIsWorkId(f: Format, r: Registry, key: string)
    requires Consistent(f, r) && Live(r, key)
    ensures IsWorkId(key, r.table[key].unit.number) && r.table[key].unit.number < r.counter
    ensures forall other :: key != OutPortKey(other)
  {
    var units := Units(f, r.start, r.table);
    assert Backed(units[key], r.ports, r.counter);
    var n := r.table[key].unit.number;
    hide AllBacked, AllApart, Units;
    var name :| key == WorkId(name, n);
    forall other ensures key != OutPortKey(other) {
      OutPortIsNoWorkId(other, name, n);
    }
  }

  /** The next work id, and the key of its URL, are new. */
  lemma NextIsNew(f: Format, r: Registry, unit: string)
    requires Consistent(f, r)
    ensures !Live(r, WorkId(unit, r.counter))
    ensures forall other :: !Live(r, OutPortKey(other))
    ensures OutPortKey(WorkId(unit, r.counter)) != WorkId(unit, r.counter)
  {
    hide Consistent;
    var key := WorkId(unit, r.counter);
    if Live(r, key) {
      LiveIsWorkId(f, r, key);
      var name :| key == WorkId(name, r.table[key].unit.number);
      WorkIdDistinct(name, r.table[key].unit.number, unit, r.counter);
      assert false;
    }
    forall other ensures !Live(r, OutPortKey(other)) {
      if Live(r, OutPortKey(other)) {
        LiveIsWorkId(f, r, OutPortKey(other));
        assert false;
      }
    }
  }

  lemma UnitsAdd(f: Format, start: nat, table: map<string, Entry>, u: Unit, url: string)
    requires OutPortKey(u.workId) != u.workId
    requires OutPortKey(u.workId) in table ==> !table[OutPortKey(u.workId)].UnitEntry?
    ensures Units(f, start, table[u.workId := UnitEntry(u)][OutPortKey(u.workId) := Value(url)])
            == Units(f, start, table)[u.workId := SlotOf(f, start, u)]
  {
    hide SlotOf, OutPortKey;
  }

  lemma UnitsRemove(f: Format, start: nat, table: map<string, Entry>, key: string)
    requires OutPortKey(key) in table ==> !table[OutPortKey(key)].UnitEntry?
    ensures Units(f, start, table - {key} - {OutPortKey(key)}) == Units(f, start, table) - {key}
  {
    hide SlotOf, OutPortKey;
  }

  /** The URLs of a new unit stand for the bits it was given. */
  lemma SlotRecovered(f: Format, start: nat, unit: string, number: nat, workId: string, a: nat, b: nat)
    requires Safe(f)
    ensures SlotOf(f, start, Unit(number, workId, MakeUrl(f, unit, ".output_url", start + a),
                                  MakeUrl(f, unit, ".inference_url", start + b))) == Slot(number, a, b)
  {
    hide ParsePort, MakeUrl;
    UrlRoundTrip(f, unit, ".output_url", start + a);
    UrlRoundTrip(f, unit, ".inference_url", start + b);
  }

  /** A successful allocation adds one unit on two free bits; a failed one changes nothing. */
  lemma AllocateExact(f: Format, r: Registry, unit: string)
    requires Safe(f) && Consistent(f, r)
    ensures var (u, t) := Allocated(f, r, unit);
      && (u.None? <==> CountIf(r.ports, IsFree) < 2)
      && (u.None? ==> t == r)
      && (u.Some? ==>
            && u.value.workId == WorkId(unit, r.counter) && u.value.number == r.counter && t.counter == r.counter + 1
            && !Live(r, u.value.workId)
            && t.table == r.table[u.value.workId := UnitEntry(u.value)]
                                 [u.value.workId + ".out_port" := Value(u.value.outputUrl)]
            && var (a, b) := TwoPorts(r.ports).value;
               && a < |r.ports| && b < |r.ports| && a != b && !r.ports[a] && !r.ports[b]
               && t.ports == r.ports[a := true][b := true]
               && Units(f, t.start, t.table) == Units(f, r.start, r.table)[u.value.workId := Slot(r.counter, a, b)])
  {
    hide Consistent, MakeUrl, TwoPorts, CountIf, WorkId, OutPortKey, Units, SlotOf;
    NoTwoPorts(r.ports);
    NextIsNew(f, r, unit);
    if TwoPorts(r.ports).Some? {
      var (a, b) := TwoPorts(r.ports).value;
      var u := Allocated(f, r, unit).0.value;
      TwoPortsFree(r.ports);
      SlotRecovered(f, r.start, unit, r.counter, u.workId, a, b);
      UnitsAdd(f, r.start, r.table, u, u.outputUrl);
      OutPortIs(u.workId);
    }
  }

  lemma OutPortIs(key: string)
    ensures OutPortKey(key) == key + ".out_port"
  {
  }

  lemma NamedAdd(table: map<string, Entry>, u: Unit, unit: string, url: string)
    requires Named(table) && u.workId == WorkId(unit, u.number)
    ensures Named(table[u.workId := UnitEntry(u)][OutPortKey(u.workId) := Value(url)])
  {
    assert IsWorkId(u.workId, u.number);
    hide IsWorkId, OutPortKey;
  }

  /** What a step must do to the registry: stay consistent, change the losses by `loss`, and uncover no bit. */
  ghost predicate Keeps(f: Format, r: Registry, t: Registry, loss: int) {
    && Consistent(f, t)
    && LostPorts(f, t) == LostPorts(f, r) + loss
    && (loss == 0 && Covered(Units(f, r.start, r.table), r.ports) ==> Covered(Units(f, t.start, t.table), t.ports))
    && |t.ports| == |r.ports| && t.start == r.start
  }

  lemma AllocateKeeps(f: Format, r: Registry, unit: string)
    requires Safe(f) && Consistent(f, r)
    ensures Keeps(f, r, Allocated(f, r, unit).1, 0)
  {
    hide AllBacked, AllApart, Covered, Lost, TwoPorts, CountIf, Named, Units, MakeUrl, WorkId, OutPortKey;
    AllocateExact(f, r, unit);
    if TwoPorts(r.ports).Some? {
      var (a, b) := TwoPorts(r.ports).value;
      var u := Allocated(f, r, unit).0.value;
      var units := Units(f, r.start, r.table);
      NotAmong(f, r, u.workId);
      BackedAdd(units, r.ports, r.counter, u.workId, a, b);
      ApartAdd(units, r.ports, r.counter, u.workId, a, b);
      LostAdd(units, r.ports, u.workId, Slot(r.counter, a, b), a, b);
      if Covered(units, r.ports) {
        CoveredAdd(units, r.ports, r.counter, u.workId, a, b);
      }
      NamedAdd(r.table, u, unit, u.outputUrl);
    }
  }

  lemma NotAmong(f: Format, r: Registry, key: string)
    ensures key in Units(f, r.start, r.table) <==> Live(r, key)
    ensures Live(r, key) ==> Units(f, r.start, r.table)[key] == SlotOf(f, r.start, r.table[key].unit)
  {
  }

  /** A release clears the unit's own two bits, no other, and removes exactly that unit. */
  lemma ReleaseExact(f: Format, r: Registry, key: string)
    requires Consistent(f, r) && Live(r, key)
    ensures var (status, t) := Released(f, r, key);
      var s := SlotOf(f, r.start, r.table[key].unit);
      && status == 0
      && Backed(s, r.ports, r.counter)
      && t.ports == r.ports[s.first := false][s.second := false]
      && t.table == r.table - {key, key + ".out_port"} && t.counter == r.counter
      && Units(f, t.start, t.table) == Units(f, r.start, r.table) - {key}
  {
    hide ParsePort, AllBacked, AllApart, Named, OutPortKey, Units;
    NotAmong(f, r, key);
    BackedRemove(Units(f, r.start, r.table), r.ports, r.counter, key);
    NextIsNew(f, r, "");
    UnitsRemove(f, r.start, r.table, key);
    OutPortIs(key);
    assert r.table - {key} - {OutPortKey(key)} == r.table - {key, OutPortKey(key)};
  }

  /** Releasing a key that holds no unit is refused and changes nothing. */
  lemma ReleaseRefused(f: Format, r: Registry, key: string)
    ensures Released(f, r, key) == (-1, r) <==> !Live(r, key)
  {
  }

  /** The URLs of a unit in the default format: the port, and the unit's name and the direction behind the socket. */
  lemma DefaultUrls(r: Registry, unit: string)
    requires Allocated(DEFAULT_FORMAT, r, unit).0.Some?
    ensures var u, ports := Allocated(DEFAULT_FORMAT, r, unit).0.value, TwoPorts(r.ports).value;
      && u.workId == unit + "." + Decimal.Print(r.counter)
      && u.outputUrl == "ipc:///tmp/llm/" + Decimal.Print(r.start + ports.0) + ".sock." + unit + ".output_url"
      && u.inferenceUrl == "ipc:///tmp/llm/" + Decimal.Print(r.start + ports.1) + ".sock." + unit + ".inference_url"
  {
    NamesSocket();
    hide TwoPorts, Decimal.Print, Contains;
    var ports := TwoPorts(r.ports).value;
    UrlIs(unit, ".output_url", r.start + ports.0);
    UrlIs(unit, ".inference_url", r.start + ports.1);
  }

  lemma UrlIs(unit: string, tag: string, port: nat)
    ensures MakeUrl(DEFAULT_FORMAT, unit, tag, port)
            == "ipc:///tmp/llm/" + Decimal.Print(port) + ".sock." + unit + tag
  {
    NamesSocket();
    hide Decimal.Print, Contains;
    var p := Decimal.Print(port);
    assert ".sock" + "." == ".sock.";
    assert "ipc:///tmp/llm/" + p + (".sock" + ("." + unit + tag)) == "ipc:///tmp/llm/" + p + ".sock." + unit + tag;
  }

  lemma NamesSocket()
    ensures Contains(DEFAULT_FORMAT.prefix + "%i" + DEFAULT_FORMAT.suffix, "sock")
  {
    var s := DEFAULT_FORMAT.prefix + "%i" + DEFAULT_FORMAT.suffix;
    var i := |DEFAULT_FORMAT.prefix| + 3;
    assert s[i..] == "sock";
  }

  lemma ReleaseKeeps(f: Format, r: Registry, key: string)
    requires Consistent(f, r)
    ensures Keeps(f, r, Released(f, r, key).1, 0)
  {
    hide AllBacked, AllApart, Covered, Lost, Freed, SlotOf, Units;
    if Live(r, key) {
      ReleaseExact(f, r, key);
      NotAmong(f, r, key);
      var units := Units(f, r.start, r.table);
      BackedRemove(units, r.ports, r.counter, key);
      ApartRemove(units, key);
      LostRemove(units, r.ports, r.counter, key);
      if Covered(units, r.ports) {
        CoveredRemove(units, r.ports, r.counter, key);
      }
    }
  }

  lemma ApartRemove(units: map<string, Slot>, key: string)
    requires AllApart(units)
    ensures AllApart(units - {key})
  {
    hide Apart;
  }

  // ----- The shared table -----

  function SqlSet(r: Registry, key: string, text: string): Registry { r.(table := r.table[key := Value(text)]) }

  function SqlUnset(r: Registry, key: string): Registry { r.(table := r.table - {key}) }

  lemma UnitsSettings(f: Format, start: nat, table: map<string, Entry>, key: string, text: string)
    ensures Units(f, start, table[key := Value(text)]) == Units(f, start, table) - {key}
    ensures Units(f, start, table - {key}) == Units(f, start, table) - {key}
  {
    hide SlotOf;
  }

  lemma BackedDrop(units: map<string, Slot>, ports: seq<bool>, counter: nat, key: string)
    requires AllBacked(units, ports, counter)
    ensures AllBacked(units - {key}, ports, counter)
  {
    hide Backed;
  }

  /** Settings share the table with units: writing or erasing a live unit's key loses its two ports. */
  lemma SettingsKeep(f: Format, r: Registry, key: string, text: string)
    requires Consistent(f, r)
    ensures Keeps(f, r, SqlSet(r, key, text), if Live(r, key) then 2 else 0)
    ensures Keeps(f, r, SqlUnset(r, key), if Live(r, key) then 2 else 0)
  {
    hide AllBacked, AllApart, Covered, Lost, Units, IsWorkId;
    var units := Units(f, r.start, r.table);
    UnitsSettings(f, r.start, r.table, key, text);
    NotAmong(f, r, key);
    BackedDrop(units, r.ports, r.counter, key);
    ApartRemove(units, key);
    LostTips(units, r.ports, key);
    if !Live(r, key) {
      assert units - {key} == units;
    }
  }

  /** A setting keeps a sound registry sound exactly when its key is not a live unit's. */
  lemma SettingsExact(f: Format, r: Registry, key: string, text: string)
    requires Invariant(f, r)
    ensures Invariant(f, SqlSet(r, key, text)) <==> !Live(r, key)
    ensures Invariant(f, SqlUnset(r, key)) <==> !Live(r, key)
  {
    hide Consistent, Covered, Lost, Units;
    SettingsKeep(f, r, key, text);
  }

  // ----- Every run -----

  datatype Step = Allocate(unit: string) | Release(key: string) | Set(key: string, text: string) | Unset(key: string)

  function Next(f: Format, r: Registry, step: Step): Registry {
    match step
    case Allocate(unit) => Allocated(f, r, unit).1
    case Release(key) => Released(f, r, key).1
    case Set(key, text) => SqlSet(r, key, text)
    case Unset(key) => SqlUnset(r, key)
  }

  /** Whether a setting hits the key of a live unit. */
  predicate Hits(r: Registry, step: Step) {
    (step.Set? || step.Unset?) && Live(r, step.key)
  }

  function CountHits(f: Format, r: Registry, steps: seq<Step>): nat
    decreases steps
  {
    if steps == [] then 0
    else (if Hits(r, steps[0]) then 1 else 0) + CountHits(f, Next(f, r, steps[0]), steps[1..])
  }

  function Run(f: Format, r: Registry, steps: seq<Step>): Registry
    decreases steps
  {
    if steps == [] then r else Run(f, Next(f, r, steps[0]), steps[1..])
  }

  function Empty(start: nat, size: nat, counter: nat, settings: map<string, string>): Registry {
    Registry(start, seq(size, _ => false), counter, map k | k in settings :: Value(settings[k]))
  }

  lemma StepKeeps(f: Format, r: Registry, step: Step)
    requires Safe(f) && Consistent(f, r)
    ensures Keeps(f, r, Next(f, r, step), if Hits(r, step) then 2 else 0)
  {
    hide Consistent, Keeps;
    match step
    case Allocate(unit) => AllocateKeeps(f, r, unit);
    case Release(key) => ReleaseKeeps(f, r, key);
    case Set(key, text) => SettingsKeep(f, r, key, text);
    case Unset(key) => SettingsKeep(f, r, key, "");
  }

  lemma {:induction false} RunKeeps(f: Format, r: Registry, steps: seq<Step>)
    requires Safe(f) && Consistent(f, r)
    ensures Keeps(f, r, Run(f, r, steps), 2 * CountHits(f, r, steps))
    decreases steps
  {
    hide Consistent, Next, Hits, Covered, LostPorts, Units;
    if steps != [] {
      StepKeeps(f, r, steps[0]);
      RunKeeps(f, Next(f, r, steps[0]), steps[1..]);
    }
  }

  lemma {:induction false} AllFree(ports: seq<bool>)
    requires true !in ports
    ensures CountIf(ports, IsFree) == |ports|
  {
    if ports != [] {
      assert ports[|ports| - 1] in ports;
      AllFree(ports[..|ports| - 1]);
    }
  }

  lemma EmptySound(f: Format, start: nat, size: nat, counter: nat, settings: map<string, string>)
    ensures var r := Empty(start, size, counter, settings);
      && Invariant(f, r) && Units(f, start, r.table) == map[] && CountIf(r.ports, IsFree) == size
      && r.start == start && r.counter == counter
  {
    var r := Empty(start, size, counter, settings);
    AllFree(r.ports);
    assert Units(f, start, r.table) == map[];
  }

  /**
   * In every run, whatever it sets: live units hold disjoint pairs of set bits and distinct numbers, and
   * free bits, twice the live units and twice the settings that hit a live unit's key add up to the list.
   * The set bits are exactly the ports of live units if and only if no setting did.
   */
  lemma PortsConserved(
    f: Format, start: nat, size: nat, counter: nat, settings: map<string, string>, steps: seq<Step>)
    requires Safe(f)
    ensures var r := Empty(start, size, counter, settings);
      var t := Run(f, r, steps);
      && Consistent(f, t)
      && CountIf(t.ports, IsFree) + 2 * |Units(f, start, t.table)| + 2 * CountHits(f, r, steps) == size
      && (Invariant(f, t) <==> CountHits(f, r, steps) == 0)
  {
    var r := Empty(start, size, counter, settings);
    EmptySound(f, start, size, counter, settings);
    RunKeeps(f, r, steps);
    hide Run, CountHits, CountIf, Units, Covered, Consistent;
  }

  lemma TwoSteps(f: Format, r: Registry, a: Step, b: Step)
    ensures Run(f, r, [a, b]) == Next(f, Next(f, r, a), b)
    ensures CountHits(f, r, [a, b])
            == (if Hits(r, a) then 1 else 0) + (if Hits(Next(f, r, a), b) then 1 else 0)
  {
    hide Next, Hits;
    assert [a, b][1..] == [b] && [b][1..] == [];
    assert Run(f, Next(f, r, a), [b]) == Next(f, Next(f, r, a), b);
    assert CountHits(f, Next(f, r, a), [b]) == if Hits(Next(f, r, a), b) then 1 else 0;
  }

  lemma FirstUnit(f: Format, r: Registry, unit: string)
    requires Safe(f) && Consistent(f, r) && Units(f, r.start, r.table) == map[] && CountIf(r.ports, IsFree) >= 2
    ensures var t := Allocated(f, r, unit).1;
      Live(t, WorkId(unit, r.counter)) && Units(f, t.start, t.table).Keys == {WorkId(unit, r.counter)}
  {
    AllocateExact(f, r, unit);
    hide Consistent, TwoPorts, CountIf, WorkId, Units;
    var t := Allocated(f, r, unit).1;
    NotAmong(f, t, WorkId(unit, r.counter));
  }

  /** Losing ports takes two steps: allocate a unit, and set its work id. */
  lemma SettingLosesPorts(f: Format, start: nat, size: nat, counter: nat, unit: string, text: string)
    requires Safe(f) && size >= 2
    ensures var t := Run(f, Empty(start, size, counter, map[]), [Allocate(unit), Set(WorkId(unit, counter), text)]);
      Units(f, start, t.table) == map[] && CountIf(t.ports, IsFree) == size - 2
  {
    var r, key := Empty(start, size, counter, map[]), WorkId(unit, counter);
    var steps := [Allocate(unit), Set(key, text)];
    EmptySound(f, start, size, counter, map[]);
    hide Run, CountHits, CountIf, Units, Consistent, Allocated, WorkId, Live, Empty, Covered, LostPorts;
    FirstUnit(f, r, unit);
    TwoSteps(f, r, steps[0], steps[1]);
    var t := Allocated(f, r, unit).1;
    UnitsSettings(f, t.start, t.table, key, text);
    assert (Units(f, t.start, t.table) - {key}).Keys == {};
    PortsConserved(f, start, size, counter, map[], steps);
    AllocatedStart(f, r, unit);
  }

  lemma AllocatedStart(f: Format, r: Registry, unit: string)
    ensures Allocated(f, r, unit).1.start == r.start
  {
  }

  /** The default format recovers every port. */
  lemma DefaultFormatSafe()
    ensures Safe(DEFAULT_FORMAT)
  {
  }

  /** The registry as the RPC handlers share it; allocations and releases run under the registry lock. */
  class UnitRegistry {
    const format: Format
    const portListStart: nat
    var portList: seq<bool>
    var counter: nat
    var table: map<string, Entry>

    constructor (format: Format, start: nat, size: nat, counter: nat)
      ensures this.format == format
      ensures View() == Registry(start, seq(size, _ => false), counter, map[])
    {
      this.format, portListStart, portList, this.counter, table := format, start, seq(size, _ => false), counter, map[];
    }

    function View(): Registry
      reads this
    {
      Registry(portListStart, portList, counter, table)
    }

    /** The first free port, now taken; -1 if there is none. */
    method AllocatePort() returns (port: int)
      modifies this`portList
      ensures var i := IndexOf(old(portList), false);
        if i.None? then port == -1 && portList == old(portList)
        else port == portListStart + i.value && portList == old(portList)[i.value := true]
    {
      var i := 0;
      while i < |portList|
        invariant i <= |portList| && portList == old(portList)
        invariant false !in portList[..i]
      {
        if !portList[i] {
          IndexIs(portList, i, false);
          portList := portList[i := true];
          return portListStart + i;
        }
        assert portList[..i + 1] == portList[..i] + [portList[i]];
        i := i + 1;
      }
      assert portList[..|portList|] == portList;
      return -1;
    }

    method ReleasePort(port: int)
      modifies this`portList
      ensures portList == if 0 <= port - portListStart < |old(portList)| then
                            old(portList)[port - portListStart := false] else old(portList)
    {
      var index := port - portListStart;
      if 0 <= index < |portList| {
        portList := portList[index := false];
      }
    }

    method AllocateUnit(unit: string) returns (result: Option<Unit>)
      modifies this
      ensures (result, View()) == Allocated(format, old(View()), unit)
    {
      hide IndexOf, MakeUrl, WorkId, OutPortKey;
      var outputPort := AllocatePort();
      var inferencePort := AllocatePort();
      if outputPort < 0 || inferencePort < 0 {
        if outputPort >= 0 {
          ReleasePort(outputPort);
        }
        assert inferencePort < 0;
        assert portList == old(portList);
        return None;
      }
      var number := counter;
      counter := counter + 1;
      var u := Unit(number, WorkId(unit, number), MakeUrl(format, unit, ".output_url", outputPort),
                    MakeUrl(format, unit, ".inference_url", inferencePort));
      table := table[u.workId := UnitEntry(u)];
      table := table[OutPortKey(u.workId) := Value(u.outputUrl)];
      return Some(u);
    }

    method ReleaseUnit(key: string) returns (status: int)
      modifies this
      ensures (status, View()) == Released(format, old(View()), key)
    {
      if key !in table || !table[key].UnitEntry? {
        return -1;
      }
      var u := table[key].unit;
      var port := ParsePort(format, u.outputUrl);
      if port.Some? {
        ReleasePort(port.value);
      }
      port := ParsePort(format, u.inferenceUrl);
      if port.Some? {
        ReleasePort(port.value);
      }
      table := table - {key};
      table := table - {OutPortKey(key)};
      return 0;
    }
  }
}
