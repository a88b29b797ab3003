/**
 * Reading a streamed response: the transport delivers bytes in arbitrary pieces, and the reader cuts
 * them into lines and turns the data lines into numbered deltas. The line format is a subset of the
 * server-sent events of sections 9.2.5 and 9.2.6 of the HTML Living Standard.
 */
module StreamFraming {
  import opened Sequences

  /** What the JSON of one data line says; reading the JSON itself is a parameter. */
  datatype Payload = Broken(message: string) | Failure(message: string) | Ignored | Content(text: string)

  type Parser = string -> Payload

  datatype Delta = Delta(index: nat, text: string)

  datatype Reader = Reader(
    buffer: string,
    index: nat,
    done: bool,
    failed: bool,
    started: bool,
    error: string,
    emitted: seq<Delta>)

  const START := Reader("", 0, false, false, false, "", [])

  const PREFIX := "data:"

  function SkipSpaces(s: string): string {
    if s != "" && s[0] == ' ' then SkipSpaces(s[1..]) else s
  }

  function HandleLine(r: Reader, line: string, parse: Parser): Reader {
    if line == "" || !(PREFIX <= line) then r
    else
      var payload := SkipSpaces(line[|PREFIX|..]);
      if payload == "[DONE]" then r.(done := true)
      else
        match parse(payload)
        case Broken(message) => r.(failed := true, error := message)
        case Failure(message) => r.(failed := true, error := message)
        case Ignored => r
        case Content(text) =>
          if text == "" then r
          else r.(started := true, index := r.index + 1, emitted := r.emitted + [Delta(r.index, text)])
  }

  function DropReturn(line: string): string {
    if line != "" && line[|line| - 1] == '\r' then line[..|line| - 1] else line
  }

  /** Handle every complete line in the buffer. */
  function Drain(r: Reader, parse: Parser): Reader
    decreases |r.buffer|
  {
    var pos := IndexOf(r.buffer, '\n');
    if pos.None? then r
    else
      var line := r.buffer[..pos.value];
      var left := HandleLine(r.(buffer := r.buffer[pos.value + 1..]), DropReturn(line), parse);
      Drain(left, parse)
  }

  /** One call of the write callback. */
  function Feed(r: Reader, piece: string, parse: Parser): Reader {
    Drain(r.(buffer := r.buffer + piece), parse)
  }

  function FeedAll(r: Reader, pieces: seq<string>, parse: Parser): Reader
    decreases pieces
  {
    if pieces == [] then r else FeedAll(Feed(r, pieces[0], parse), pieces[1..], parse)
  }

  // ----- The reference: cut the whole text at its newlines, then handle the lines -----

  /** The lines of a text, without their newlines, and what follows the last newline. */
  ghost predicate Framed(text: string, lines: seq<string>, rest: string) {
    && '\n' !in rest
    && (forall i :: 0 <= i < |lines| ==> '\n' !in lines[i])
    && text == Unframe(lines) + rest
  }

  function Unframe(lines: seq<string>): string {
    if lines == [] then "" else lines[0] + "\n" + Unframe(lines[1..])
  }

  function HandleAll(r: Reader, lines: seq<string>, parse: Parser): Reader
    decreases lines
  {
    if lines == [] then r else HandleAll(HandleLine(r, DropReturn(lines[0]), parse), lines[1..], parse)
  }

  lemma HandleKeepsBuffer(r: Reader, line: string, parse: Parser, buffer: string)
    ensures HandleLine(r, line, parse).buffer == r.buffer
    ensures HandleLine(r.(buffer := buffer), line, parse) == HandleLine(r, line, parse).(buffer := buffer)
  {
  }

  lemma FirstNewline(line: string, more: string)
    requires '\n' !in line
    ensures IndexOf(line + "\n" + more, '\n') == Some(|line|)
  {
    var text := line + "\n" + more;
    assert text[..|line|] == line;
    IndexIs(text, |line|, '\n');
  }

  /** Draining a framed buffer handles exactly its lines and keeps exactly the rest. */
  lemma {:induction false} DrainHandlesLines(r: Reader, lines: seq<string>, rest: string, parse: Parser)
    requires Framed(r.buffer, lines, rest)
    ensures Drain(r, parse) == HandleAll(r.(buffer := rest), lines, parse)
    decreases lines
  {
    if lines == [] {
      assert r.buffer == rest;
    } else {
      var more := Unframe(lines[1..]) + rest;
      assert r.buffer == lines[0] + "\n" + more;
      FirstNewline(lines[0], more);
      assert r.buffer[..|lines[0]|] == lines[0] && r.buffer[|lines[0]| + 1..] == more;
      var line := DropReturn(lines[0]);
      HandleKeepsBuffer(r, line, parse, more);
      HandleKeepsBuffer(r, line, parse, rest);
      DrainHandlesLines(HandleLine(r, line, parse).(buffer := more), lines[1..], rest, parse);
    }
  }

  lemma {:induction false} FramingExists(text: string) returns (lines: seq<string>, rest: string)
    ensures Framed(text, lines, rest)
    decreases |text|
  {
    var pos := IndexOf(text, '\n');
    if pos.None? {
      lines, rest := [], text;
    } else {
      var tail;
      tail, rest := FramingExists(text[pos.value + 1..]);
      lines := [text[..pos.value]] + tail;
      assert lines[1..] == tail;
      assert text == text[..pos.value] + "\n" + text[pos.value + 1..];
    }
  }

  lemma {:induction false} FramingUnique(text: string, ls: seq<string>, r: string, ls': seq<string>, r': string)
    requires Framed(text, ls, r) && Framed(text, ls', r')
    ensures ls == ls' && r == r'
    decreases ls
  {
    UnframeHead(text, ls, r);
    UnframeHead(text, ls', r');
    if ls != [] && ls' != [] {
      FramingUnique(text[|ls[0]| + 1..], ls[1..], r, ls'[1..], r');
      assert ls == [ls[0]] + ls[1..] && ls' == [ls'[0]] + ls'[1..];
    }
  }

  lemma UnframeHead(text: string, ls: seq<string>, r: string)
    requires Framed(text, ls, r)
    ensures ls == [] ==> text == r && IndexOf(text, '\n').None?
    ensures ls != [] ==>
      && IndexOf(text, '\n') == Some(|ls[0]|)
      && text[..|ls[0]|] == ls[0]
      && Framed(text[|ls[0]| + 1..], ls[1..], r)
  {
    if ls != [] {
      var more := Unframe(ls[1..]) + r;
      assert text == ls[0] + "\n" + more;
      FirstNewline(ls[0], more);
      assert text[|ls[0]| + 1..] == more;
    }
  }

  /** Every text is framed in exactly one way. */
  lemma FramedOnce(text: string) returns (lines: seq<string>, rest: string)
    ensures Framed(text, lines, rest)
    ensures forall ls, r :: Framed(text, ls, r) ==> ls == lines && r == rest
  {
    lines, rest := FramingExists(text);
    forall ls, r | Framed(text, ls, r) ensures ls == lines && r == rest {
      FramingUnique(text, ls, r, lines, rest);
    }
  }

  lemma NewlineInFront(buffer: string, more: string)
    requires '\n' in buffer
    ensures var pos := IndexOf(buffer, '\n').value;
      && IndexOf(buffer + more, '\n') == Some(pos)
      && (buffer + more)[..pos] == buffer[..pos]
      && (buffer + more)[pos + 1..] == buffer[pos + 1..] + more
  {
    hide IndexOf;
    var pos := IndexOf(buffer, '\n').value;
    assert (buffer + more)[..pos] == buffer[..pos];
    IndexIs(buffer + more, pos, '\n');
  }

  /** Handling the complete lines before more bytes arrive changes nothing. */
  lemma {:induction false} DrainEarly(r: Reader, more: string, parse: Parser)
    ensures var early := Drain(r, parse);
      Drain(early.(buffer := early.buffer + more), parse) == Drain(r.(buffer := r.buffer + more), parse)
    decreases |r.buffer|
  {
    hide HandleLine, DropReturn, IndexOf;
    var pos := IndexOf(r.buffer, '\n');
    if pos.Some? {
      var line, tail := DropReturn(r.buffer[..pos.value]), r.buffer[pos.value + 1..];
      NewlineInFront(r.buffer, more);
      HandleKeepsBuffer(r, line, parse, tail);
      HandleKeepsBuffer(r, line, parse, tail + more);
      DrainEarly(HandleLine(r.(buffer := tail), line, parse), more, parse);
    }
  }

  lemma {:induction false} FeedAllIsDrain(r: Reader, pieces: seq<string>, parse: Parser)
    requires '\n' !in r.buffer
    ensures FeedAll(r, pieces, parse) == Drain(r.(buffer := r.buffer + Concat(pieces)), parse)
    decreases pieces
  {
    if pieces == [] {
      assert r.buffer + Concat(pieces) == r.buffer;
    } else {
      var next := Feed(r, pieces[0], parse);
      DrainLeavesNoNewline(r.(buffer := r.buffer + pieces[0]), parse);
      FeedAllIsDrain(next, pieces[1..], parse);
      DrainEarly(r.(buffer := r.buffer + pieces[0]), Concat(pieces[1..]), parse);
      assert (r.buffer + pieces[0]) + Concat(pieces[1..]) == r.buffer + Concat(pieces);
    }
  }

  lemma {:induction false} DrainLeavesNoNewline(r: Reader, parse: Parser)
    ensures '\n' !in Drain(r, parse).buffer
    decreases |r.buffer|
  {
    var pos := IndexOf(r.buffer, '\n');
    if pos.Some? {
      var next := r.(buffer := r.buffer[pos.value + 1..]);
      var line := DropReturn(r.buffer[..pos.value]);
      HandleKeepsBuffer(next, line, parse, "");
      DrainLeavesNoNewline(HandleLine(next, line, parse), parse);
    }
  }

  /**
   * However the bytes are cut into pieces, the reader ends with the lines of the whole text handled,
   * in order, and the text after the last newline left over.
   */
  lemma FeedAllHandlesLines(pieces: seq<string>, lines: seq<string>, rest: string, parse: Parser)
    requires Framed(Concat(pieces), lines, rest)
    ensures FeedAll(START, pieces, parse) == HandleAll(START.(buffer := rest), lines, parse)
  {
    assert START.buffer + Concat(pieces) == Concat(pieces);
    FeedAllIsDrain(START, pieces, parse);
    DrainHandlesLines(START.(buffer := Concat(pieces)), lines, rest, parse);
  }

  /** Two ways of cutting the same bytes end in the same state, with the same deltas. */
  lemma ChunkingIrrelevant(pieces: seq<string>, pieces': seq<string>, parse: Parser)
    requires Concat(pieces) == Concat(pieces')
    ensures FeedAll(START, pieces, parse) == FeedAll(START, pieces', parse)
  {
    FeedAllIsDrain(START, pieces, parse);
    FeedAllIsDrain(START, pieces', parse);
  }

  // ----- Numbering -----

  /** Deltas are numbered from zero without gaps, and the reader knows whether it has emitted any. */
  ghost predicate Numbered(r: Reader) {
    && r.index == |r.emitted|
    && (r.started <==> r.emitted != [])
    && (forall i :: 0 <= i < |r.emitted| ==> r.emitted[i].index == i && r.emitted[i].text != "")
  }

  lemma HandleNumbers(r: Reader, line: string, parse: Parser)
    requires Numbered(r)
    ensures Numbered(HandleLine(r, line, parse))
  {
  }

  lemma {:induction false} DrainNumbers(r: Reader, parse: Parser)
    requires Numbered(r)
    ensures Numbered(Drain(r, parse))
    decreases |r.buffer|
  {
    var pos := IndexOf(r.buffer, '\n');
    if pos.Some? {
      var next := r.(buffer := r.buffer[pos.value + 1..]);
      var line := DropReturn(r.buffer[..pos.value]);
      HandleNumbers(next, line, parse);
      HandleKeepsBuffer(next, line, parse, "");
      hide HandleLine;
      DrainNumbers(HandleLine(next, line, parse), parse);
    }
  }

  lemma {:induction false} FeedAllNumbers(r: Reader, pieces: seq<string>, parse: Parser)
    requires Numbered(r)
    ensures Numbered(FeedAll(r, pieces, parse))
    decreases pieces
  {
    if pieces != [] {
      DrainNumbers(r.(buffer := r.buffer + pieces[0]), parse);
      FeedAllNumbers(Feed(r, pieces[0], parse), pieces[1..], parse);
    }
  }

  // ----- What the lines mean -----

  function Spaces(k: nat): string { seq(k, _ => ' ') }

  /** A data line: the prefix, spaces, a payload that does not start with one, and perhaps a carriage return. */
  predicate Shaped(line: string, k: nat, payload: string, tail: string) {
    && line == "data:" + Spaces(k) + payload + tail
    && (payload == "" || payload[0] != ' ')
    && (tail == "\r" || (tail == "" && (payload == "" || payload[|payload| - 1] != '\r')))
  }

  ghost predicate Carries(line: string, payload: string) {
    exists k: nat, tail :: Shaped(line, k, payload, tail)
  }

  datatype Meaning = Nothing | Marker | Trouble(message: string) | Words(text: string)

  /** The meaning of a payload, the JSON reader being given. */
  function MeaningOf(payload: string, parse: Parser): Meaning {
    if payload == "[DONE]" then Marker
    else
      match parse(payload)
      case Broken(message) => Trouble(message)
      case Failure(message) => Trouble(message)
      case Ignored => Nothing
      case Content(text) => if text == "" then Nothing else Words(text)
  }

  /** A line that carries a payload means what that means; any other means nothing. */
  ghost predicate Says(line: string, parse: Parser, m: Meaning) {
    if exists p :: Carries(line, p) then exists p :: Carries(line, p) && m == MeaningOf(p, parse)
    else m == Nothing
  }

  lemma {:induction false} SkipsAll(s: string) returns (k: nat)
    ensures s == Spaces(k) + SkipSpaces(s) && (SkipSpaces(s) == "" || SkipSpaces(s)[0] != ' ')
  {
    if s != "" && s[0] == ' ' {
      var n := SkipsAll(s[1..]);
      k := n + 1;
      assert s == [' '] + s[1..] && Spaces(k) == [' '] + Spaces(n);
    } else {
      k := 0;
      assert Spaces(0) + s == s;
    }
  }

  /** Skipping spaces finds the payload. */
  lemma {:induction false} SkipsTo(k: nat, payload: string)
    requires payload == "" || payload[0] != ' '
    ensures SkipSpaces(Spaces(k) + payload) == payload
  {
    if k == 0 {
      assert Spaces(0) + payload == payload;
    } else {
      SkipsTo(k - 1, payload);
      assert (Spaces(k) + payload)[1..] == Spaces(k - 1) + payload;
    }
  }

  /** The payload that the reader takes out of a line, if it takes one. */
  function Extracted(line: string): Option<string> {
    var l := DropReturn(line);
    if PREFIX <= l then Some(SkipSpaces(l[|PREFIX|..])) else None
  }

  /** Taking it out is sound: the line has that shape. */
  lemma ExtractedCarries(line: string)
    requires Extracted(line).Some?
    ensures Carries(line, Extracted(line).value)
  {
    var l := DropReturn(line);
    var rest := l[|PREFIX|..];
    var k := SkipsAll(rest);
    var payload := SkipSpaces(rest);
    var tail := if l == line then "" else "\r";
    assert l == PREFIX + rest;
    assert line == l + tail;
    assert line == PREFIX + Spaces(k) + payload + tail;
    hide SkipSpaces;
    if tail == "" && payload != "" {
      assert line[|line| - 1] == payload[|payload| - 1];
    }
    assert Shaped(line, k, payload, tail);
  }

  /** And complete: a line of that shape gives its payload, so that it carries only one. */
  lemma CarriedIsExtracted(line: string, payload: string)
    requires Carries(line, payload)
    ensures Extracted(line) == Some(payload)
  {
    var k: nat, tail :| Shaped(line, k, payload, tail);
    var l := PREFIX + Spaces(k) + payload;
    assert line == l + tail;
    if tail == "" {
      assert line == l;
      LastOf(k, payload);
    } else {
      assert line[|line| - 1] == '\r' && line[..|line| - 1] == l;
    }
    assert DropReturn(line) == l;
    assert l[|PREFIX|..] == Spaces(k) + payload;
    SkipsTo(k, payload);
  }

  lemma LastOf(k: nat, payload: string)
    requires payload == "" || payload[|payload| - 1] != '\r'
    ensures var l := PREFIX + Spaces(k) + payload; l[|l| - 1] != '\r'
  {
    var l := PREFIX + Spaces(k) + payload;
    if payload != "" {
      assert l[|l| - 1] == payload[|payload| - 1];
    } else if k > 0 {
      assert l[|l| - 1] == Spaces(k)[k - 1];
    } else {
      assert l == PREFIX;
    }
  }

  /** What one more line does to the reader. */
  function After(r: Reader, m: Meaning): Reader {
    match m
    case Nothing => r
    case Marker => r.(done := true)
    case Trouble(message) => r.(failed := true, error := message)
    case Words(text) => r.(started := true, index := r.index + 1, emitted := r.emitted + [Delta(r.index, text)])
  }

  /** Every line says one thing, and that is what handling it does. */
  lemma LineSays(line: string, parse: Parser) returns (m: Meaning)
    ensures Says(line, parse, m)
    ensures forall r :: HandleLine(r, DropReturn(line), parse) == After(r, m)
  {
    var e := Extracted(line);
    if e.Some? {
      ExtractedCarries(line);
      m := MeaningOf(e.value, parse);
    } else {
      m := Nothing;
      forall p ensures !Carries(line, p) {
        if Carries(line, p) {
          CarriedIsExtracted(line, p);
        }
      }
    }
    hide Carries, SkipSpaces, DropReturn;
  }

  lemma SaysOne(line: string, parse: Parser, m: Meaning, m': Meaning)
    requires Says(line, parse, m) && Says(line, parse, m')
    ensures m == m'
  {
    if p, p' :| Carries(line, p) && Carries(line, p') && m == MeaningOf(p, parse) && m' == MeaningOf(p', parse) {
      CarriedIsExtracted(line, p);
      CarriedIsExtracted(line, p');
    }
    hide Carries, MeaningOf;
  }

  ghost predicate SayAll(lines: seq<string>, parse: Parser, ms: seq<Meaning>) {
    |ms| == |lines| && forall i :: 0 <= i < |lines| ==> Says(lines[i], parse, ms[i])
  }

  /** The texts, in order. */
  function Texts(ms: seq<Meaning>): seq<string> {
    if ms == [] then []
    else Texts(ms[..|ms| - 1]) + if ms[|ms| - 1].Words? then [ms[|ms| - 1].text] else []
  }

  /** The message of the last trouble; none if there was none. */
  function LastTrouble(ms: seq<Meaning>): string {
    if ms == [] then ""
    else if ms[|ms| - 1].Trouble? then ms[|ms| - 1].message
    else LastTrouble(ms[..|ms| - 1])
  }

  /** What a reader has seen, in terms of the meanings of its lines. */
  ghost predicate HasRead(r: Reader, ms: seq<Meaning>) {
    && (r.done <==> Marker in ms)
    && (r.failed <==> exists i :: 0 <= i < |ms| && ms[i].Trouble?)
    && r.error == LastTrouble(ms)
    && (r.started <==> exists i :: 0 <= i < |ms| && ms[i].Words?)
    && r.index == |r.emitted| == |Texts(ms)|
    && forall k :: 0 <= k < |r.emitted| ==> r.emitted[k] == Delta(k, Texts(ms)[k])
  }

  lemma HasReadNext(r: Reader, ms: seq<Meaning>, m: Meaning)
    requires HasRead(r, ms)
    ensures HasRead(After(r, m), ms + [m])
  {
    var all := ms + [m];
    assert all[..|ms|] == ms && all[|ms|] == m;
    assert forall x :: x in all <==> x in ms || x == m;
    assert (exists i :: 0 <= i < |all| && all[i].Trouble?)
           <==> (exists i :: 0 <= i < |ms| && ms[i].Trouble?) || m.Trouble? by {
      if i :| 0 <= i < |ms| && ms[i].Trouble? { assert all[i].Trouble?; }
      if m.Trouble? { assert all[|ms|].Trouble?; }
    }
    assert (exists i :: 0 <= i < |all| && all[i].Words?)
           <==> (exists i :: 0 <= i < |ms| && ms[i].Words?) || m.Words? by {
      if i :| 0 <= i < |ms| && ms[i].Words? { assert all[i].Words?; }
      if m.Words? { assert all[|ms|].Words?; }
    }
  }

  lemma {:induction false} HandleAllSnoc(r: Reader, lines: seq<string>, line: string, parse: Parser)
    ensures HandleAll(r, lines + [line], parse) == HandleLine(HandleAll(r, lines, parse), DropReturn(line), parse)
    decreases lines
  {
    hide HandleLine, DropReturn;
    if lines == [] {
      assert [line][1..] == [] && lines + [line] == [line];
    } else {
      assert (lines + [line])[1..] == lines[1..] + [line];
      HandleAllSnoc(HandleLine(r, DropReturn(lines[0]), parse), lines[1..], line, parse);
    }
  }

  lemma {:induction false} HandleAllReads(lines: seq<string>, rest: string, parse: Parser) returns (ms: seq<Meaning>)
    ensures SayAll(lines, parse, ms)
    ensures HasRead(HandleAll(START.(buffer := rest), lines, parse), ms)
    ensures HandleAll(START.(buffer := rest), lines, parse).buffer == rest
  {
    hide HandleLine, DropReturn, Says, HasRead;
    if lines == [] {
      ms := [];
      ReadsNone(rest);
    } else {
      var n := |lines| - 1;
      var front := HandleAllReads(lines[..n], rest, parse);
      var m := LineSays(lines[n], parse);
      ms := front + [m];
      var r := HandleAll(START.(buffer := rest), lines[..n], parse);
      HasReadNext(r, front, m);
      HandleAllSnoc(START.(buffer := rest), lines[..n], lines[n], parse);
      assert lines[..n] + [lines[n]] == lines;
    }
  }

  lemma ReadsNone(rest: string)
    ensures HasRead(START.(buffer := rest), [])
  {
  }

  /**
   * Over the lines of the whole text, however it was cut into pieces: the reader has failed exactly if some
   * line brings trouble, with the message of the last; it is done exactly if some line is the marker; and
   * it has emitted exactly the texts, in order. What follows the last newline is left over.
   */
  lemma StreamMeans(pieces: seq<string>, lines: seq<string>, rest: string, parse: Parser) returns (ms: seq<Meaning>)
    requires Framed(Concat(pieces), lines, rest)
    ensures SayAll(lines, parse, ms)
    ensures HasRead(FeedAll(START, pieces, parse), ms) && FeedAll(START, pieces, parse).buffer == rest
  {
    FeedAllHandlesLines(pieces, lines, rest, parse);
    ms := HandleAllReads(lines, rest, parse);
    hide *;
  }

  /** The reader as the transport calls it. */
  class StreamState {
    const parse: Parser
    var buffer: string
    var index: nat
    var done: bool
    var failed: bool
    var started: bool
    var errorMessage: string
    var emitted: seq<Delta>

    constructor (parse: Parser)
      ensures View() == START && this.parse == parse
    {
      this.parse := parse;
      buffer, index, done, failed, started, errorMessage, emitted := "", 0, false, false, false, "", [];
    }

    function View(): Reader
      reads this
    {
      Reader(buffer, index, done, failed, started, errorMessage, emitted)
    }

    method WriteCallback(piece: string)
      modifies this
      ensures View() == Feed(old(View()), piece, parse)
    {
      buffer := buffer + piece;
      var pos := IndexOf(buffer, '\n');
      while pos.Some?
        invariant pos == IndexOf(buffer, '\n')
        invariant Drain(View(), parse) == Feed(old(View()), piece, parse)
        decreases |buffer|
      {
        var line := buffer[..pos.value];
        buffer := buffer[pos.value + 1..];
        if line != "" && line[|line| - 1] == '\r' {
          line := line[..|line| - 1];
        }
        HandleStreamLine(line);
        pos := IndexOf(buffer, '\n');
      }
    }

    method HandleStreamLine(line: string)
      modifies this`done, this`failed, this`started, this`errorMessage, this`index, this`emitted
      ensures View() == HandleLine(old(View()), line, parse)
    {
      if line == "" || !(PREFIX <= line) {
        return;
      }
      var payload := line[|PREFIX|..];
      while payload != "" && payload[0] == ' '
        invariant SkipSpaces(payload) == SkipSpaces(line[|PREFIX|..])
        decreases |payload|
      {
        payload := payload[1..];
      }
      if payload == "[DONE]" {
        done := true;
        return;
      }
      match parse(payload)
      case Broken(message) => failed, errorMessage := true, message;
      case Failure(message) => failed, errorMessage := true, message;
      case Ignored =>
      case Content(text) =>
        if text != "" {
          started := true;
          emitted := emitted + [Delta(index, text)];
          index := index + 1;
        }
    }
  }
}
