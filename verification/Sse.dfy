/** The Server-Sent Events text format: the line parser of the client, the printer of the server,
    and the proof that each undoes the other however the text is cut into chunks. */
module Sse {
  import opened Foundation

  datatype SseEvent = SseEvent(id: Option<string>, name: string, data: string)

  /** The four fields of a parser. */
  datatype Parser = Parser(buffer: string, lastId: Option<string>, name: string, data: seq<string>)

  const FRESH := Parser("", None, "message", [])

  // ----- text helpers -----

  /** Position of the first `c`, or the length when there is none. */
  function Find(text: string, c: char): (i: nat)
    ensures i <= |text|
    ensures c !in text[..i]
    ensures i < |text| ==> text[i] == c
    ensures i == |text| <==> c !in text
  {
    if text == "" then 0
    else if text[0] == c then 0
    else
      var i := Find(text[1..], c);
      assert text[..i + 1] == [text[0]] + text[1..][..i];
      assert text == [text[0]] + text[1..];
      i + 1
  }

  function StripCr(line: string): (s: string) {
    if line != "" && line[|line| - 1] == '\r' then line[..|line| - 1] else line
  }

  function Join(lines: seq<string>): (s: string) {
    if lines == [] then ""
    else if |lines| == 1 then lines[0]
    else lines[0] + "\n" + Join(lines[1..])
  }

  function Concat(chunks: seq<string>): (s: string) {
    if chunks == [] then "" else chunks[0] + Concat(chunks[1..])
  }

  // ----- what the parser does, as functions -----

  function Dispatch(p: Parser): (r: (Parser, seq<SseEvent>)) {
    if p.data == [] then (p.(name := "message"), [])
    else (p.(data := [], name := "message"), [SseEvent(p.lastId, p.name, Join(p.data))])
  }

  function Field(line: string): (f: string) { line[..Find(line, ':')] }

  /** Text after the first colon, without one leading space. */
  function FieldValue(line: string): (v: string) {
    var i := Find(line, ':');
    if i == |line| then ""
    else if i + 1 < |line| && line[i + 1] == ' ' then line[i + 2..]
    else line[i + 1..]
  }

  function SetField(p: Parser, field: string, value: string): (q: Parser) {
    if field == "data" then p.(data := p.data + [value])
    else if field == "event" then p.(name := if value == "" then "message" else value)
    else if field == "id" && '\0' !in value then p.(lastId := Some(value))
    else p
  }

  /** One complete line, terminator removed. */
  function Line(p: Parser, line: string): (r: (Parser, seq<SseEvent>)) {
    if line == "" then Dispatch(p)
    else if line[0] == ':' then (p, [])
    else (SetField(p, Field(line), FieldValue(line)), [])
  }

  /** Takes complete lines off the buffer until only an unterminated rest is left. */
  function Drain(p: Parser): (r: (Parser, seq<SseEvent>))
    ensures '\n' !in r.0.buffer
    decreases |p.buffer|
  {
    var i := Find(p.buffer, '\n');
    if i == |p.buffer| then (p, [])
    else
      var (q, events) := Line(p.(buffer := p.buffer[i + 1..]), StripCr(p.buffer[..i]));
      LineKeepsBuffer(p.(buffer := p.buffer[i + 1..]), StripCr(p.buffer[..i]));
      var (r, more) := Drain(q);
      (r, events + more)
  }

  lemma DrainEnds(p: Parser)
    requires '\n' !in p.buffer
    ensures Drain(p) == (p, [])
  {}

  lemma DrainTakesLine(p: Parser)
    requires '\n' in p.buffer
    ensures var i := Find(p.buffer, '\n');
      var (q, events) := Line(p.(buffer := p.buffer[i + 1..]), StripCr(p.buffer[..i]));
      Drain(p).0 == Drain(q).0 && Drain(p).1 == events + Drain(q).1
  {
    hide Line, Find, StripCr;
  }

  lemma LineKeepsBuffer(p: Parser, line: string)
    ensures Line(p, line).0.buffer == p.buffer
  {}

  function Fed(p: Parser, chunk: string): (r: (Parser, seq<SseEvent>))
    ensures '\n' !in r.0.buffer
  {
    Drain(p.(buffer := p.buffer + chunk))
  }

  function Flushed(p: Parser): (r: (Parser, seq<SseEvent>)) {
    var (q, first) := if p.buffer == "" then (p, []) else Line(p.(buffer := ""), StripCr(p.buffer));
    var (r, last) := Dispatch(q);
    (r, first + last)
  }

  /** Feeding chunk after chunk. */
  function FedAll(p: Parser, chunks: seq<string>): (r: (Parser, seq<SseEvent>))
    decreases |chunks|
  {
    if chunks == [] then (p, [])
    else
      var (q, events) := Fed(p, chunks[0]);
      var (r, more) := FedAll(q, chunks[1..]);
      (r, events + more)
  }

  // ----- chunk boundaries do not matter -----

  lemma {:induction false} FindAt(text: string, i: nat, c: char)
    requires i < |text| && text[i] == c && c !in text[..i]
    ensures Find(text, c) == i
    decreases i
  {
    if i > 0 {
      assert text[0] == text[..i][0];
      assert text[1..][..i - 1] == text[..i][1..];
      FindAt(text[1..], i - 1, c);
    }
  }

  lemma FindInPrefix(a: string, b: string, c: char)
    requires c in a
    ensures Find(a + b, c) == Find(a, c)
  {
    var i := Find(a, c);
    assert (a + b)[..i] == a[..i];
    FindAt(a + b, i, c);
  }

  lemma Associates<T>(a: seq<T>, b: seq<T>, c: seq<T>)
    ensures (a + b) + c == a + (b + c)
    ensures a + [] == a && [] + a == a
  {}

  /** Draining, then adding text and draining again, is draining everything at once. */
  lemma {:induction false} DrainAppend(p: Parser, more: string)
    ensures var (q, events) := Drain(p);
      var (r, rest) := Drain(q.(buffer := q.buffer + more));
      Drain(p.(buffer := p.buffer + more)) == (r, events + rest)
    decreases |p.buffer|
  {
    if '\n' in p.buffer {
      DrainTakesLine(p);
      var next, first := AppendLine(p, more);
      DrainAppend(next, more);
      hide *;
      var (q, events) := Drain(next);
      var rest := Drain(q.(buffer := q.buffer + more)).1;
      Associates(first, events, rest);
    } else {
      DrainEnds(p);
      hide *;
      Associates(Drain(p.(buffer := p.buffer + more)).1, [], []);
    }
  }

  /** The first line comes off the same way whether or not more text follows. */
  lemma AppendLine(p: Parser, more: string) returns (next: Parser, first: seq<SseEvent>)
    requires '\n' in p.buffer
    ensures |next.buffer| < |p.buffer|
    ensures Drain(p).0 == Drain(next).0 && Drain(p).1 == first + Drain(next).1
    ensures var q, r := p.(buffer := p.buffer + more), next.(buffer := next.buffer + more);
      Drain(q).0 == Drain(r).0 && Drain(q).1 == first + Drain(r).1
  {
    var i := Find(p.buffer, '\n');
    FindInPrefix(p.buffer, more, '\n');
    assert (p.buffer + more)[i + 1..] == p.buffer[i + 1..] + more;
    assert (p.buffer + more)[..i] == p.buffer[..i];
    var line, now := StripCr(p.buffer[..i]), p.(buffer := p.buffer[i + 1..]);
    LineKeepsBuffer(now, line);
    LineIgnoresBuffer(now, now.buffer + more, line);
    DrainTakesLine(p);
    DrainTakesLine(p.(buffer := p.buffer + more));
    next, first := Line(now, line).0, Line(now, line).1;
    hide Drain, Line, Find, StripCr;
  }

  lemma LineIgnoresBuffer(p: Parser, other: string, line: string)
    ensures Line(p.(buffer := other), line) == (Line(p, line).0.(buffer := other), Line(p, line).1)
  {}

  /** The chunk law: from every parser state, feeding `a` and then `b` is feeding `a + b`. */
  lemma FeedSplit(p: Parser, a: string, b: string)
    ensures var (q, first) := Fed(p, a);
      var (r, second) := Fed(q, b);
      Fed(p, a + b) == (r, first + second)
  {
    FedIs(p, a);
    FedIs(Fed(p, a).0, b);
    FedIs(p, a + b);
    hide *;
    assert p.buffer + (a + b) == (p.buffer + a) + b;
    DrainAppend(p.(buffer := p.buffer + a), b);
  }

  lemma FedIs(p: Parser, chunk: string)
    ensures Fed(p, chunk) == Drain(p.(buffer := p.buffer + chunk))
  {
    hide Drain;
  }

  /** Any cutting of a text gives the events of the whole text. */
  lemma {:induction false} ChunksDoNotMatter(p: Parser, chunks: seq<string>)
    requires '\n' !in p.buffer
    ensures FedAll(p, chunks) == Fed(p, Concat(chunks))
    decreases |chunks|
  {
    if chunks == [] {
      assert p.buffer + "" == p.buffer;
    } else {
      ChunksDoNotMatter(Fed(p, chunks[0]).0, chunks[1..]);
      FeedSplit(p, chunks[0], Concat(chunks[1..]));
    }
  }

  // ----- decimal numbers -----

  predicate IsDigit(c: char) { '0' <= c <= '9' }

  function Digit(d: nat): (c: char)
    requires d < 10
    ensures IsDigit(c) && (c - '0') as nat == d
  {
    '0' + d as char
  }

  /** `str(n)` */
  function Decimal(n: nat): (s: string)
    ensures s != "" && forall c :: c in s ==> IsDigit(c)
  {
    if n < 10 then [Digit(n)] else Decimal(n / 10) + [Digit(n % 10)]
  }

  function DigitValue(c: char): (d: nat) {
    if IsDigit(c) then (c - '0') as nat else 0
  }

  /** `int(text)` for the plain decimal texts the client sends. */
  function ParseDecimal(text: string): (n: Option<nat>) {
    if text == "" || exists c :: c in text && !IsDigit(c) then None
    else Some(Digits(text))
  }

  function Digits(text: string): (n: nat) {
    if text == "" then 0 else 10 * Digits(text[..|text| - 1]) + DigitValue(text[|text| - 1])
  }

  lemma {:induction false} DigitsOfDecimal(n: nat)
    ensures Digits(Decimal(n)) == n
    decreases n
  {
    if n < 10 {
      assert Decimal(n)[..0] == "";
    } else {
      DigitsOfDecimal(n / 10);
      var s := Decimal(n / 10) + [Digit(n % 10)];
      assert s[..|s| - 1] == Decimal(n / 10);
    }
  }

  /** The cursor header survives the trip: `int(str(n)) == n`. */
  lemma CursorRoundTrip(n: nat)
    ensures ParseDecimal(Decimal(n)) == Some(n)
  {
    DigitsOfDecimal(n);
  }

  // ----- the printer -----

  /** One stored event as the server prints it; `data` is its JSON text. */
  datatype Entry = Entry(sequence: nat, kind: string, data: string)

  datatype Item = Event(entry: Entry) | KeepAlive

  function Frame(e: Entry): (s: string) {
    "id: " + Decimal(e.sequence) + "\nevent: " + e.kind + "\ndata: " + e.data + "\n\n"
  }

  function Print(item: Item): (s: string) {
    match item case Event(e) => Frame(e) case KeepAlive => ": keep-alive\n\n"
  }

  function PrintAll(items: seq<Item>): (s: string) {
    if items == [] then "" else Print(items[0]) + PrintAll(items[1..])
  }

  function ParsedOf(e: Entry): (event: SseEvent) {
    SseEvent(Some(Decimal(e.sequence)), e.kind, e.data)
  }

  function EntriesOf(items: seq<Item>): (entries: seq<Entry>) {
    if items == [] then []
    else (if items[0].Event? then [items[0].entry] else []) + EntriesOf(items[1..])
  }

  function ParsedAll(entries: seq<Entry>): (events: seq<SseEvent>) {
    seq(|entries|, i requires 0 <= i < |entries| => ParsedOf(entries[i]))
  }

  predicate EndsCr(text: string) { text != "" && text[|text| - 1] == '\r' }

  /** What an entry must be for its frame to be read back as it was. */
  predicate Printable(e: Entry) {
    e.kind != "" && '\n' !in e.kind && '\n' !in e.data && !EndsCr(e.kind) && !EndsCr(e.data)
  }

  predicate AllPrintable(items: seq<Item>) {
    forall i :: 0 <= i < |items| && items[i].Event? ==> Printable(items[i].entry)
  }

  /** Between frames: nothing buffered, no pending field. */
  predicate AtRest(p: Parser) { p.buffer == "" && p.name == "message" && p.data == [] }

  /** Draining one terminated line. */
  lemma DrainLine(p: Parser, line: string, rest: string)
    requires '\n' !in line && p.buffer == line + "\n" + rest
    ensures var (q, events) := Line(p.(buffer := rest), StripCr(line));
      var (r, more) := Drain(q);
      Drain(p) == (r, events + more)
  {
    assert p.buffer[..|line|] == line;
    FindAt(p.buffer, |line|, '\n');
    var i := |line|;
    assert p.buffer[..i] == line && p.buffer[i + 1..] == rest;
  }

  lemma FieldOf(name: string, value: string)
    requires ':' !in name && name != ""
    ensures var line := name + ": " + value;
      Field(line) == name && FieldValue(line) == value && line != "" && line[0] != ':'
  {
    var line := name + ": " + value;
    assert line[..|name|] == name;
    FindAt(line, |name|, ':');
    var i := |name|;
    assert line[..i] == name && line[i + 1] == ' ' && line[i + 2..] == value;
  }

  lemma StripCrOf(prefix: string, value: string)
    requires prefix != "" && prefix[|prefix| - 1] != '\r'
    ensures StripCr(prefix + value) == prefix + StripCr(value)
  {
    if value == "" { assert prefix + value == prefix; }
    else { assert (prefix + value)[|prefix + value| - 1] == value[|value| - 1]; }
  }

  /** A line that yields no event only changes the state. */
  lemma DrainQuiet(p: Parser, line: string, rest: string, q: Parser)
    requires '\n' !in line && p.buffer == line + "\n" + rest
    requires Line(p.(buffer := rest), StripCr(line)) == (q, [])
    ensures Drain(p) == Drain(q)
  {
    hide *;
    DrainLine(p, line, rest);
    assert [] + Drain(q).1 == Drain(q).1;
  }

  /** One field line, as the printer writes it. */
  lemma DrainField(p: Parser, name: string, value: string, rest: string)
    requires ':' !in name && '\n' !in name && name != "" && '\n' !in value
    requires p.buffer == name + ": " + value + "\n" + rest
    ensures Drain(p) == Drain(SetField(p.(buffer := rest), name, StripCr(value)))
  {
    StripCrOf(name + ": ", value);
    FieldOf(name, StripCr(value));
    hide Drain, Field, FieldValue, StripCr, Find;
    DrainQuiet(p, name + ": " + value, rest, SetField(p.(buffer := rest), name, StripCr(value)));
  }

  lemma DrainBlank(p: Parser, rest: string)
    requires p.buffer == "\n" + rest
    ensures var (q, events) := Dispatch(p.(buffer := rest));
      var (r, more) := Drain(q);
      Drain(p) == (r, events + more)
  {
    assert p.buffer == "" + "\n" + rest;
    DrainLine(p, "", rest);
  }

  /** What one frame of single-line fields parses to. */
  lemma FrameParsed(p: Parser, e: Entry, rest: string)
    requires AtRest(p) && '\n' !in e.kind && '\n' !in e.data
    ensures var (r, more) := Drain(p.(buffer := rest, lastId := Some(Decimal(e.sequence))));
      Drain(p.(buffer := Frame(e) + rest)) == (r, [ReadAs(e)] + more)
  {
    var id := Decimal(e.sequence);
    var t3 := "\n" + rest;
    var t2 := "data" + ": " + e.data + "\n" + t3;
    var t1 := "event" + ": " + e.kind + "\n" + t2;
    FrameText(e, rest);
    DigitsAreClean(id);
    FieldsSet(p, id, e, t3);
    QueuedEvent(p, id, e, rest);
    hide *;
    ThreeFields(p.(buffer := Frame(e) + rest), id, e.kind, e.data, t1, t2, t3);
    var q := p.(buffer := t3, lastId := Some(id), name := ReadAs(e).name, data := [ReadAs(e).data]);
    BlankDispatches(q, rest, ReadAs(e), p.(buffer := rest, lastId := Some(id)));
  }

  /** What the parser makes of an entry with single-line fields. */
  function ReadAs(e: Entry): (event: SseEvent) {
    SseEvent(Some(Decimal(e.sequence)), if StripCr(e.kind) == "" then "message" else StripCr(e.kind), StripCr(e.data))
  }

  lemma ThreeFields(p: Parser, id: string, kind: string, data: string, t1: string, t2: string, t3: string)
    requires '\n' !in id && '\n' !in kind && '\n' !in data
    requires p.buffer == "id" + ": " + id + "\n" + t1
    requires t1 == "event" + ": " + kind + "\n" + t2
    requires t2 == "data" + ": " + data + "\n" + t3
    ensures Drain(p) == Drain(Filled(p.(buffer := t3), StripCr(id), StripCr(kind), StripCr(data)))
  {
    hide Drain, StripCr;
    DrainField(p, "id", id, t1);
    var p1 := SetField(p.(buffer := t1), "id", StripCr(id));
    DrainField(p1, "event", kind, t2);
    var p2 := SetField(p1.(buffer := t2), "event", StripCr(kind));
    DrainField(p2, "data", data, t3);
  }

  function Filled(p: Parser, id: string, kind: string, data: string): (q: Parser) {
    SetField(SetField(SetField(p, "id", id), "event", kind), "data", data)
  }

  lemma FieldsSet(p: Parser, id: string, e: Entry, t3: string)
    requires AtRest(p) && id == Decimal(e.sequence) && '\0' !in id && StripCr(id) == id
    ensures Filled(p.(buffer := t3), StripCr(id), StripCr(e.kind), StripCr(e.data))
         == p.(buffer := t3, lastId := Some(id), name := ReadAs(e).name, data := [ReadAs(e).data])
  {
    assert [] + [StripCr(e.data)] == [StripCr(e.data)];
    hide StripCr, Decimal;
  }

  lemma BlankDispatches(p: Parser, rest: string, event: SseEvent, q: Parser)
    requires p.buffer == "\n" + rest && Dispatch(p.(buffer := rest)) == (q, [event])
    ensures var (r, more) := Drain(q); Drain(p) == (r, [event] + more)
  {
    DrainBlank(p, rest);
  }

  lemma QueuedEvent(p: Parser, id: string, e: Entry, rest: string)
    requires AtRest(p) && id == Decimal(e.sequence)
    ensures Dispatch(p.(buffer := rest, lastId := Some(id), name := ReadAs(e).name, data := [ReadAs(e).data]))
         == (p.(buffer := rest, lastId := Some(id)), [ReadAs(e)])
  {
    hide StripCr, Decimal;
  }

  lemma FrameText(e: Entry, rest: string)
    ensures Frame(e) + rest
         == "id" + ": " + Decimal(e.sequence) + "\n"
            + ("event" + ": " + e.kind + "\n" + ("data" + ": " + e.data + "\n" + ("\n" + rest)))
  {}

  lemma DigitsAreClean(s: string)
    requires forall c :: c in s ==> IsDigit(c)
    ensures '\n' !in s && '\0' !in s && StripCr(s) == s
  {
    if s != "" { assert s[|s| - 1] in s; }
  }

  /** A frame is read back exactly when its type is not empty and neither field ends in a carriage
      return; a keep-alive comment is read as nothing. */
  lemma FrameReadsBack(p: Parser, e: Entry)
    requires AtRest(p) && '\n' !in e.kind && '\n' !in e.data
    ensures Fed(p, Frame(e)).1 == [ParsedOf(e)] <==> Printable(e)
  {
    FrameParsed(p, e, "");
    FrameFed(p, e);
    DrainNothing(p.(buffer := "", lastId := Some(Decimal(e.sequence))));
    ReadAsItself(e);
    hide *;
    assert [ReadAs(e)] + [] == [ReadAs(e)];
    assert [ReadAs(e)][0] == ReadAs(e) && [ParsedOf(e)][0] == ParsedOf(e);
  }

  lemma FrameFed(p: Parser, e: Entry)
    requires AtRest(p)
    ensures Fed(p, Frame(e)) == Drain(p.(buffer := Frame(e) + ""))
  {
    hide Drain, Frame;
    assert p.buffer + Frame(e) == Frame(e) + "";
  }

  lemma ReadAsItself(e: Entry)
    requires '\n' !in e.kind && '\n' !in e.data
    ensures ReadAs(e) == ParsedOf(e) <==> Printable(e)
  {
    StripCrSame(e.kind);
    StripCrSame(e.data);
    hide StripCr, EndsCr, Decimal;
  }

  lemma DrainNothing(p: Parser)
    requires p.buffer == ""
    ensures Drain(p) == (p, [])
  {}

  lemma StripCrSame(text: string)
    ensures StripCr(text) == text <==> !EndsCr(text)
    ensures EndsCr(text) ==> text != "message"
  {
    assert "message"[|"message"| - 1] == 'e';
  }

  lemma KeepAliveParsed(p: Parser, rest: string)
    requires AtRest(p)
    ensures Drain(p.(buffer := ": keep-alive\n\n" + rest)) == Drain(p.(buffer := rest))
  {
    var t, line := "\n" + rest, ": keep-alive";
    assert StripCr(line) == line && StripCr("") == "" && '\n' !in line;
    assert ": keep-alive\n\n" + rest == line + "\n" + t;
    assert t == "" + "\n" + rest;
    assert Line(p.(buffer := t), line) == (p.(buffer := t), []);
    assert Line(p.(buffer := rest), "") == (p.(buffer := rest), []);
    hide *;
    DrainQuiet(p.(buffer := ": keep-alive\n\n" + rest), line, t, p.(buffer := t));
    DrainQuiet(p.(buffer := t), "", rest, p.(buffer := rest));
  }

  /** The parser undoes the printer: all printed events come back, in order, unchanged, with the
      comments gone, and the parser is again at rest. */
  lemma {:induction false} PrintedReadsBack(p: Parser, items: seq<Item>)
    requires AtRest(p) && AllPrintable(items)
    ensures Fed(p, PrintAll(items)).1 == ParsedAll(EntriesOf(items))
    ensures AtRest(Fed(p, PrintAll(items)).0)
    decreases |items|
  {
    FedAtRest(p, PrintAll(items));
    if items == [] {
      DrainNothing(p);
    } else {
      var rest := PrintAll(items[1..]);
      assert AllPrintable(items[1..]);
      if items[0].Event? {
        var e := items[0].entry;
        var q := p.(lastId := Some(Decimal(e.sequence)));
        assert Printable(e);
        PrintedReadsBack(q, items[1..]);
        FedAtRest(q, rest);
        PrintableParsed(p, e, rest);
        ParsedOneMore(items);
        assert PrintAll(items) == Frame(e) + rest;
        hide *;
      } else {
        PrintedReadsBack(p, items[1..]);
        FedAtRest(p, rest);
        KeepAliveParsed(p, rest);
        assert PrintAll(items) == ": keep-alive\n\n" + rest;
        ParsedOneMore(items);
        hide *;
      }
    }
  }

  lemma FedAtRest(p: Parser, text: string)
    requires AtRest(p)
    ensures Fed(p, text) == Drain(p.(buffer := text))
  {
    hide Drain;
    assert p.buffer + text == text;
  }

  lemma ParsedCons(e: Entry, entries: seq<Entry>)
    ensures ParsedAll([e] + entries) == [ParsedOf(e)] + ParsedAll(entries)
  {
    hide ParsedOf;
  }

  lemma ParsedOneMore(items: seq<Item>)
    requires items != []
    ensures items[0].Event? ==>
      ParsedAll(EntriesOf(items)) == [ParsedOf(items[0].entry)] + ParsedAll(EntriesOf(items[1..]))
    ensures items[0].KeepAlive? ==> ParsedAll(EntriesOf(items)) == ParsedAll(EntriesOf(items[1..]))
  {
    if items[0].Event? {
      ParsedCons(items[0].entry, EntriesOf(items[1..]));
    } else {
      assert EntriesOf(items) == EntriesOf(items[1..]);
    }
    hide ParsedOf, ParsedAll;
  }

  lemma PrintableParsed(p: Parser, e: Entry, rest: string)
    requires AtRest(p) && Printable(e)
    ensures var (r, more) := Drain(p.(buffer := rest, lastId := Some(Decimal(e.sequence))));
      Drain(p.(buffer := Frame(e) + rest)) == (r, [ParsedOf(e)] + more)
  {
    FrameParsed(p, e, rest);
    ReadAsItself(e);
    hide Drain, Frame, Decimal, ReadAs, ParsedOf;
  }

  /** The round trip over any chunking, including the flush at the end. */
  lemma StreamRoundTrip(items: seq<Item>, chunks: seq<string>)
    requires AllPrintable(items) && Concat(chunks) == PrintAll(items)
    ensures FedAll(FRESH, chunks).1 == ParsedAll(EntriesOf(items))
    ensures Flushed(FedAll(FRESH, chunks).0).1 == []
  {
    ChunksDoNotMatter(FRESH, chunks);
    PrintedReadsBack(FRESH, items);
  }

  /** A text cut short gives the first of the events, never others. */
  lemma CutTextGivesPrefix(p: Parser, whole: string, received: string)
    requires received <= whole
    ensures Fed(p, received).1 <= Fed(p, whole).1
  {
    FeedSplit(p, received, whole[|received|..]);
    assert received + whole[|received|..] == whole;
  }

  // ----- the parser object -----

  class SseParser {
    var buffer: string
    var lastId: Option<string>
    var name: string
    var data: seq<string>

    constructor ()
      ensures Model() == FRESH
    {
      buffer, lastId, name, data := "", None, "message", [];
    }

    ghost function Model(): (p: Parser)
      reads this
    {
      Parser(buffer, lastId, name, data)
    }

    method DispatchEvent() returns (events: seq<SseEvent>)
      modifies this
      ensures (Model(), events) == Dispatch(old(Model()))
    {
      if data == [] {
        name := "message";
        return [];
      }
      events := [SseEvent(lastId, name, Join(data))];
      data := [];
      name := "message";
    }

    method TakeLine(line: string) returns (events: seq<SseEvent>)
      modifies this
      ensures (Model(), events) == Line(old(Model()), line)
    {
      events := [];
      if line == "" {
        events := DispatchEvent();
        return;
      }
      if line[0] == ':' { return; }
      var field, value := Field(line), FieldValue(line);
      if field == "data" {
        data := data + [value];
      } else if field == "event" {
        name := if value == "" then "message" else value;
      } else if field == "id" && '\0' !in value {
        lastId := Some(value);
      }
    }

    /** Splits the first line off the buffer. */
    method TakeFirstLine() returns (events: seq<SseEvent>)
      requires '\n' in buffer
      modifies this
      ensures |buffer| < |old(buffer)|
      ensures Drain(Model()).0 == Drain(old(Model())).0
      ensures events + Drain(Model()).1 == Drain(old(Model())).1
    {
      DrainTakesLine(Model());
      hide Drain, Line, StripCr;
      var i := Find(buffer, '\n');
      var line := buffer[..i];
      buffer := buffer[i + 1..];
      LineKeepsBuffer(Model(), StripCr(line));
      events := TakeLine(StripCr(line));
    }

    /** Appends a chunk and takes every line it completes. */
    method Feed(chunk: string) returns (events: seq<SseEvent>)
      modifies this
      ensures (Model(), events) == Fed(old(Model()), chunk)
    {
      ghost var whole := Drain(Model().(buffer := buffer + chunk));
      buffer := buffer + chunk;
      events := [];
      hide Drain, Line;
      while '\n' in buffer
        invariant whole.0 == Drain(Model()).0 && whole.1 == events + Drain(Model()).1
        decreases |buffer|
      {
        var more := TakeFirstLine();
        Associates(events, more, Drain(Model()).1);
        events := events + more;
      }
      DrainEnds(Model());
      Associates(events, [], []);
    }

    /** Flushes what an ended stream left behind. */
    method Finish() returns (events: seq<SseEvent>)
      modifies this
      ensures (Model(), events) == Flushed(old(Model()))
    {
      events := [];
      if buffer != "" {
        var line := StripCr(buffer);
        buffer := "";
        events := TakeLine(line);
      }
      var last := DispatchEvent();
      events := events + last;
    }
  }
}
