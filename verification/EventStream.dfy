/** The resumable event stream: a server that pages a growing log, a network that cuts connections
    anywhere, and a client that reconnects with a cursor. Every event arrives once and in order. */
module EventStream {
  import opened Foundation
  import opened Sse

  // ----- the server -----

  type Log = seq<Entry>

  const PAGE_SIZE: nat := 500

  /** `sequence` is the primary order of the event table. */
  predicate Increasing(log: Log) {
    forall i, j :: 0 <= i < j < |log| ==> log[i].sequence < log[j].sequence
  }

  function PastCursor(log: Log, cursor: nat): (found: Log) {
    if log == [] then []
    else (if log[0].sequence > cursor then [log[0]] else []) + PastCursor(log[1..], cursor)
  }

  /** One query sees the first `visible` events of the run and whether the run has ended. */
  datatype Poll = Poll(visible: nat, terminal: bool)

  /** `events_after`: the events past the cursor, at most one page. */
  function Page(log: Log, visible: nat, cursor: nat): (page: Log)
    requires visible <= |log|
  {
    var found := PastCursor(log[..visible], cursor);
    if |found| > PAGE_SIZE then found[..PAGE_SIZE] else found
  }

  /** What one connection prints, and the poll at which the server ended it. */
  datatype Served = Served(items: seq<Item>, ended: Option<Poll>)

  predicate Polled(log: Log, polls: seq<Poll>) {
    forall i :: 0 <= i < |polls| ==> polls[i].visible <= |log|
  }

  function Events(page: Log): (items: seq<Item>) {
    seq(|page|, i requires 0 <= i < |page| => Event(page[i]))
  }

  /** The `stream` generator over the polls that take place before the connection is gone. */
  function Serve(log: Log, cursor: nat, polls: seq<Poll>): (r: Served)
    requires Polled(log, polls)
    decreases |polls|
  {
    if polls == [] then Served([], None)
    else
      var page := Page(log, polls[0].visible, cursor);
      if page == [] && polls[0].terminal then Served([], Some(polls[0]))
      else
        var rest := Serve(log, if page == [] then cursor else page[|page| - 1].sequence, polls[1..]);
        Served((if page == [] then [KeepAlive] else Events(page)) + rest.items, rest.ended)
  }

  lemma {:induction false} PrintAppend(a: seq<Item>, b: seq<Item>)
    ensures PrintAll(a + b) == PrintAll(a) + PrintAll(b)
    decreases |a|
  {
    hide Print;
    if a == [] {
      assert a + b == b;
    } else {
      PrintAppend(a[1..], b);
      assert (a + b)[1..] == a[1..] + b;
      Associates(Print(a[0]), PrintAll(a[1..]), PrintAll(b));
    }
  }

  /** The generator as it runs: the page loop inside the poll loop, the cursor moving with each
      printed event. */
  method StreamEvents(log: Log, lastEventId: nat, polls: seq<Poll>) returns (text: string, ended: bool)
    requires Polled(log, polls)
    ensures text == PrintAll(Serve(log, lastEventId, polls).items)
    ensures ended <==> Serve(log, lastEventId, polls).ended.Some?
  {
    hide PrintAll, Page, Frame, Serve;
    var cursor := lastEventId;
    ghost var whole, printed := Serve(log, lastEventId, polls), [];
    text := "";
    PrintNothing();
    for p := 0 to |polls|
      invariant text == PrintAll(printed)
      invariant whole.items == printed + Serve(log, cursor, polls[p..]).items
      invariant whole.ended == Serve(log, cursor, polls[p..]).ended
    {
      var page := Page(log, polls[p].visible, cursor);
      ServeSteps(log, cursor, polls[p..]);
      assert polls[p..][1..] == polls[p + 1..];
      ghost var from, sent := printed, cursor;
      for e := 0 to |page|
        invariant e > 0 ==> cursor == page[e - 1].sequence
        invariant e == 0 ==> cursor == sent
        invariant printed == from + Events(page[..e])
        invariant text == PrintAll(printed)
      {
        cursor := page[e].sequence;
        text := text + Frame(page[e]);
        PrintOneMore(printed, Event(page[e]));
        EventsOneMore(page, e);
        Associates(from, Events(page[..e]), [Event(page[e])]);
        printed := printed + [Event(page[e])];
      }
      assert page[..|page|] == page;
      if polls[p].terminal && page == [] {
        ServeStops(log, cursor, polls[p..]);
        assert printed + [] == printed;
        return text, true;
      }
      if page == [] {
        text := text + ": keep-alive\n\n";
        PrintOneMore(printed, KeepAlive);
        printed := printed + [KeepAlive];
      }
      Associates(from, if page == [] then [KeepAlive] else Events(page), Serve(log, cursor, polls[p + 1..]).items);
    }
    ServeStops(log, cursor, []);
    assert printed + [] == printed;
    assert polls[|polls|..] == [];
    ended := false;
  }

  lemma EventsOneMore(page: Log, e: nat)
    requires e < |page|
    ensures Events(page[..e + 1]) == Events(page[..e]) + [Event(page[e])]
  {}

  lemma ServeStops(log: Log, cursor: nat, polls: seq<Poll>)
    requires Polled(log, polls)
    requires polls == [] || (polls[0].terminal && Page(log, polls[0].visible, cursor) == [])
    ensures Serve(log, cursor, polls) == Served([], if polls == [] then None else Some(polls[0]))
  {
    hide Page;
  }

  lemma PrintNothing()
    ensures PrintAll([]) == ""
  {}

  lemma PrintOneMore(items: seq<Item>, item: Item)
    ensures PrintAll(items + [item]) == PrintAll(items) + Print(item)
  {
    PrintAppend(items, [item]);
    hide Print;
    assert PrintAll([item]) == Print(item) + PrintAll([item][1..]);
  }

  // ----- pages are slices of the log -----

  /** How many events lie at or before the cursor. */
  function Position(log: Log, cursor: nat): (n: nat)
    ensures n <= |log|
    ensures Increasing(log) ==>
      (forall i :: 0 <= i < n ==> log[i].sequence <= cursor) && (forall i :: n <= i < |log| ==> log[i].sequence > cursor)
  {
    if log == [] || log[0].sequence > cursor then 0
    else
      assert Increasing(log) ==> Increasing(log[1..]);
      1 + Position(log[1..], cursor)
  }

  lemma PositionIs(log: Log, cursor: nat, n: nat)
    requires Increasing(log) && n <= |log|
    requires n > 0 ==> log[n - 1].sequence <= cursor
    requires n < |log| ==> log[n].sequence > cursor
    ensures Position(log, cursor) == n
  {}

  lemma {:induction false} PastIsSuffix(log: Log, cursor: nat)
    requires Increasing(log)
    ensures PastCursor(log, cursor) == log[Position(log, cursor)..]
    decreases |log|
  {
    if log != [] {
      assert Increasing(log[1..]);
      PastIsSuffix(log[1..], cursor);
      if log[0].sequence > cursor {
        assert Position(log[1..], cursor) == 0 by { if |log| > 1 { assert log[1].sequence > log[0].sequence; } }
        assert log == [log[0]] + log[1..];
      }
    }
  }

  /** A page is the run of events right after the cursor, cut at the page size. */
  lemma PageIsSlice(log: Log, visible: nat, cursor: nat)
    requires Increasing(log) && visible <= |log|
    ensures var from := Position(log, cursor);
      var page := Page(log, visible, cursor);
      && from + |page| <= |log| && page == log[from..from + |page|]
      && |page| == if visible <= from then 0 else if visible - from <= 500 then visible - from else 500
  {
    var seen := log[..visible];
    assert Increasing(seen);
    PastIsSuffix(seen, cursor);
    var from, here := Position(log, cursor), Position(seen, cursor);
    PositionIs(seen, cursor, if from <= visible then from else visible);
    assert here == if from <= visible then from else visible;
  }

  /** What a connection prints is a slice of the log right after the cursor; a connection the
      server ended has printed everything its last poll saw. */
  lemma {:induction false} ServeIsSlice(log: Log, cursor: nat, polls: seq<Poll>) returns (upto: nat)
    requires Increasing(log) && Polled(log, polls)
    ensures Position(log, cursor) <= upto <= |log|
    ensures EntriesOf(Serve(log, cursor, polls).items) == log[Position(log, cursor)..upto]
    ensures Serve(log, cursor, polls).ended.Some? ==> Serve(log, cursor, polls).ended.value.visible <= upto
    decreases |polls|
  {
    upto := Position(log, cursor);
    if polls == [] {
      ServeStops(log, cursor, polls);
    } else {
      PageIsSlice(log, polls[0].visible, cursor);
      if Page(log, polls[0].visible, cursor) == [] && polls[0].terminal {
        ServeStops(log, cursor, polls);
      } else {
        upto := ServeOnwards(log, cursor, polls);
      }
    }
  }

  lemma {:induction false} ServeOnwards(log: Log, cursor: nat, polls: seq<Poll>) returns (upto: nat)
    requires Increasing(log) && Polled(log, polls) && polls != [] && polls[0].visible <= |log|
    requires Page(log, polls[0].visible, cursor) != [] || !polls[0].terminal
    ensures Position(log, cursor) <= upto <= |log|
    ensures EntriesOf(Serve(log, cursor, polls).items) == log[Position(log, cursor)..upto]
    ensures Serve(log, cursor, polls).ended.Some? ==> Serve(log, cursor, polls).ended.value.visible <= upto
    decreases |polls|, 0
  {
    hide *;
    var from, page := Position(log, cursor), Page(log, polls[0].visible, cursor);
    PageIsSlice(log, polls[0].visible, cursor);
    var next := AfterPage(log, polls[0].visible, cursor);
    PolledRest(log, polls);
    upto := ServeIsSlice(log, next, polls[1..]);
    ServeSteps(log, cursor, polls);
    var rest := Serve(log, next, polls[1..]);
    EntriesAppend(if page == [] then [KeepAlive] else Events(page), rest.items);
    EntriesOfPage(page);
    SlicesJoin(log, from, from + |page|, upto);
  }

  lemma PolledRest(log: Log, polls: seq<Poll>)
    requires Polled(log, polls) && polls != []
    ensures Polled(log, polls[1..]) && polls[0].visible <= |log|
  {}

  /** The cursor after a page stands right behind it. */
  lemma AfterPage(log: Log, visible: nat, cursor: nat) returns (next: nat)
    requires Increasing(log) && visible <= |log|
    ensures var page := Page(log, visible, cursor);
      && next == (if page == [] then cursor else page[|page| - 1].sequence)
      && Position(log, next) == Position(log, cursor) + |page|
  {
    var page := Page(log, visible, cursor);
    PageIsSlice(log, visible, cursor);
    hide Page, Position;
    next := if page == [] then cursor else page[|page| - 1].sequence;
    PositionIs(log, next, Position(log, cursor) + |page|);
  }

  lemma SlicesJoin<T>(s: seq<T>, i: nat, j: nat, k: nat)
    requires i <= j <= k <= |s|
    ensures s[i..j] + s[j..k] == s[i..k]
  {}

  lemma ServeSteps(log: Log, cursor: nat, polls: seq<Poll>)
    requires Polled(log, polls) && polls != []
    ensures var page := Page(log, polls[0].visible, cursor);
      page != [] || !polls[0].terminal ==>
        var rest := Serve(log, if page == [] then cursor else page[|page| - 1].sequence, polls[1..]);
        Serve(log, cursor, polls) == Served((if page == [] then [KeepAlive] else Events(page)) + rest.items, rest.ended)
  {
    hide Page, Events;
  }

  lemma {:induction false} EntriesAppend(a: seq<Item>, b: seq<Item>)
    ensures EntriesOf(a + b) == EntriesOf(a) + EntriesOf(b)
    decreases |a|
  {
    if a == [] {
      assert a + b == b;
    } else {
      EntriesAppend(a[1..], b);
      assert (a + b)[1..] == a[1..] + b;
    }
  }

  lemma {:induction false} EntriesOfPage(page: Log)
    ensures EntriesOf(Events(page)) == page
    ensures EntriesOf([KeepAlive]) == []
    decreases |page|
  {
    if page != [] {
      EntriesOfPage(page[1..]);
      assert Events(page)[1..] == Events(page[1..]);
      assert page == [page[0]] + page[1..];
    }
  }

  // ----- when the server ends a stream -----

  /** One more poll: it prints its page, or a keep-alive when there is nothing new, and ends the stream
      exactly when the run has ended and everything it sees was printed. */
  lemma {:induction false} OneMorePoll(log: Log, cursor: nat, polls: seq<Poll>, poll: Poll)
    requires Increasing(log) && Polled(log, polls) && poll.visible <= |log| && Serve(log, cursor, polls).ended.None?
    ensures Polled(log, polls + [poll])
    ensures var before, after := Serve(log, cursor, polls), Serve(log, cursor, polls + [poll]);
      var printed := Position(log, cursor) + |EntriesOf(before.items)|;
      && before.items <= after.items
      && (after.ended == if poll.terminal && poll.visible <= printed then Some(poll) else None)
      && EntriesOf(after.items[|before.items|..]) ==
           (if poll.visible <= printed then [] else log[printed..if poll.visible - printed <= 500 then poll.visible else printed + 500])
      && (after.ended.None? ==> |after.items| > |before.items|)
    decreases |polls|
  {
    hide *;
    PolledMore(log, polls, poll);
    if polls == [] {
      FirstPoll(log, cursor, poll);
    } else {
      PolledRest(log, polls);
      var page := Page(log, polls[0].visible, cursor);
      var next := AfterPage(log, polls[0].visible, cursor);
      NotEndedYet(log, cursor, polls);
      ServeSteps(log, cursor, polls);
      ServeSteps(log, cursor, polls + [poll]);
      assert (polls + [poll])[1..] == polls[1..] + [poll];
      OneMorePoll(log, next, polls[1..], poll);
      var first := if page == [] then [KeepAlive] else Events(page);
      var rest, rest' := Serve(log, next, polls[1..]), Serve(log, next, polls[1..] + [poll]);
      EntriesAppend(first, rest.items);
      EntriesOfPage(page);
      assert (first + rest'.items)[|first + rest.items|..] == rest'.items[|rest.items|..];
    }
  }

  lemma PolledMore(log: Log, polls: seq<Poll>, poll: Poll)
    requires Polled(log, polls) && poll.visible <= |log|
    ensures Polled(log, polls + [poll]) && Polled(log, [poll])
  {}

  lemma NotEndedYet(log: Log, cursor: nat, polls: seq<Poll>)
    requires Polled(log, polls) && polls != [] && Serve(log, cursor, polls).ended.None?
    ensures Page(log, polls[0].visible, cursor) != [] || !polls[0].terminal
  {
    hide Page;
  }

  lemma FirstPoll(log: Log, cursor: nat, poll: Poll)
    requires Increasing(log) && poll.visible <= |log|
    ensures Polled(log, [] + [poll]) && Polled(log, [])
    ensures var before, after := Serve(log, cursor, []), Serve(log, cursor, [] + [poll]);
      var printed := Position(log, cursor) + |EntriesOf(before.items)|;
      && before.items <= after.items
      && (after.ended == if poll.terminal && poll.visible <= printed then Some(poll) else None)
      && EntriesOf(after.items[|before.items|..]) ==
           (if poll.visible <= printed then [] else log[printed..if poll.visible - printed <= 500 then poll.visible else printed + 500])
      && (after.ended.None? ==> |after.items| > |before.items|)
  {
    assert [] + [poll] == [poll];
    var page := Page(log, poll.visible, cursor);
    PageIsSlice(log, poll.visible, cursor);
    ServeStops(log, cursor, []);
    EntriesOfPage(page);
    hide Page, Position;
    if page == [] && poll.terminal {
      ServeStops(log, cursor, [poll]);
    } else {
      ServeSteps(log, cursor, [poll]);
      assert [poll][1..] == [];
      ServeStops(log, if page == [] then cursor else page[|page| - 1].sequence, []);
      var first := if page == [] then [KeepAlive] else Events(page);
      assert first + [] == first && first[0..] == first;
    }
  }

  // ----- the client -----

  /** A decoded event object: its `sequence` field when that is an integer, and its text. */
  datatype Payload = Payload(sequence: Option<int>, body: string)

  datatype Ending = Closed | TimedOut | Dropped

  /** Why an answer is no stream: an error response, or another content type. */
  datatype Rejection = ErrorResponse | NotAnEventStream

  datatype StreamError =
    | NoStream(why: Rejection) | InvalidEvent | MissingSequence | StreamTimeout | StreamDisconnected

  /** What the network gives one connection attempt. */
  datatype Attempt = Rejected(why: Rejection) | Streamed(chunks: seq<string>, ending: Ending)

  datatype Outcome = Complete | Failed(error: StreamError) | StillStreaming

  datatype Taken = Taken(cursor: int, yielded: seq<Payload>, error: Option<StreamError>)

  /** The event loop of one connection. */
  function Take(decode: string -> Option<Payload>, cursor: int, events: seq<SseEvent>): (t: Taken)
    decreases |events|
  {
    if events == [] then Taken(cursor, [], None)
    else
      match decode(events[0].data)
      case None => Taken(cursor, [], Some(InvalidEvent))
      case Some(payload) =>
        if payload.sequence.None? then Taken(cursor, [], Some(MissingSequence))
        else if payload.sequence.value <= cursor then Take(decode, cursor, events[1..])
        else
          var rest := Take(decode, payload.sequence.value, events[1..]);
          rest.(yielded := [payload] + rest.yielded)
  }

  /** The loop over what `finish` flushes, which lets objects without a sequence pass. */
  function TakeLast(decode: string -> Option<Payload>, cursor: int, events: seq<SseEvent>): (t: Taken)
    decreases |events|
  {
    if events == [] then Taken(cursor, [], None)
    else
      match decode(events[0].data)
      case None => Taken(cursor, [], Some(InvalidEvent))
      case Some(payload) =>
        if payload.sequence.None? || payload.sequence.value <= cursor then TakeLast(decode, cursor, events[1..])
        else
          var rest := TakeLast(decode, payload.sequence.value, events[1..]);
          rest.(yielded := [payload] + rest.yielded)
  }

  /** Everything one attempt delivers before it ends. */
  function Received(decode: string -> Option<Payload>, cursor: int, chunks: seq<string>, ending: Ending): (t: Taken) {
    var (parser, events) := FedAll(FRESH, chunks);
    var taken := Take(decode, cursor, events);
    if taken.error.Some? || ending != Closed then taken
    else
      var last := TakeLast(decode, taken.cursor, Flushed(parser).1);
      last.(yielded := taken.yielded + last.yielded)
  }

  datatype ClientRun = ClientRun(yielded: seq<Payload>, outcome: Outcome, failures: nat, used: nat)

  function FailureOf(ending: Ending): (e: StreamError) {
    if ending == TimedOut then StreamTimeout else StreamDisconnected
  }

  /** `stream_run_events` over the attempts the network allows. */
  function Client(decode: string -> Option<Payload>, attempts: seq<Attempt>, cursor: int, failures: nat, limit: int)
    : (r: ClientRun)
    decreases |attempts|
  {
    if attempts == [] then ClientRun([], StillStreaming, failures, 0)
    else match attempts[0]
      case Rejected(why) => ClientRun([], Failed(NoStream(why)), failures, 1)
      case Streamed(chunks, ending) =>
        var taken := Received(decode, cursor, chunks, ending);
        if taken.error.Some? then ClientRun(taken.yielded, Failed(taken.error.value), failures, 1)
        else if ending == Closed then ClientRun(taken.yielded, Complete, failures, 1)
        else if failures + 1 > limit then ClientRun(taken.yielded, Failed(FailureOf(ending)), failures + 1, 1)
        else
          var rest := Client(decode, attempts[1..], taken.cursor, failures + 1, limit);
          rest.(yielded := taken.yielded + rest.yielded, used := rest.used + 1)
  }

  lemma {:induction false} TakeSplit(decode: string -> Option<Payload>, cursor: int, a: seq<SseEvent>, b: seq<SseEvent>)
    ensures var first := Take(decode, cursor, a);
      Take(decode, cursor, a + b) ==
        if first.error.Some? then first
        else var second := Take(decode, first.cursor, b); second.(yielded := first.yielded + second.yielded)
    decreases |a|
  {
    if a == [] {
      assert a + b == b;
    } else {
      assert (a + b)[1..] == a[1..] + b;
      var payload := decode(a[0].data);
      if payload.Some? && payload.value.sequence.Some? {
        var sequence := payload.value.sequence.value;
        TakeSplit(decode, if sequence <= cursor then cursor else sequence, a[1..], b);
      }
    }
  }

  /** An event the client can use: a JSON object with an integer sequence. */
  predicate Usable(decode: string -> Option<Payload>, event: SseEvent) {
    decode(event.data).Some? && decode(event.data).value.sequence.Some?
  }

  /** The first unusable event decides: it is no object, or it has no sequence. */
  lemma {:induction false} TakesExactly(decode: string -> Option<Payload>, cursor: int, events: seq<SseEvent>) returns (k: nat)
    ensures k <= |events| && forall i :: 0 <= i < k ==> Usable(decode, events[i])
    ensures var taken := Take(decode, cursor, events);
      && (k == |events| <==> taken.error.None?)
      && (k < |events| ==>
            !Usable(decode, events[k])
            && taken.error == Some(if decode(events[k].data).None? then InvalidEvent else MissingSequence))
    decreases |events|
  {
    k := 0;
    if events != [] && Usable(decode, events[0]) {
      var payload := decode(events[0].data).value;
      var rest := TakesExactly(decode, if payload.sequence.value <= cursor then cursor else payload.sequence.value, events[1..]);
      k := rest + 1;
      forall i | 0 < i < k ensures Usable(decode, events[i]) { assert events[i] == events[1..][i - 1]; }
    }
  }

  lemma {:induction false} TakeAscends(decode: string -> Option<Payload>, cursor: int, events: seq<SseEvent>)
    ensures Ascending(cursor, Take(decode, cursor, events).yielded, Take(decode, cursor, events).cursor)
    decreases |events|
  {
    if events != [] && Usable(decode, events[0]) {
      var payload := decode(events[0].data).value;
      TakeAscends(decode, if payload.sequence.value <= cursor then cursor else payload.sequence.value, events[1..]);
    }
  }

  /** Before the first unusable event, everything beyond the cursor and all earlier events is yielded. */
  lemma {:induction false} NewIsYielded(decode: string -> Option<Payload>, cursor: int, events: seq<SseEvent>, i: nat)
    requires i < |events| && New(decode, cursor, events, i) && forall j :: 0 <= j < i ==> Usable(decode, events[j])
    ensures decode(events[i].data).value in Take(decode, cursor, events).yielded
    decreases |events|
  {
    if i > 0 {
      var first := decode(events[0].data).value.sequence.value;
      NewLater(decode, cursor, events, i);
      forall j | 0 <= j < i - 1 ensures Usable(decode, events[1..][j]) { assert events[1..][j] == events[j + 1]; }
      NewIsYielded(decode, if first <= cursor then cursor else first, events[1..], i - 1);
    }
  }

  /** Beyond the cursor and beyond every earlier event. */
  predicate New(decode: string -> Option<Payload>, cursor: int, events: seq<SseEvent>, i: nat)
    requires i < |events|
  {
    && Usable(decode, events[i]) && decode(events[i].data).value.sequence.value > cursor
    && forall j :: 0 <= j < i && Usable(decode, events[j]) ==>
         decode(events[j].data).value.sequence.value < decode(events[i].data).value.sequence.value
  }

  lemma NewLater(decode: string -> Option<Payload>, cursor: int, events: seq<SseEvent>, i: nat)
    requires 0 < i < |events| && New(decode, cursor, events, i) && Usable(decode, events[0])
    ensures var first := decode(events[0].data).value.sequence.value;
      New(decode, if first <= cursor then cursor else first, events[1..], i - 1)
  {
    assert events[1..][i - 1] == events[i];
    forall j | 0 <= j < i - 1 ensures events[1..][j] == events[j + 1] {}
    hide Usable;
  }

  /** The sequences rise from beyond `from` and end at `upto`. */
  predicate Ascending(from: int, yielded: seq<Payload>, upto: int) {
    && (forall i :: 0 <= i < |yielded| ==> yielded[i].sequence.Some? && from < yielded[i].sequence.value <= upto)
    && (forall i, j :: 0 <= i < j < |yielded| ==> yielded[i].sequence.value < yielded[j].sequence.value)
    && upto == if yielded == [] then from else yielded[|yielded| - 1].sequence.value
  }

  method TakeEvents(decode: string -> Option<Payload>, from: int, events: seq<SseEvent>) returns (taken: Taken)
    ensures taken == Take(decode, from, events)
  {
    var cursor, yielded := from, [];
    for i := 0 to |events|
      invariant Take(decode, from, events)
             == var rest := Take(decode, cursor, events[i..]); rest.(yielded := yielded + rest.yielded)
    {
      assert events[i..][1..] == events[i + 1..];
      var payload := decode(events[i].data);
      if payload.None? { return Taken(cursor, yielded, Some(InvalidEvent)); }
      var sequence := payload.value.sequence;
      if sequence.None? { return Taken(cursor, yielded, Some(MissingSequence)); }
      if sequence.value > cursor {
        cursor := sequence.value;
        Associates(yielded, [payload.value], Take(decode, cursor, events[i + 1..]).yielded);
        yielded := yielded + [payload.value];
      }
    }
    Associates(yielded, [], []);
    taken := Taken(cursor, yielded, None);
  }

  method TakeFlushed(decode: string -> Option<Payload>, from: int, events: seq<SseEvent>) returns (taken: Taken)
    ensures taken == TakeLast(decode, from, events)
  {
    var cursor, yielded := from, [];
    for i := 0 to |events|
      invariant TakeLast(decode, from, events)
             == var rest := TakeLast(decode, cursor, events[i..]); rest.(yielded := yielded + rest.yielded)
    {
      assert events[i..][1..] == events[i + 1..];
      var payload := decode(events[i].data);
      if payload.None? { return Taken(cursor, yielded, Some(InvalidEvent)); }
      var sequence := payload.value.sequence;
      if sequence.Some? && sequence.value > cursor {
        cursor := sequence.value;
        Associates(yielded, [payload.value], TakeLast(decode, cursor, events[i + 1..]).yielded);
        yielded := yielded + [payload.value];
      }
    }
    Associates(yielded, [], []);
    taken := Taken(cursor, yielded, None);
  }

  /** The client as it runs: a fresh parser per connection, events taken as chunks arrive, the
      cursor and the failure count carried over reconnects. */
  method StreamRunEvents(decode: string -> Option<Payload>, attempts: seq<Attempt>, afterSequence: int, limit: int)
    returns (run: ClientRun)
    ensures run == Client(decode, attempts, if afterSequence < 0 then 0 else afterSequence, 0, limit)
  {
    var cursor := if afterSequence < 0 then 0 else afterSequence;
    var failures, yielded: seq<Payload> := 0, [];
    ghost var whole := Client(decode, attempts, cursor, 0, limit);
    hide Client, Received;
    for a := 0 to |attempts|
      invariant whole == Resumed(yielded, a, Client(decode, attempts[a..], cursor, failures, limit))
    {
      ClientSteps(decode, attempts[a..], cursor, failures, limit);
      assert attempts[a..][1..] == attempts[a + 1..];
      match attempts[a]
      case Rejected(why) =>
        Associates(yielded, [], []);
        return ClientRun(yielded, Failed(NoStream(why)), failures, a + 1);
      case Streamed(chunks, ending) =>
        var taken := ReadStream(decode, cursor, chunks, ending);
        ghost var before := yielded;
        yielded, cursor := yielded + taken.yielded, taken.cursor;
        if taken.error.Some? { return ClientRun(yielded, Failed(taken.error.value), failures, a + 1); }
        if ending == Closed { return ClientRun(yielded, Complete, failures, a + 1); }
        failures := failures + 1;
        if failures > limit { return ClientRun(yielded, Failed(FailureOf(ending)), failures, a + 1); }
        Associates(before, taken.yielded, Client(decode, attempts[a + 1..], cursor, failures, limit).yielded);
    }
    ClientStops(decode, cursor, failures, limit);
    assert attempts[|attempts|..] == [];
    Associates(yielded, [], []);
    run := ClientRun(yielded, StillStreaming, failures, |attempts|);
  }

  /** A run continued after `used` attempts that yielded `yielded`. */
  function Resumed(yielded: seq<Payload>, used: nat, rest: ClientRun): (r: ClientRun) {
    rest.(yielded := yielded + rest.yielded, used := used + rest.used)
  }

  lemma ClientStops(decode: string -> Option<Payload>, cursor: int, failures: nat, limit: int)
    ensures Client(decode, [], cursor, failures, limit) == ClientRun([], StillStreaming, failures, 0)
  {}

  lemma ClientSteps(decode: string -> Option<Payload>, attempts: seq<Attempt>, cursor: int, failures: nat, limit: int)
    requires attempts != []
    ensures Client(decode, attempts, cursor, failures, limit) ==
      match attempts[0]
      case Rejected(why) => ClientRun([], Failed(NoStream(why)), failures, 1)
      case Streamed(chunks, ending) =>
        var taken := Received(decode, cursor, chunks, ending);
        if taken.error.Some? then ClientRun(taken.yielded, Failed(taken.error.value), failures, 1)
        else if ending == Closed then ClientRun(taken.yielded, Complete, failures, 1)
        else if failures + 1 > limit then ClientRun(taken.yielded, Failed(FailureOf(ending)), failures + 1, 1)
        else Resumed(taken.yielded, 1, Client(decode, attempts[1..], taken.cursor, failures + 1, limit))
  {
    hide Received;
  }

  /** One connection: parse each chunk, take its events, and flush at a clean end. */
  method ReadStream(decode: string -> Option<Payload>, from: int, chunks: seq<string>, ending: Ending) returns (taken: Taken)
    ensures taken == Received(decode, from, chunks, ending)
  {
    var parser := new SseParser();
    var cursor, yielded: seq<Payload> := from, [];
    hide FedAll, Fed, Flushed, Take, TakeLast;
    ghost var events: seq<SseEvent> := [];
    FedNone(FRESH);
    TakeNone(decode, from);
    for i := 0 to |chunks|
      invariant FedAll(FRESH, chunks[..i]) == (parser.Model(), events)
      invariant Take(decode, from, events) == Taken(cursor, yielded, None)
    {
      var more := parser.Feed(chunks[i]);
      FedOneMore(FRESH, chunks, i);
      TakeSplit(decode, from, events, more);
      FedIsPrefix(FRESH, chunks, i + 1);
      TakeErrorStops(decode, from, events + more, FedAll(FRESH, chunks).1);
      events := events + more;
      var part := TakeEvents(decode, cursor, more);
      cursor, yielded := part.cursor, yielded + part.yielded;
      if part.error.Some? { return Taken(cursor, yielded, part.error); }
    }
    assert chunks[..|chunks|] == chunks;
    taken := Taken(cursor, yielded, None);
    if ending == Closed {
      var last := parser.Finish();
      var part := TakeFlushed(decode, cursor, last);
      taken := part.(yielded := yielded + part.yielded);
    }
  }

  lemma FedNone(p: Parser)
    ensures FedAll(p, []) == (p, [])
  {}

  lemma TakeNone(decode: string -> Option<Payload>, cursor: int)
    ensures Take(decode, cursor, []) == Taken(cursor, [], None)
  {}

  lemma {:induction false} FedOneMore(p: Parser, chunks: seq<string>, i: nat)
    requires i < |chunks|
    ensures var (q, events) := FedAll(p, chunks[..i]);
      var (r, more) := Fed(q, chunks[i]);
      FedAll(p, chunks[..i + 1]) == (r, events + more)
    decreases i
  {
    hide Fed;
    if i == 0 {
      assert chunks[..1][1..] == [];
      Associates(Fed(p, chunks[0]).1, [], []);
    } else {
      var (q, first) := Fed(p, chunks[0]);
      assert chunks[..i][1..] == chunks[1..][..i - 1] && chunks[..i + 1][1..] == chunks[1..][..i];
      FedOneMore(q, chunks[1..], i - 1);
      var (r, events) := FedAll(q, chunks[1..][..i - 1]);
      Associates(first, events, Fed(r, chunks[i]).1);
    }
  }

  lemma {:induction false} FedIsPrefix(p: Parser, chunks: seq<string>, i: nat)
    requires i <= |chunks|
    ensures FedAll(p, chunks[..i]).1 <= FedAll(p, chunks).1
    decreases |chunks| - i
  {
    if i == |chunks| {
      assert chunks[..i] == chunks;
    } else {
      FedIsPrefix(p, chunks, i + 1);
      FedOneMore(p, chunks, i);
      hide FedAll, Fed;
    }
  }

  /** An event that cannot be used ends the stream whatever follows it. */
  lemma TakeErrorStops(decode: string -> Option<Payload>, cursor: int, some: seq<SseEvent>, all: seq<SseEvent>)
    requires some <= all
    ensures Take(decode, cursor, some).error.Some? ==> Take(decode, cursor, all) == Take(decode, cursor, some)
  {
    TakeSplit(decode, cursor, some, all[|some|..]);
    assert some + all[|some|..] == all;
    hide Take;
  }

  // ----- never twice, whatever the server sends -----

  lemma AscendingJoin(from: int, a: seq<Payload>, middle: int, b: seq<Payload>, upto: int)
    requires Ascending(from, a, middle) && Ascending(middle, b, upto)
    ensures Ascending(from, a + b, upto)
  {}

  /** The flushed events fail only on what is no object. */
  lemma {:induction false} LastTakesExactly(decode: string -> Option<Payload>, cursor: int, events: seq<SseEvent>)
    ensures TakeLast(decode, cursor, events).error
         == if forall i :: 0 <= i < |events| ==> decode(events[i].data).Some? then None else Some(InvalidEvent)
    decreases |events|
  {
    if events != [] && decode(events[0].data).Some? {
      var payload := decode(events[0].data).value;
      LastTakesExactly(decode, if payload.sequence.None? || payload.sequence.value <= cursor then cursor else payload.sequence.value, events[1..]);
      assert forall i :: 0 < i < |events| ==> events[i] == events[1..][i - 1];
    }
  }

  lemma {:induction false} LastAscends(decode: string -> Option<Payload>, cursor: int, events: seq<SseEvent>)
    ensures Ascending(cursor, TakeLast(decode, cursor, events).yielded, TakeLast(decode, cursor, events).cursor)
    decreases |events|
  {
    if events != [] && decode(events[0].data).Some? {
      var payload := decode(events[0].data).value;
      var skipped := payload.sequence.None? || payload.sequence.value <= cursor;
      LastAscends(decode, if skipped then cursor else payload.sequence.value, events[1..]);
    }
  }

  lemma ReceivedAscends(decode: string -> Option<Payload>, cursor: int, chunks: seq<string>, ending: Ending)
    ensures var taken := Received(decode, cursor, chunks, ending); Ascending(cursor, taken.yielded, taken.cursor)
  {
    var (parser, events) := FedAll(FRESH, chunks);
    TakeAscends(decode, cursor, events);
    var taken := Take(decode, cursor, events);
    LastAscends(decode, taken.cursor, Flushed(parser).1);
    AscendingJoin(cursor, taken.yielded, taken.cursor, TakeLast(decode, taken.cursor, Flushed(parser).1).yielded,
                  TakeLast(decode, taken.cursor, Flushed(parser).1).cursor);
    hide Take, TakeLast, FedAll, Flushed, Ascending, Usable, New;
  }

  /** Whatever any server sends over any connections, the client yields every sequence once at most, in
      rising order and beyond the cursor it was started with. */
  lemma {:induction false} NeverTwice(decode: string -> Option<Payload>, attempts: seq<Attempt>, cursor: int, failures: nat, limit: int)
    returns (upto: int)
    ensures Ascending(cursor, Client(decode, attempts, cursor, failures, limit).yielded, upto)
    decreases |attempts|
  {
    upto := cursor;
    if attempts == [] {
      ClientStops(decode, cursor, failures, limit);
    } else {
      ClientSteps(decode, attempts, cursor, failures, limit);
      if attempts[0].Streamed? {
        var taken := Received(decode, cursor, attempts[0].chunks, attempts[0].ending);
        ReceivedAscends(decode, cursor, attempts[0].chunks, attempts[0].ending);
        upto := taken.cursor;
        if taken.error.None? && attempts[0].ending != Closed && failures + 1 <= limit {
          upto := NeverTwice(decode, attempts[1..], taken.cursor, failures + 1, limit);
          AscendingJoin(cursor, taken.yielded, taken.cursor,
                        Client(decode, attempts[1..], taken.cursor, failures + 1, limit).yielded, upto);
        }
      }
    }
    hide Client, Received;
  }

  // ----- exactly once, in order -----

  /** The client's JSON decoder reads each stored event's text. */
  ghost predicate Faithful(log: Log, decode: string -> Option<Payload>) {
    forall i :: 0 <= i < |log| ==> decode(log[i].data) == Some(PayloadOf(log[i]))
  }

  function PayloadOf(e: Entry): (p: Payload) { Payload(Some(e.sequence), e.data) }

  function PayloadsOf(entries: Log): (payloads: seq<Payload>) {
    seq(|entries|, i requires 0 <= i < |entries| => PayloadOf(entries[i]))
  }

  /** The cursor the server reads off the `Last-Event-ID` header the client wrote. */
  function HeaderCursor(cursor: nat): (c: nat) {
    OrZero(ParseDecimal(Decimal(cursor)))
  }

  /** The attempt is a connection to the server: the client got the beginning of what the server
      printed for its cursor, and all of it if the connection ended cleanly, which only happens
      once the server has ended the stream. */
  ghost predicate Honest(log: Log, cursor: nat, attempt: Attempt, polls: seq<Poll>)
    requires Polled(log, polls)
  {
    var served := Serve(log, HeaderCursor(cursor), polls);
    attempt.Streamed? ==>
      && Concat(attempt.chunks) <= PrintAll(served.items)
      && (attempt.ending == Closed ==> served.ended.Some? && Concat(attempt.chunks) == PrintAll(served.items))
  }

  /** The log the theorem is about: increasing, printable, decodable. */
  ghost predicate GoodLog(log: Log, decode: string -> Option<Payload>) {
    Increasing(log) && Faithful(log, decode) && forall i :: 0 <= i < |log| ==> Printable(log[i])
  }

  /** Taking a slice of the log that lies past the cursor yields it whole. */
  lemma {:induction false} TakeSlice(log: Log, decode: string -> Option<Payload>, cursor: nat, from: nat, upto: nat)
    requires GoodLog(log, decode) && from <= upto <= |log| && (from < |log| ==> log[from].sequence > cursor)
    ensures Take(decode, cursor, ParsedAll(log[from..upto]))
         == Taken(if from == upto then cursor else log[upto - 1].sequence, PayloadsOf(log[from..upto]), None)
    decreases upto - from
  {
    var events := ParsedAll(log[from..upto]);
    if from < upto {
      TakeSlice(log, decode, log[from].sequence, from + 1, upto);
      assert events[0].data == log[from].data;
      assert events[1..] == ParsedAll(log[from + 1..upto]);
      assert PayloadsOf(log[from..upto]) == [PayloadOf(log[from])] + PayloadsOf(log[from + 1..upto]);
    }
  }

  lemma {:induction false} EntriesArePrintable(items: seq<Item>)
    requires forall e :: e in EntriesOf(items) ==> Printable(e)
    ensures AllPrintable(items)
    decreases |items|
  {
    hide Printable;
    if items != [] {
      forall e | e in EntriesOf(items[1..]) ensures e in EntriesOf(items) {}
      EntriesArePrintable(items[1..]);
      if items[0].Event? { assert items[0].entry in EntriesOf(items); }
      forall i | 0 < i < |items| ensures items[i] == items[1..][i - 1] {}
    }
  }

  lemma ServedReadsBack(log: Log, decode: string -> Option<Payload>, cursor: nat, polls: seq<Poll>) returns (end: nat)
    requires GoodLog(log, decode) && Polled(log, polls)
    ensures Position(log, cursor) <= end <= |log|
    ensures var served := Serve(log, HeaderCursor(cursor), polls);
      && AllPrintable(served.items)
      && Fed(FRESH, PrintAll(served.items)).1 == ParsedAll(log[Position(log, cursor)..end])
      && (served.ended.Some? ==> served.ended.value.visible <= end)
  {
    CursorRoundTrip(cursor);
    assert HeaderCursor(cursor) == cursor;
    var items, from := Serve(log, cursor, polls).items, Position(log, cursor);
    end := ServeIsSlice(log, cursor, polls);
    hide *;
    GoodEntries(log, decode, from, end);
    EntriesArePrintable(items);
    FreshAtRest();
    PrintedReadsBack(FRESH, items);
  }

  lemma GoodEntries(log: Log, decode: string -> Option<Payload>, from: nat, end: nat)
    requires GoodLog(log, decode) && from <= end <= |log|
    ensures forall e :: e in log[from..end] ==> Printable(e)
  {
    hide Printable, Increasing, Faithful;
  }

  lemma FreshAtRest()
    ensures AtRest(FRESH) && FRESH.buffer == ""
  {}

  /** The events parsed from a cut connection are the first ones of the slice the server printed. */
  lemma ParsedSlice(log: Log, decode: string -> Option<Payload>, cursor: nat, polls: seq<Poll>, chunks: seq<string>)
    returns (upto: nat)
    requires GoodLog(log, decode) && Polled(log, polls)
    requires Concat(chunks) <= PrintAll(Serve(log, HeaderCursor(cursor), polls).items)
    ensures Position(log, cursor) <= upto <= |log|
    ensures FedAll(FRESH, chunks).1 == ParsedAll(log[Position(log, cursor)..upto])
    ensures var served := Serve(log, HeaderCursor(cursor), polls);
      Concat(chunks) == PrintAll(served.items) ==>
        && (served.ended.Some? ==> served.ended.value.visible <= upto)
        && Flushed(FedAll(FRESH, chunks).0).1 == []
  {
    hide *;
    var items, from := Serve(log, HeaderCursor(cursor), polls).items, Position(log, cursor);
    var end := ServedReadsBack(log, decode, cursor, polls);
    FreshAtRest();
    ChunksDoNotMatter(FRESH, chunks);
    CutTextGivesPrefix(FRESH, PrintAll(items), Concat(chunks));
    var got := FedAll(FRESH, chunks).1;
    ParsedPrefix(log, from, end, |got|);
    upto := from + |got|;
    if Concat(chunks) == PrintAll(items) { StreamRoundTrip(items, chunks); }
  }

  lemma ParsedPrefix(log: Log, from: nat, end: nat, n: nat)
    requires from <= end <= |log|
    ensures |ParsedAll(log[from..end])| == end - from
    ensures n <= end - from ==> ParsedAll(log[from..end])[..n] == ParsedAll(log[from..from + n])
  {
    hide ParsedOf;
  }

  /** One honest connection yields the next stretch of the log. */
  lemma OneConnection(log: Log, decode: string -> Option<Payload>, cursor: nat, polls: seq<Poll>, attempt: Attempt)
    returns (upto: nat)
    requires GoodLog(log, decode) && Polled(log, polls) && attempt.Streamed? && Honest(log, cursor, attempt, polls)
    ensures Position(log, cursor) <= upto <= |log|
    ensures var taken := Received(decode, cursor, attempt.chunks, attempt.ending);
      && taken.error.None? && taken.yielded == PayloadsOf(log[Position(log, cursor)..upto])
      && taken.cursor >= 0 && Position(log, taken.cursor) == upto
    ensures attempt.ending == Closed ==>
      var served := Serve(log, HeaderCursor(cursor), polls);
      served.ended.Some? && served.ended.value.visible <= upto
  {
    var from := Position(log, cursor);
    HonestText(log, cursor, attempt, polls);
    upto := ParsedSlice(log, decode, cursor, polls, attempt.chunks);
    EndPosition(log, decode, cursor, upto);
    TakeSlice(log, decode, cursor, from, upto);
    hide *;
    ReceivedIs(decode, cursor, attempt.chunks, attempt.ending,
               Taken(if from == upto then cursor else log[upto - 1].sequence, PayloadsOf(log[from..upto]), None));
  }

  lemma HonestText(log: Log, cursor: nat, attempt: Attempt, polls: seq<Poll>)
    requires Polled(log, polls) && attempt.Streamed? && Honest(log, cursor, attempt, polls)
    ensures var served := Serve(log, HeaderCursor(cursor), polls);
      && Concat(attempt.chunks) <= PrintAll(served.items)
      && (attempt.ending == Closed ==> served.ended.Some? && Concat(attempt.chunks) == PrintAll(served.items))
  {
    hide Serve, HeaderCursor, PrintAll, Concat;
  }

  lemma EndPosition(log: Log, decode: string -> Option<Payload>, cursor: nat, upto: nat)
    requires GoodLog(log, decode) && Position(log, cursor) <= upto <= |log|
    ensures Position(log, if Position(log, cursor) == upto then cursor else log[upto - 1].sequence) == upto
    ensures Position(log, cursor) < |log| ==> log[Position(log, cursor)].sequence > cursor
  {
    PositionIs(log, if Position(log, cursor) == upto then cursor else log[upto - 1].sequence, upto);
  }

  /** A connection without unusable events and with nothing left to flush delivers what it parsed. */
  lemma ReceivedIs(decode: string -> Option<Payload>, cursor: int, chunks: seq<string>, ending: Ending, taken: Taken)
    requires Take(decode, cursor, FedAll(FRESH, chunks).1) == taken && taken.error.None?
    requires ending == Closed ==> Flushed(FedAll(FRESH, chunks).0).1 == []
    ensures Received(decode, cursor, chunks, ending) == taken
  {
    Associates(taken.yielded, [], []);
    hide Take, FedAll, Flushed;
  }

  /** The cursor the i-th attempt sends. */
  function CursorAt(decode: string -> Option<Payload>, attempts: seq<Attempt>, cursor: int, i: nat): (c: int)
    requires i <= |attempts|
    decreases i
  {
    if i == 0 then cursor
    else match attempts[0]
      case Rejected(_) => cursor
      case Streamed(chunks, ending) =>
        CursorAt(decode, attempts[1..], Received(decode, cursor, chunks, ending).cursor, i - 1)
  }

  /** Every attempt of the run is an honest connection for the cursor it sends. */
  ghost predicate HonestRun(log: Log, decode: string -> Option<Payload>, attempts: seq<Attempt>, polls: seq<seq<Poll>>, cursor: int)
    decreases |attempts|
  {
    && |polls| == |attempts|
    && (attempts != [] ==>
          && cursor >= 0 && Polled(log, polls[0]) && Honest(log, cursor, attempts[0], polls[0])
          && (attempts[0].Streamed? ==>
                HonestRun(log, decode, attempts[1..], polls[1..],
                          Received(decode, cursor, attempts[0].chunks, attempts[0].ending).cursor)))
  }

  /** What the poll of the last used connection had seen was delivered. */
  ghost predicate DeliveredAll(log: Log, decode: string -> Option<Payload>, attempts: seq<Attempt>, polls: seq<seq<Poll>>,
                               cursor: int, used: nat, upto: nat)
  {
    && 0 < used <= |attempts| == |polls| && CursorAt(decode, attempts, cursor, used - 1) >= 0
    && Polled(log, polls[used - 1])
    && var served := Serve(log, HeaderCursor(CursorAt(decode, attempts, cursor, used - 1)), polls[used - 1]);
       served.ended.Some? && served.ended.value.visible <= upto
  }

  /** What a run of the client has delivered when it stops at log position `upto`. */
  ghost predicate Delivered(log: Log, decode: string -> Option<Payload>, attempts: seq<Attempt>, polls: seq<seq<Poll>>,
                            cursor: nat, run: ClientRun, upto: nat)
  {
    && Position(log, cursor) <= upto <= |log|
    && run.yielded == PayloadsOf(log[Position(log, cursor)..upto])
    && (run.outcome == Complete ==> DeliveredAll(log, decode, attempts, polls, cursor, run.used, upto))
    && (run.outcome.Failed? ==> 0 < run.used <= |attempts| && Explains(attempts[run.used - 1], run.outcome.error))
  }

  /** What the last attempt must have been for the client to fail with this error. */
  predicate Explains(attempt: Attempt, error: StreamError) {
    match error
    case NoStream(why) => attempt == Rejected(why)
    case StreamTimeout => attempt.Streamed? && attempt.ending == TimedOut
    case StreamDisconnected => attempt.Streamed? && attempt.ending == Dropped
    case _ => false
  }

  /** The delivery theorem. Over any sequence of connections cut anywhere, the client yields exactly
      the events right after its starting cursor: a contiguous stretch of the log, in order, without
      gap or repetition. It never fails on an event, and a failure says how its last attempt ended. If
      it ends cleanly, everything the server's terminal poll could see has been delivered. */
  lemma {:induction false} ExactlyOnce(log: Log, decode: string -> Option<Payload>, attempts: seq<Attempt>,
      polls: seq<seq<Poll>>, cursor: nat, failures: nat, limit: int) returns (upto: nat)
    requires GoodLog(log, decode) && HonestRun(log, decode, attempts, polls, cursor)
    ensures Delivered(log, decode, attempts, polls, cursor, Client(decode, attempts, cursor, failures, limit), upto)
    decreases |attempts|
  {
    upto := Position(log, cursor);
    if attempts == [] {
      ClientStops(decode, cursor, failures, limit);
    } else if attempts[0].Streamed? {
      upto := OneConnection(log, decode, cursor, polls[0], attempts[0]);
      var taken := Received(decode, cursor, attempts[0].chunks, attempts[0].ending);
      if attempts[0].ending != Closed && failures + 1 <= limit {
        var middle := upto;
        upto := ExactlyOnce(log, decode, attempts[1..], polls[1..], taken.cursor, failures + 1, limit);
        DeliveredLater(log, decode, attempts, polls, cursor, failures, limit, middle, upto);
      } else {
        DeliveredNow(log, decode, attempts, polls, cursor, failures, limit, upto);
      }
    } else {
      ClientSteps(decode, attempts, cursor, failures, limit);
      hide Client, Honest, GoodLog;
    }
  }

  lemma DeliveredNow(log: Log, decode: string -> Option<Payload>, attempts: seq<Attempt>, polls: seq<seq<Poll>>,
                     cursor: nat, failures: nat, limit: int, upto: nat)
    requires attempts != [] && attempts[0].Streamed? && |polls| == |attempts| && Polled(log, polls[0])
    requires attempts[0].ending == Closed || failures + 1 > limit
    requires Position(log, cursor) <= upto <= |log|
    requires var taken := Received(decode, cursor, attempts[0].chunks, attempts[0].ending);
      taken.error.None? && taken.yielded == PayloadsOf(log[Position(log, cursor)..upto])
    requires attempts[0].ending == Closed ==>
      var served := Serve(log, HeaderCursor(cursor), polls[0]);
      served.ended.Some? && served.ended.value.visible <= upto
    ensures Delivered(log, decode, attempts, polls, cursor, Client(decode, attempts, cursor, failures, limit), upto)
  {
    ClientSteps(decode, attempts, cursor, failures, limit);
    hide Client, Received, Position, Serve, HeaderCursor, PayloadsOf, Polled;
  }

  lemma DeliveredLater(log: Log, decode: string -> Option<Payload>, attempts: seq<Attempt>, polls: seq<seq<Poll>>,
                       cursor: nat, failures: nat, limit: int, middle: nat, upto: nat)
    requires attempts != [] && attempts[0].Streamed? && |polls| == |attempts|
    requires attempts[0].ending != Closed && failures + 1 <= limit
    requires Position(log, cursor) <= middle <= |log|
    requires var taken := Received(decode, cursor, attempts[0].chunks, attempts[0].ending);
      && taken.error.None? && taken.yielded == PayloadsOf(log[Position(log, cursor)..middle])
      && taken.cursor >= 0 && Position(log, taken.cursor) == middle
      && Delivered(log, decode, attempts[1..], polls[1..], taken.cursor,
                   Client(decode, attempts[1..], taken.cursor, failures + 1, limit), upto)
    ensures Delivered(log, decode, attempts, polls, cursor, Client(decode, attempts, cursor, failures, limit), upto)
  {
    ClientSteps(decode, attempts, cursor, failures, limit);
    var taken := Received(decode, cursor, attempts[0].chunks, attempts[0].ending);
    var rest := Client(decode, attempts[1..], taken.cursor, failures + 1, limit);
    PayloadsJoin(log, Position(log, cursor), middle, upto);
    if rest.outcome == Complete {
      DeliveredAllLater(log, decode, attempts, polls, cursor, rest.used, upto);
    }
    if rest.outcome.Failed? {
      assert attempts[rest.used] == attempts[1..][rest.used - 1];
    }
    hide Client, Received, Position, PayloadsOf, DeliveredAll, Explains;
  }

  lemma DeliveredAllLater(log: Log, decode: string -> Option<Payload>, attempts: seq<Attempt>, polls: seq<seq<Poll>>,
                          cursor: nat, used: nat, upto: nat)
    requires attempts != [] && attempts[0].Streamed? && |polls| == |attempts|
    requires var taken := Received(decode, cursor, attempts[0].chunks, attempts[0].ending);
      DeliveredAll(log, decode, attempts[1..], polls[1..], taken.cursor, used, upto)
    ensures DeliveredAll(log, decode, attempts, polls, cursor, used + 1, upto)
  {
    hide Received, Serve, HeaderCursor, Polled;
    assert polls[used] == polls[1..][used - 1];
  }

  predicate Cut(attempt: Attempt) { attempt.Streamed? && attempt.ending != Closed }

  ghost predicate Accounted(attempts: seq<Attempt>, run: ClientRun, failures: nat, limit: int) {
    && run.used <= |attempts|
    && failures + run.used <= (if limit < 0 then 0 else limit) + 1
    && failures <= run.failures <= failures + run.used
    && (forall i :: 0 <= i < run.used - 1 ==> Cut(attempts[i]))
    && (run.failures > limit && run.failures > failures ==> run.outcome.Failed?)
    && (run.outcome == StillStreaming ==> run.used == |attempts|)
  }

  lemma AccountedLater(attempts: seq<Attempt>, yielded: seq<Payload>, rest: ClientRun, failures: nat, limit: int)
    requires attempts != [] && Cut(attempts[0]) && failures + 1 <= limit && Accounted(attempts[1..], rest, failures + 1, limit)
    ensures Accounted(attempts, Resumed(yielded, 1, rest), failures, limit)
  {
    hide Cut;
    forall i | 0 < i < rest.used ensures Cut(attempts[i]) {
      assert attempts[i] == attempts[1..][i - 1];
    }
  }

  /** The attempt was cut and another one follows. */
  predicate GoesOn(decode: string -> Option<Payload>, attempt: Attempt, cursor: int, failures: nat, limit: int) {
    Cut(attempt) && Received(decode, cursor, attempt.chunks, attempt.ending).error.None? && failures + 1 <= limit
  }

  /** The accounting of failures: at most max(0, limit) + 1 connections are made, all but the last of
      them cut; after more than `limit` cuts the client has given up. */
  lemma {:induction false} FailuresBounded(decode: string -> Option<Payload>, attempts: seq<Attempt>, cursor: int,
      failures: nat, limit: int)
    requires failures == 0 || failures <= limit
    ensures Accounted(attempts, Client(decode, attempts, cursor, failures, limit), failures, limit)
    decreases |attempts|
  {
    hide *;
    if attempts == [] {
      AccountedNone(decode, cursor, failures, limit);
    } else if GoesOn(decode, attempts[0], cursor, failures, limit) {
      var taken := ClientGoesOn(decode, attempts, cursor, failures, limit);
      FailuresBounded(decode, attempts[1..], taken.cursor, failures + 1, limit);
      AccountedLater(attempts, taken.yielded, Client(decode, attempts[1..], taken.cursor, failures + 1, limit), failures, limit);
    } else {
      ClientEnds(decode, attempts, cursor, failures, limit);
      AccountedOnce(attempts, Client(decode, attempts, cursor, failures, limit), failures, limit);
    }
  }

  lemma ClientGoesOn(decode: string -> Option<Payload>, attempts: seq<Attempt>, cursor: int, failures: nat, limit: int)
    returns (taken: Taken)
    requires attempts != [] && GoesOn(decode, attempts[0], cursor, failures, limit)
    ensures Cut(attempts[0]) && failures + 1 <= limit
    ensures Client(decode, attempts, cursor, failures, limit)
         == Resumed(taken.yielded, 1, Client(decode, attempts[1..], taken.cursor, failures + 1, limit))
  {
    taken := Received(decode, cursor, attempts[0].chunks, attempts[0].ending);
    ClientSteps(decode, attempts, cursor, failures, limit);
    hide Client, Received, Resumed;
  }

  lemma AccountedNone(decode: string -> Option<Payload>, cursor: int, failures: nat, limit: int)
    requires failures == 0 || failures <= limit
    ensures Accounted([], Client(decode, [], cursor, failures, limit), failures, limit)
  {
    ClientStops(decode, cursor, failures, limit);
  }

  lemma AccountedOnce(attempts: seq<Attempt>, run: ClientRun, failures: nat, limit: int)
    requires attempts != [] && (failures == 0 || failures <= limit) && run.used == 1 && run.outcome != StillStreaming
    requires failures <= run.failures <= failures + 1 && (run.failures > failures ==> run.outcome.Failed?)
    ensures Accounted(attempts, run, failures, limit)
  {
    hide Cut;
  }

  lemma ClientEnds(decode: string -> Option<Payload>, attempts: seq<Attempt>, cursor: int, failures: nat, limit: int)
    requires attempts != [] && !GoesOn(decode, attempts[0], cursor, failures, limit)
    ensures var run := Client(decode, attempts, cursor, failures, limit);
      && run.used == 1 && run.outcome != StillStreaming
      && failures <= run.failures <= failures + 1 && (run.failures > failures ==> run.outcome.Failed?)
  {
    hide Received;
  }

  /** A yielded stretch is strictly increasing, and a new stream from its last sequence goes on with
      the very next event. */
  lemma ResumesWhereItStopped(log: Log, decode: string -> Option<Payload>, from: nat, upto: nat)
    requires GoodLog(log, decode) && from < upto <= |log|
    ensures var yielded := PayloadsOf(log[from..upto]);
      && (forall i, j :: 0 <= i < j < |yielded| ==> yielded[i].sequence.value < yielded[j].sequence.value)
      && Position(log, yielded[|yielded| - 1].sequence.value) == upto
  {
    PositionIs(log, log[upto - 1].sequence, upto);
    hide Position, Faithful;
  }

  lemma PayloadsJoin(log: Log, i: nat, j: nat, k: nat)
    requires i <= j <= k <= |log|
    ensures PayloadsOf(log[i..j]) + PayloadsOf(log[j..k]) == PayloadsOf(log[i..k])
  {
    hide PayloadOf;
  }
}
