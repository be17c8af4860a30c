/** Where the stream parser meets sections 9.2.5 and 9.2.6 of the HTML Living Standard, and exactly
    where it does not: the end of the stream, line ends, and the byte order mark. */
module SseStandard {
  import opened Foundation
  import opened Sse

  // ----- the end of the stream -----

  /** Section 9.2.6 of the HTML Living Standard discards what no blank line ended. `finish` does so
      exactly when no data line is pending and the unterminated rest is not one. */
  lemma FinishDiscardsExactly(p: Parser)
    requires '\n' !in p.buffer
    ensures Flushed(p).1 == [] <==> p.data == [] && Field(StripCr(p.buffer)) != "data"
    ensures |Flushed(p).1| <= 1
  {
    var line := StripCr(p.buffer);
    if line != "" && line[0] == ':' { assert Find(line, ':') == 0; }
  }

  /** The same at the end of any stream, however it was cut. */
  lemma FinishAfterChunks(chunks: seq<string>)
    ensures var p := FedAll(FRESH, chunks).0;
      Flushed(p).1 == [] <==> p.data == [] && Field(StripCr(p.buffer)) != "data"
  {
    ChunksDoNotMatter(FRESH, chunks);
    FinishDiscardsExactly(FedAll(FRESH, chunks).0);
    hide *;
  }

  /** An unterminated data line on a parser at rest is dispatched. */
  lemma FinishDispatchesUnterminated(p: Parser, value: string)
    requires AtRest(p) && '\n' !in value && !EndsCr(value)
    ensures Fed(p, "data: " + value).1 == []
    ensures Flushed(Fed(p, "data: " + value).0).1 == [SseEvent(p.lastId, "message", value)]
  {
    var text := "data" + ": " + value;
    assert p.buffer + ("data: " + value) == text;
    FieldOf("data", value);
    StripCrOf("data: ", value);
    assert '\n' !in text;
  }

  // ----- line ends -----

  /** Lines as section 9.2.5 of the standard ends them, with CRLF, LF or CR; the last element is the
      unterminated rest. */
  function StandardLines(text: string): (lines: seq<string>)
    ensures lines != []
    decreases |text|
  {
    if text == "" then [""]
    else if |text| > 1 && text[0] == '\r' && text[1] == '\n' then [""] + StandardLines(text[2..])
    else if text[0] in {'\n', '\r'} then [""] + StandardLines(text[1..])
    else Prepended(text[0], StandardLines(text[1..]))
  }

  /** The first line gets one more character in front. */
  function Prepended(c: char, lines: seq<string>): (r: seq<string>)
    requires lines != []
    ensures r != []
  {
    [[c] + lines[0]] + lines[1..]
  }

  /** Lines as the parser ends them: at LF, with one CR before it dropped. */
  function ParserLines(text: string): (lines: seq<string>)
    ensures lines != []
    decreases |text|
  {
    var i := Find(text, '\n');
    if i == |text| then [text] else [StripCr(text[..i])] + ParserLines(text[i + 1..])
  }

  /** Line after line, with the last one kept as the buffer. */
  function TakeLines(p: Parser, lines: seq<string>): (r: (Parser, seq<SseEvent>))
    requires lines != []
    decreases |lines|
  {
    if |lines| == 1 then (p.(buffer := lines[0]), [])
    else
      var (q, events) := Line(p, lines[0]);
      var (r, more) := TakeLines(q, lines[1..]);
      (r, events + more)
  }

  /** `TakeLines` does not look at the buffer it replaces. */
  lemma {:induction false} TakeLinesIgnoresBuffer(p: Parser, buffer: string, lines: seq<string>)
    requires lines != []
    ensures TakeLines(p.(buffer := buffer), lines) == TakeLines(p, lines)
    decreases |lines|
  {
    if |lines| > 1 {
      LineIgnoresBuffer(p, buffer, lines[0]);
      TakeLinesIgnoresBuffer(Line(p, lines[0]).0, buffer, lines[1..]);
    }
  }

  /** What the parser does with a text is what its lines do. */
  lemma {:induction false} DrainTakesLines(p: Parser)
    ensures Drain(p) == TakeLines(p, ParserLines(p.buffer))
    decreases |p.buffer|
  {
    var i := Find(p.buffer, '\n');
    if i == |p.buffer| {
      DrainEnds(p);
    } else {
      var now, line, rest := p.(buffer := p.buffer[i + 1..]), StripCr(p.buffer[..i]), ParserLines(p.buffer[i + 1..]);
      LineKeepsBuffer(now, line);
      DrainTakesLines(Line(now, line).0);
      LineIgnoresBuffer(p, p.buffer[i + 1..], line);
      TakeLinesIgnoresBuffer(Line(p, line).0, p.buffer[i + 1..], rest);
      assert ([line] + rest)[1..] == rest;
    }
  }

  predicate CrBeforeLf(text: string) {
    forall i :: 0 <= i < |text| && text[i] == '\r' ==> i + 1 < |text| && text[i + 1] == '\n'
  }

  predicate NoCr(lines: seq<string>) {
    forall i :: 0 <= i < |lines| ==> '\r' !in lines[i]
  }

  lemma {:induction false} StandardLinesHaveNoCr(text: string)
    ensures NoCr(StandardLines(text))
    decreases |text|
  {
    if text == "" {
    } else if |text| > 1 && text[0] == '\r' && text[1] == '\n' {
      StandardLinesHaveNoCr(text[2..]);
    } else {
      StandardLinesHaveNoCr(text[1..]);
    }
  }

  /** How the parser's lines grow by one character in front. */
  lemma ParserLinesStep(text: string)
    requires text != ""
    ensures text[0] == '\n' ==> ParserLines(text) == [""] + ParserLines(text[1..])
    ensures text[0] == '\r' && |text| > 1 && text[1] == '\n' ==> ParserLines(text) == [""] + ParserLines(text[2..])
    ensures text[0] != '\n' && !(text[0] == '\r' && |text| > 1 && text[1] == '\n') ==>
      ParserLines(text) == Prepended(text[0], ParserLines(text[1..]))
  {
    hide *;
    if text[0] == '\n' {
      LfLine(text);
    } else if text[0] == '\r' && |text| > 1 && text[1] == '\n' {
      CrLfLine(text);
    } else {
      FirstCharacter(text[0], text[1..]);
      FirstAndRest(text);
    }
  }

  lemma FirstAndRest(text: string)
    requires text != ""
    ensures text == [text[0]] + text[1..]
  {}

  lemma LfLine(text: string)
    requires text != "" && text[0] == '\n'
    ensures ParserLines(text) == [""] + ParserLines(text[1..])
  {
    hide *;
    assert text[..0] == "";
    LineEndsAt(text, 0);
    StripCrShort();
  }

  lemma CrLfLine(text: string)
    requires |text| > 1 && text[0] == '\r' && text[1] == '\n'
    ensures ParserLines(text) == [""] + ParserLines(text[2..])
  {
    hide *;
    assert text[..1] == "\r";
    LineEndsAt(text, 1);
    StripCrShort();
  }

  lemma StripCrShort()
    ensures StripCr("") == StripCr("\r") == ""
  {}

  lemma LineEndsAt(text: string, i: nat)
    requires i < |text| && text[i] == '\n' && '\n' !in text[..i]
    ensures ParserLines(text) == [StripCr(text[..i])] + ParserLines(text[i + 1..])
  {
    FindAt(text, i, '\n');
    hide StripCr;
  }

  lemma NoLineEnds(text: string)
    requires '\n' !in text
    ensures ParserLines(text) == [text]
  {}

  lemma FirstCharacter(c: char, rest: string)
    requires c != '\n' && !(c == '\r' && rest != "" && rest[0] == '\n')
    ensures ParserLines([c] + rest) == Prepended(c, ParserLines(rest))
  {
    hide ParserLines, StripCr;
    var i, text := Find(rest, '\n'), [c] + rest;
    if i < |rest| {
      assert text[..i + 1] == [c] + rest[..i] && text[i + 2..] == rest[i + 1..];
      assert i > 0 || c != '\r';
      StripCrBehind(c, rest[..i]);
      LineEndsAt(rest, i);
      LineEndsAt(text, i + 1);
    } else {
      NoLineEnds(rest);
      NoLineEnds(text);
    }
  }

  lemma StripCrBehind(c: char, line: string)
    requires c != '\r' || line != ""
    ensures StripCr([c] + line) == [c] + StripCr(line)
  {
    if line != "" { assert ([c] + line)[|line|] == line[|line| - 1]; }
  }

  lemma {:induction false} LinesAgree(text: string)
    requires CrBeforeLf(text)
    ensures ParserLines(text) == StandardLines(text)
    decreases |text|
  {
    if text != "" {
      ParserLinesStep(text);
      CrBeforeLfTail(text);
      hide ParserLines;
      if text[0] == '\r' {
        LinesAgree(text[2..]);
      } else {
        LinesAgree(text[1..]);
      }
    }
  }

  lemma CrBeforeLfTail(text: string)
    requires text != "" && CrBeforeLf(text)
    ensures text[0] == '\r' ==> |text| > 1 && text[1] == '\n' && CrBeforeLf(text[2..])
    ensures text[0] != '\r' ==> CrBeforeLf(text[1..])
  {
    forall k: nat | k <= |text| ensures CrBeforeLf(text[k..]) {
      forall i | 0 <= i < |text[k..]| && text[k..][i] == '\r' ensures i + 1 < |text[k..]| && text[k..][i + 1] == '\n' {
        assert text[k + i] == '\r';
      }
    }
  }

  lemma {:induction false} CleanLinesMeanCrBeforeLf(text: string)
    requires NoCr(ParserLines(text))
    ensures CrBeforeLf(text)
    decreases |text|
  {
    hide *;
    if text == "" {
      NoTextNoCr();
    } else {
      ParserLinesStep(text);
      if text[0] == '\r' && |text| > 1 && text[1] == '\n' {
        NoCrRest([""], ParserLines(text[2..]));
        CleanLinesMeanCrBeforeLf(text[2..]);
        TailDecides(text, 2);
      } else if text[0] == '\n' {
        NoCrRest([""], ParserLines(text[1..]));
        CleanLinesMeanCrBeforeLf(text[1..]);
        TailDecides(text, 1);
      } else {
        NoCrPrepended(text[0], ParserLines(text[1..]));
        CleanLinesMeanCrBeforeLf(text[1..]);
        TailDecides(text, 1);
      }
    }
  }

  lemma NoTextNoCr()
    ensures CrBeforeLf("")
  {}

  lemma TailDecides(text: string, k: nat)
    requires k <= |text| && CrBeforeLf(text[k..])
    requires forall i :: 0 <= i < k && text[i] == '\r' ==> i + 1 < |text| && text[i + 1] == '\n'
    ensures CrBeforeLf(text)
  {
    forall i | k <= i < |text| && text[i] == '\r' ensures i + 1 < |text| && text[i + 1] == '\n' {
      assert text[k..][i - k] == '\r';
    }
  }

  lemma NoCrRest(first: seq<string>, rest: seq<string>)
    requires NoCr(first + rest)
    ensures NoCr(rest)
  {
    forall i | 0 <= i < |rest| ensures '\r' !in rest[i] { assert (first + rest)[|first| + i] == rest[i]; }
  }

  lemma NoCrPrepended(c: char, lines: seq<string>)
    requires lines != [] && NoCr(Prepended(c, lines))
    ensures c != '\r' && NoCr(lines)
  {
    var r := Prepended(c, lines);
    assert r[0] == [c] + lines[0] && c in r[0];
    forall i | 0 <= i < |lines| ensures '\r' !in lines[i] {
      if i == 0 { assert forall x :: x in lines[0] ==> x in r[0]; } else { assert r[i] == lines[i]; }
    }
  }

  /** The parser's lines are the standard's exactly when every CR of the text stands before an LF. */
  lemma LineEndsExactly(text: string)
    ensures ParserLines(text) == StandardLines(text) <==> CrBeforeLf(text)
  {
    hide *;
    StandardLinesHaveNoCr(text);
    if CrBeforeLf(text) { LinesAgree(text); }
    if ParserLines(text) == StandardLines(text) { CleanLinesMeanCrBeforeLf(text); }
  }

  /** So a stream whose every CR stands before an LF is read as the standard reads its lines, however
      it is cut. */
  lemma StandardLinesRead(chunks: seq<string>)
    requires CrBeforeLf(Concat(chunks))
    ensures FedAll(FRESH, chunks) == TakeLines(FRESH, StandardLines(Concat(chunks)))
  {
    var text := Concat(chunks);
    ChunksDoNotMatter(FRESH, chunks);
    LinesAgree(text);
    FedIs(FRESH, text);
    DrainTakesLines(FRESH.(buffer := text));
    assert FRESH.buffer + text == text;
    TakeLinesIgnoresBuffer(FRESH, text, StandardLines(text));
    hide *;
  }

  /** A CR inside a data line, where the standard ends the line, stays in the data. */
  lemma LoneCrStays(p: Parser, a: string, b: string)
    requires AtRest(p) && '\n' !in a && '\n' !in b && !EndsCr(b) && b != ""
    ensures var text := "data: " + (a + "\r" + b) + "\n\n";
      Fed(p, text).1 == [SseEvent(p.lastId, "message", a + "\r" + b)] && !CrBeforeLf(text)
  {
    hide *;
    LoneCrValue(a, b);
    OneDataEvent(p, a + "\r" + b);
    LoneCrText("data: ", a, b, "\n\n");
    assert "data: " + a + "\r" + b + "\n\n" == "data: " + (a + "\r" + b) + "\n\n";
  }

  lemma LoneCrValue(a: string, b: string)
    requires '\n' !in a && '\n' !in b && !EndsCr(b) && b != ""
    ensures '\n' !in a + "\r" + b && !EndsCr(a + "\r" + b)
  {
    var value := a + "\r" + b;
    assert value[|value| - 1] == b[|b| - 1];
  }

  lemma LoneCrText(before: string, a: string, b: string, after: string)
    requires b != "" && '\n' !in b
    ensures !CrBeforeLf(before + a + "\r" + b + after)
  {
    var text, i := before + a + "\r" + b + after, |before + a|;
    assert text[i] == '\r' && text[i + 1] == b[0];
  }

  /** One terminated data line and a blank line make one event. */
  lemma OneDataEvent(p: Parser, value: string)
    requires AtRest(p) && '\n' !in value && !EndsCr(value)
    ensures Fed(p, "data: " + value + "\n\n").1 == [SseEvent(p.lastId, "message", value)]
  {
    var text := "data: " + value + "\n\n";
    hide *;
    DataText(value);
    FedAtRest(p, text);
    StripCrSame(value);
    DrainField(p.(buffer := text), "data", value, "\n");
    DataDispatched(p, value);
    DataSet(p.(buffer := "\n"), value);
    DrainBlank(p.(buffer := "\n", data := [value]), "");
    DrainNothing(p.(buffer := ""));
    assert [SseEvent(p.lastId, "message", value)] + [] == [SseEvent(p.lastId, "message", value)];
  }

  lemma DataText(value: string)
    ensures "data: " + value + "\n\n" == "data" + ": " + value + "\n" + "\n" && "\n" == "\n" + ""
    ensures ':' !in "data" && '\n' !in "data" && "data" != ""
  {}

  lemma DataSet(p: Parser, value: string)
    requires p.data == []
    ensures SetField(p, "data", value) == p.(data := [value])
  {
    assert [] + [value] == [value];
  }

  lemma DataDispatched(p: Parser, value: string)
    requires AtRest(p)
    ensures p.data == [] && p.buffer == ""
    ensures Dispatch(p.(buffer := "", data := [value])) == (p.(buffer := ""), [SseEvent(p.lastId, "message", value)])
  {}

  // ----- the byte order mark -----

  /** U+FEFF, one of which the standard strips from the start of a stream. */
  const BOM: string := "\U{FEFF}"

  /** A first line that a new parser takes without any effect: blank, a comment, an unknown field, or
      a value it has already or does not accept. */
  predicate Ignored(line: string) {
    line == "" || line[0] == ':'
    || (Field(line) != "data" && (Field(line) == "event" ==> FieldValue(line) in {"", "message"})
        && (Field(line) == "id" ==> '\0' in FieldValue(line)))
  }

  lemma IgnoredLine(line: string, rest: string)
    requires Ignored(line)
    ensures Line(FRESH.(buffer := rest), line) == (FRESH.(buffer := rest), [])
  {
    hide Field, FieldValue;
  }

  /** Behind a byte order mark every line is an unknown field. */
  lemma MarkedLine(p: Parser, line: string)
    ensures Line(p, StripCr(BOM + line)) == (p, [])
  {
    StripCrOf(BOM, line);
    var marked := BOM + StripCr(line);
    assert marked[0] == '\U{FEFF}';
    assert Field(marked) == "" || Field(marked)[0] == '\U{FEFF}';
    assert Find(marked, ':') > 0;
    hide Find, StripCr;
  }

  /** A byte order mark takes the first line with it, whatever that line says. */
  lemma MarkDropsLine(line: string, rest: string)
    requires '\n' !in line
    ensures Fed(FRESH, BOM + line + "\n" + rest) == Fed(FRESH, rest)
  {
    var text := BOM + line + "\n" + rest;
    assert '\n' !in BOM + line && FRESH.(buffer := text).(buffer := rest) == FRESH.(buffer := rest);
    FreshAtRest();
    hide *;
    FedAtRest(FRESH, text);
    FedAtRest(FRESH, rest);
    MarkedLine(FRESH.(buffer := rest), line);
    DrainQuiet(FRESH.(buffer := text), BOM + line, rest, FRESH.(buffer := rest));
  }

  lemma FreshAtRest()
    ensures AtRest(FRESH) && FRESH.lastId == None
  {}

  lemma FirstLineRead(line: string, rest: string)
    requires '\n' !in line
    ensures var (q, events) := Line(FRESH.(buffer := rest), StripCr(line));
      Fed(FRESH, line + "\n" + rest).1 == events + Drain(q).1
  {
    var text := line + "\n" + rest;
    assert FRESH.(buffer := text).(buffer := rest) == FRESH.(buffer := rest);
    FreshAtRest();
    hide *;
    FedAtRest(FRESH, text);
    DrainLine(FRESH.(buffer := text), line, rest);
  }

  /** An empty data line and a blank line show the parser's whole state. */
  lemma StateShown(p: Parser)
    requires p.buffer == "data\n\n"
    ensures Drain(p).1 == [SseEvent(p.lastId, p.name, Join(p.data + [""]))]
  {
    hide *;
    var q := p.(buffer := "\n", data := p.data + [""]);
    EmptyData(p.(buffer := "\n"));
    ShownDispatch(q);
    TwoLines();
    DrainQuiet(p, "data", "\n", q);
    DrainBlank(q, "");
    DrainNothing(Dispatch(q.(buffer := "")).0);
    assert [SseEvent(p.lastId, p.name, Join(q.data))] + [] == [SseEvent(p.lastId, p.name, Join(q.data))];
  }

  lemma TwoLines()
    ensures "data\n\n" == "data" + "\n" + "\n" && "\n" == "\n" + ""
  {}

  lemma EmptyData(p: Parser)
    ensures '\n' !in "data" && Line(p, StripCr("data")) == (p.(data := p.data + [""]), [])
  {
    assert StripCr("data") == "data";
    assert ':' !in "data" && Find("data", ':') == 4 && "data"[..4] == "data";
  }

  lemma ShownDispatch(p: Parser)
    requires p.data != []
    ensures Dispatch(p.(buffer := "")).0.buffer == ""
    ensures Dispatch(p.(buffer := "")).1 == [SseEvent(p.lastId, p.name, Join(p.data))]
  {}

  /** A line with an effect shows in the next event. */
  lemma EffectShows(line: string)
    requires !Ignored(line)
    ensures var (q, events) := Line(FRESH.(buffer := "data\n\n"), line);
      events == [] && q.buffer == "data\n\n"
      && SseEvent(q.lastId, q.name, Join(q.data + [""])) != SseEvent(FRESH.lastId, FRESH.name, Join(FRESH.data + [""]))
  {
    var value := FieldValue(line);
    assert [] + [""] == [""] && [] + [value] + [""] == [value, ""] && [value, ""][1..] == [""];
    assert Join([""]) == "" && Join([value, ""]) == value + "\n";
    hide Field, FieldValue;
  }

  /** Whatever follows, a stream with a byte order mark is read like the one without it, as the
      standard reads it, if and only if a new parser ignores the first line. */
  lemma MarkHarmlessExactly(line: string)
    requires '\n' !in line
    ensures (forall rest :: Fed(FRESH, BOM + line + "\n" + rest).1 == Fed(FRESH, line + "\n" + rest).1)
       <==> Ignored(StripCr(line))
  {
    hide *;
    FreshAtRest();
    if Ignored(StripCr(line)) {
      forall rest ensures Fed(FRESH, BOM + line + "\n" + rest).1 == Fed(FRESH, line + "\n" + rest).1 {
        MarkDropsLine(line, rest);
        FirstLineRead(line, rest);
        IgnoredLine(StripCr(line), rest);
        FedAtRest(FRESH, rest);
        assert [] + Drain(FRESH.(buffer := rest)).1 == Drain(FRESH.(buffer := rest)).1;
      }
    } else {
      var rest := "data\n\n";
      MarkDropsLine(line, rest);
      FirstLineRead(line, rest);
      FedAtRest(FRESH, rest);
      StateShown(FRESH.(buffer := rest));
      EffectShows(StripCr(line));
      var q := Line(FRESH.(buffer := rest), StripCr(line)).0;
      StateShown(q);
      assert [] + Drain(q).1 == Drain(q).1;
      assert Drain(q).1[0] != Drain(FRESH.(buffer := rest)).1[0];
      assert Fed(FRESH, BOM + line + "\n" + rest).1 != Fed(FRESH, line + "\n" + rest).1;
    }
  }

  /** The mark eats the first event of a stream. */
  lemma MarkEatsData(value: string)
    requires '\n' !in value && !EndsCr(value)
    ensures Fed(FRESH, "data: " + value + "\n\n").1 == [SseEvent(None, "message", value)]
    ensures Fed(FRESH, BOM + ("data: " + value) + "\n" + "\n").1 == []
  {
    hide *;
    FreshAtRest();
    OneDataEvent(FRESH, value);
    MarkDropsLine("data: " + value, "\n");
    BlankAlone();
  }

  lemma BlankAlone()
    ensures Fed(FRESH, "\n").1 == []
  {
    FreshAtRest();
    FedAtRest(FRESH, "\n");
    DrainBlank(FRESH.(buffer := "\n"), "");
  }
}
