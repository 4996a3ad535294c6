/** What the parse of an event stream means: the events a server writes come back, however it ends its lines. */
module EventStreamsRoundTrip {
  import opened Wrappers
  import opened Causes
  import opened EventStreams

  /** One line of an event: its data, or a field or comment the parser does not know. */
  datatype Line = Data(text: Text) | Other(text: Text)

  datatype Ending = ByLf | ByCr | ByCrLf

  function Mark(ending: Ending): Text {
    match ending
    case ByLf => [LF]
    case ByCr => [CR]
    case ByCrLf => [CR, LF]
  }

  predicate OneLine(text: Text) { LF !in text && CR !in text }

  /** What may be written as one line: no break in it, and an unknown line is neither blank nor a data line. */
  predicate Writable(line: Line) {
    OneLine(line.text) && (line.Other? ==> line.text != [] && !(DATA <= line.text))
  }

  predicate EventWritable(lines: seq<Line>) { forall line :: line in lines ==> Writable(line) }

  predicate AllWritable(events: seq<seq<Line>>) { forall lines :: lines in events ==> EventWritable(lines) }

  function Written(line: Line): Text { if line.Data? then DATA + [SPACE] + line.text else line.text }

  function WrittenAll(lines: seq<Line>): seq<Text> {
    if lines == [] then [] else [Written(lines[0])] + WrittenAll(lines[1..])
  }

  /** Every line and its ending; a blank one ends an event. */
  function Flowing(lines: seq<Text>, ending: Ending): Text {
    if lines == [] then [] else lines[0] + Mark(ending) + Flowing(lines[1..], ending)
  }

  function Lines(events: seq<seq<Line>>): seq<Text> {
    if events == [] then [] else WrittenAll(events[0]) + [[]] + Lines(events[1..])
  }

  function DataOf(lines: seq<Line>): seq<Text> {
    if lines == [] then [] else (if lines[0].Data? then [lines[0].text] else []) + DataOf(lines[1..])
  }

  /** The lines of one event, one under the other. */
  function Under(lines: seq<Text>): Text
    requires lines != []
  {
    if |lines| == 1 then lines[0] else lines[0] + [LF] + Under(lines[1..])
  }

  function MeantOne(lines: seq<Line>): seq<Text> { if DataOf(lines) == [] then [] else [Under(DataOf(lines))] }

  /** What the reader must be given: one text for every event that has data. */
  function Meant(events: seq<seq<Line>>): seq<Text> {
    if events == [] then [] else MeantOne(events[0]) + Meant(events[1..])
  }

  // ---------------------------------------------------------------- lines

  lemma {:induction false} SplitReadsLine(line: Text, ending: Ending, rest: Text, current: Text)
    requires OneLine(line) && (ending == ByCr ==> rest == [] || rest[0] != LF)
    ensures Split(line + Mark(ending) + rest, current) == [current + line] + Split(rest, [])
    decreases |line|
  {
    var text := line + Mark(ending) + rest;
    if line == [] {
      assert text == Mark(ending) + rest && current + line == current;
      match ending
      case ByCrLf => assert text[2..] == rest;
      case _ => assert text[1..] == rest;
    } else {
      assert text[1..] == line[1..] + Mark(ending) + rest && text[0] == line[0] && line[0] in line;
      assert OneLine(line[1..]);
      SplitReadsLine(line[1..], ending, rest, current + [line[0]]);
      assert (current + [line[0]]) + line[1..] == current + line;
    }
  }

  predicate AllOneLine(lines: seq<Text>) { forall line :: line in lines ==> OneLine(line) }

  lemma {:induction false} SplitReadsAll(lines: seq<Text>, ending: Ending)
    requires AllOneLine(lines)
    ensures Split(Flowing(lines, ending), []) == lines
  {
    if lines != [] {
      var rest := Flowing(lines[1..], ending);
      SplitReadsAll(lines[1..], ending);
      if ending == ByCr && lines[1..] != [] {
        assert lines[1] in lines && rest[0] == (lines[1] + Mark(ending))[0];
      }
      SplitReadsLine(lines[0], ending, rest, []);
      assert [] + lines[0] == lines[0];
    }
  }

  // ---------------------------------------------------------------- events

  lemma {:induction false} JoinAppends(lines: seq<Text>, last: Text)
    requires lines != []
    ensures Join(lines + [last]) == Join(lines) + [LF] + last
  {
    assert (lines + [last])[..|lines|] == lines;
  }

  lemma {:induction false} UnderAppends(lines: seq<Text>, last: Text)
    requires lines != []
    ensures Under(lines + [last]) == Under(lines) + [LF] + last
  {
    var more := lines + [last];
    if |lines| == 1 {
      assert more[1..] == [last];
    } else {
      assert more[1..] == lines[1..] + [last];
      UnderAppends(lines[1..], last);
      assert lines[0] + [LF] + (Under(lines[1..]) + [LF] + last) == (lines[0] + [LF] + Under(lines[1..])) + [LF] + last;
    }
  }

  /** The parser puts the data lines of an event under each other. */
  lemma {:induction false} JoinIsUnder(lines: seq<Text>)
    requires lines != []
    ensures Join(lines) == Under(lines)
    decreases |lines|
  {
    if |lines| > 1 {
      var front, last := lines[..|lines| - 1], lines[|lines| - 1];
      assert lines == front + [last];
      JoinIsUnder(front);
      JoinAppends(front, last);
      UnderAppends(front, last);
    }
  }

  lemma DataLineReads(f: Folded, text: Text)
    ensures Consumed(f, DATA + [SPACE] + text) == f.(dataLines := f.dataLines + [text])
  {
    var line := DATA + [SPACE] + text;
    assert DATA <= line && line[|DATA|..] == [SPACE] + text && ([SPACE] + text)[1..] == text;
  }

  /** Within an event, these lines add exactly this data. */
  predicate Gathers(lines: seq<Text>, data: seq<Text>, f: Folded) {
    ConsumedAll(f, lines) == f.(dataLines := f.dataLines + data)
  }

  lemma GathersThen(a: seq<Text>, b: seq<Text>, x: seq<Text>, y: seq<Text>, f: Folded)
    requires Gathers(a, x, f) && Gathers(b, y, f.(dataLines := f.dataLines + x))
    ensures Gathers(a + b, x + y, f)
  {
    ConsumedAppends(f, a, b);
    assert (f.dataLines + x) + y == f.dataLines + (x + y);
  }

  lemma LineReads(f: Folded, line: Line)
    requires Writable(line)
    ensures Gathers([Written(line)], if line.Data? then [line.text] else [], f)
  {
    ConsumedOne(f, [], Written(line));
    assert [] + [Written(line)] == [Written(line)];
    if line.Data? {
      DataLineReads(f, line.text);
    } else {
      assert f.dataLines + [] == f.dataLines;
    }
  }

  lemma {:induction false} EventReads(f: Folded, lines: seq<Line>)
    requires EventWritable(lines)
    ensures Gathers(WrittenAll(lines), DataOf(lines), f)
    decreases |lines|
  {
    if lines == [] {
      assert f.dataLines + [] == f.dataLines;
    } else {
      assert lines[0] in lines;
      var own := if lines[0].Data? then [lines[0].text] else [];
      LineReads(f, lines[0]);
      EventReads(f.(dataLines := f.dataLines + own), lines[1..]);
      GathersThen([Written(lines[0])], WrittenAll(lines[1..]), own, DataOf(lines[1..]), f);
    }
  }

  /** Between two events, these lines add exactly these events. */
  predicate Adds(lines: seq<Text>, events: seq<Text>, done: seq<Text>) {
    ConsumedAll(Folded([], done), lines) == Folded([], done + events)
  }

  lemma OneEventReads(done: seq<Text>, lines: seq<Line>)
    requires EventWritable(lines)
    ensures Adds(WrittenAll(lines) + [[]], MeantOne(lines), done)
  {
    var f, data := Folded([], done), DataOf(lines);
    ConsumedOne(f, WrittenAll(lines), []);
    EventReads(f, lines);
    assert [] + data == data;
    if data == [] {
      assert done + [] == done;
    } else {
      JoinIsUnder(data);
    }
  }

  lemma AddsThen(a: seq<Text>, b: seq<Text>, x: seq<Text>, y: seq<Text>, done: seq<Text>)
    requires Adds(a, x, done) && Adds(b, y, done + x)
    ensures Adds(a + b, x + y, done)
  {
    ConsumedAppends(Folded([], done), a, b);
    assert (done + x) + y == done + (x + y);
  }

  lemma AddsNothing(done: seq<Text>)
    ensures Adds([], [], done)
  {
    assert done + [] == done;
  }

  lemma {:induction false} EventsRead(done: seq<Text>, events: seq<seq<Line>>)
    requires AllWritable(events)
    ensures Adds(Lines(events), Meant(events), done)
    decreases |events|
  {
    if events == [] {
      AddsNothing(done);
    } else {
      assert events[0] in events && EventWritable(events[0]);
      var first, own := WrittenAll(events[0]) + [[]], MeantOne(events[0]);
      EventsRead(done + own, events[1..]);
      OneEventReads(done, events[0]);
      AddsThen(first, Lines(events[1..]), own, Meant(events[1..]), done);
    }
  }

  lemma {:induction false} WrittenOneLine(lines: seq<Line>)
    requires EventWritable(lines)
    ensures AllOneLine(WrittenAll(lines))
  {
    if lines != [] {
      assert lines[0] in lines;
      WrittenOneLine(lines[1..]);
      assert forall u :: u in DATA ==> u != LF && u != CR;
    }
  }

  lemma {:induction false} LinesOneLine(events: seq<seq<Line>>)
    requires AllWritable(events)
    ensures AllOneLine(Lines(events))
  {
    if events != [] {
      assert events[0] in events;
      WrittenOneLine(events[0]);
      LinesOneLine(events[1..]);
    }
  }

  predicate Markless(text: Text) { text == [] || text[0] != BOM }

  /**
    Round trip: a stream of events, written with any of the three line endings, with or without a byte order
    mark, is read back as exactly the data of each event that has any, its lines one under the other; unknown
    fields and comments change nothing.
  */
  lemma WrittenEventsComeBack(events: seq<seq<Line>>, ending: Ending, mark: bool)
    requires AllWritable(events)
    requires mark || Markless(Flowing(Lines(events), ending))
    ensures OneShot((if mark then [BOM] else []) + Flowing(Lines(events), ending)) == Meant(events)
  {
    var text := Flowing(Lines(events), ending);
    LinesOneLine(events);
    SplitReadsAll(Lines(events), ending);
    EventsRead([], events);
    assert ([BOM] + text)[1..] == text && [] + text == text && [] + Meant(events) == Meant(events);
    assert Stripped((if mark then [BOM] else []) + text) == text;
  }
}
