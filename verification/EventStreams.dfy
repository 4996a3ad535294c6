/**
  The incremental parser of server-sent events, and the one-shot parse it must equal.

  Lines end in CRLF, LF or CR, as in section 9.2.5 of the HTML Living Standard.  The fields are the
  parser's own: only `data:` counts, and an unfinished last event is emitted at the end of the stream.
*/
module EventStreams {
  import opened Wrappers
  import opened Causes
  import opened Streams

  const LF: CodeUnit := 0x0A
  const CR: CodeUnit := 0x0D
  const SPACE: CodeUnit := 0x20
  const BOM: CodeUnit := 0xFEFF

  /** `data:` */
  const DATA: Text := [0x64, 0x61, 0x74, 0x61, 0x3A]

  // ---------------------------------------------------------------- the one-shot parse

  /** One leading byte order mark is dropped. */
  function Stripped(text: Text): Text {
    if text != [] && text[0] == BOM then text[1..] else text
  }

  /** All lines of a text, the last one even if nothing ends it; `current` is the line read so far. */
  function Split(text: Text, current: Text): seq<Text> {
    if text == [] then (if current == [] then [] else [current])
    else if text[0] == CR && |text| > 1 && text[1] == LF then [current] + Split(text[2..], [])
    else if text[0] == CR || text[0] == LF then [current] + Split(text[1..], [])
    else Split(text[1..], current + [text[0]])
  }

  function Join(lines: seq<Text>): Text {
    if lines == [] then [] else if |lines| == 1 then lines[0]
        else Join(lines[..|lines| - 1]) + [LF] + lines[|lines| - 1]
  }

  datatype Folded = Folded(dataLines: seq<Text>, events: seq<Text>)

  function Unspaced(field: Text): Text {
    if field != [] && field[0] == SPACE then field[1..] else field
  }

  /** A blank line ends an event that has data; a data line adds to it; every other line is ignored. */
  function Consumed(f: Folded, line: Text): Folded {
    if line == [] then Folded([], if f.dataLines == [] then f.events else f.events + [Join(f.dataLines)])
    else if DATA <= line then f.(dataLines := f.dataLines + [Unspaced(line[|DATA|..])])
    else f
  }

  function ConsumedAll(f: Folded, lines: seq<Text>): Folded {
    if lines == [] then f else Consumed(ConsumedAll(f, lines[..|lines| - 1]), lines[|lines| - 1])
  }

  function Ended(f: Folded): seq<Text> {
    if f.dataLines == [] then f.events else f.events + [Join(f.dataLines)]
  }

  function OneShot(text: Text): seq<Text> { Ended(ConsumedAll(Folded([], []), Split(Stripped(text), []))) }

  // ---------------------------------------------------------------- incremental lines

  datatype Break = Break(idx: nat, len: nat)

  /** The first line break that more text cannot change: a CR at the very end may still become a CRLF. */
  function NextBreak(s: Text): (b: Option<Break>)
    ensures b.Some? ==> b.value.len > 0 && b.value.idx + b.value.len <= |s|
  {
    if s == [] then None
    else if s[0] == LF then Some(Break(0, 1))
    else if s[0] == CR then
      if |s| == 1 then None else if s[1] == LF then Some(Break(0, 2)) else Some(Break(0, 1))
    else
      var later := NextBreak(s[1..]);
      if later.None? then None else Some(Break(later.value.idx + 1, later.value.len))
  }

  datatype Never = Never

  function LineAt(s: Text): Head<Text, Never> {
    var b := NextBreak(s);
    if b.None? then Short else Item(s[..b.value.idx], b.value.idx + b.value.len)
  }

  function Lining(): Splitter<CodeUnit, Text, Never> { s => LineAt(s) }

  lemma {:induction false} BreakStays(a: Text, b: Text)
    requires NextBreak(a).Some?
    ensures NextBreak(a + b) == NextBreak(a)
  {
    if a[0] != LF && a[0] != CR {
      assert (a + b)[1..] == a[1..] + b;
      BreakStays(a[1..], b);
    }
  }

  lemma LiningSettles()
    ensures Settles(Lining())
  {
    forall a: Text, b: Text ensures Stays(Lining(), a, b) {
      if NextBreak(a).Some? {
        BreakStays(a, b);
        var brk := NextBreak(a).value;
        assert (a + b)[..brk.idx] == a[..brk.idx];
      }
    }
  }

  /** At the end of the stream a lone CR left over ends the line it stands behind. */
  function Leftover(rest: Text): seq<Text> {
    if rest == [] then [] else if rest[|rest| - 1] == CR then [rest[..|rest| - 1]] else [rest]
  }

  /** The first settled break is where the one-shot split cuts first. */
  lemma {:induction false} SplitAtBreak(s: Text, current: Text)
    requires NextBreak(s).Some?
    ensures var b := NextBreak(s).value;
            Split(s, current) == [current + s[..b.idx]] + Split(s[b.idx + b.len..], [])
  {
    if s[0] != LF && s[0] != CR {
      var tail := s[1..];
      SplitAtBreak(tail, current + [s[0]]);
      var b := NextBreak(tail).value;
      assert s[..b.idx + 1] == [s[0]] + tail[..b.idx];
      assert (current + [s[0]]) + tail[..b.idx] == current + s[..b.idx + 1];
      assert tail[b.idx + b.len..] == s[b.idx + 1 + b.len..];
    } else {
      assert current + s[..0] == current;
    }
  }

  /** With no settled break, one line is left, whether or not a CR stands behind it. */
  lemma {:induction false} SplitWithoutBreak(s: Text, current: Text)
    requires NextBreak(s).None? && s != []
    ensures Split(s, current) == [current + Leftover(s)[0]]
  {
    if s[0] == CR {
      assert s[..0] == [] && Leftover(s)[0] == [] && current + [] == current;
    } else if |s| == 1 {
      assert s == [s[0]] && Leftover(s)[0] == s;
      assert Split(s[1..], current + [s[0]]) == [current + [s[0]]];
    } else {
      var tail := s[1..];
      SplitWithoutBreak(tail, current + [s[0]]);
      assert Leftover(s)[0] == [s[0]] + Leftover(tail)[0];
      assert (current + [s[0]]) + Leftover(tail)[0] == current + Leftover(s)[0];
    }
  }

  /** The incremental lines, then what is left over, are the lines of the one-shot split. */
  lemma {:induction false} LinesAreTheSplit(s: Text)
    ensures var d := Decode(Lining(), s);
            d.fault.None? && Split(s, []) == d.items + Leftover(d.rest)
    decreases |s|
  {
    var b := NextBreak(s);
    if b.Some? {
      var line, next := s[..b.value.idx], b.value.idx + b.value.len;
      SplitAtBreak(s, []);
      LinesAreTheSplit(s[next..]);
      DecodeItem(Lining(), s, line, next);
      assert [] + line == line;
      var later := Decode(Lining(), s[next..]);
      assert [line] + (later.items + Leftover(later.rest)) == ([line] + later.items) + Leftover(later.rest);
    } else {
      assert Decode(Lining(), s) == Decoded([], s, None);
      assert [] + Leftover(s) == Leftover(s);
      if s != [] {
        SplitWithoutBreak(s, []);
        assert [] + Leftover(s)[0] == Leftover(s)[0];
      }
    }
  }

  // ---------------------------------------------------------------- the parser

  datatype Parser = Parser(buffer: Text, dataLines: seq<Text>, bomChecked: bool)

  const FRESH := Parser([], [], false)

  datatype Pushed = Pushed(parser: Parser, events: seq<Text>)

  function Push(p: Parser, chunk: Text): Pushed {
    var joined := p.buffer + chunk;
    var text := if p.bomChecked then joined else Stripped(joined);
    var d := Decode(Lining(), text);
    var f := ConsumedAll(Folded(p.dataLines, []), d.items);
    Pushed(Parser(d.rest, f.dataLines, p.bomChecked || joined != []), f.events)
  }

  function Flush(p: Parser): seq<Text> {
    Ended(ConsumedAll(Folded(p.dataLines, []), Leftover(p.buffer)))
  }

  function PushAll(chunks: seq<Text>): Pushed {
    if chunks == [] then Pushed(FRESH, [])
    else
      var before := PushAll(chunks[..|chunks| - 1]);
      var now := Push(before.parser, chunks[|chunks| - 1]);
      now.(events := before.events + now.events)
  }

  lemma ConsumedOne(f: Folded, lines: seq<Text>, line: Text)
    ensures ConsumedAll(f, lines + [line]) == Consumed(ConsumedAll(f, lines), line)
  {
    assert (lines + [line])[..|lines|] == lines;
  }

  lemma {:induction false} ConsumedAppends(f: Folded, a: seq<Text>, b: seq<Text>)
    ensures ConsumedAll(f, a + b) == ConsumedAll(ConsumedAll(f, a), b)
    decreases |b|
  {
    if b == [] {
      assert a + b == a;
    } else {
      assert (a + b)[..|a + b| - 1] == a + b[..|b| - 1];
      ConsumedAppends(f, a, b[..|b| - 1]);
    }
  }

  /** Events already emitted play no part in what comes next. */
  lemma {:induction false} EventsOnlyGrow(f: Folded, lines: seq<Text>)
    ensures var g := ConsumedAll(Folded(f.dataLines, []), lines);
            ConsumedAll(f, lines) == Folded(g.dataLines, f.events + g.events)
    decreases |lines|
  {
    if lines != [] {
      EventsOnlyGrow(f, lines[..|lines| - 1]);
    } else {
      assert f.events + [] == f.events;
    }
  }

  /** Where the parser stands after a text, however it came. */
  ghost predicate StandsAfter(p: Pushed, text: Text) {
    var d := Decode(Lining(), Stripped(text));
    && p.parser.bomChecked == (text != []) && p.parser.buffer == d.rest
    && Folded(p.parser.dataLines, p.events) == ConsumedAll(Folded([], []), d.items)
  }

  lemma FirstPush(before: Pushed, chunk: Text)
    requires StandsAfter(before, [])
    ensures var now := Push(before.parser, chunk);
            StandsAfter(now.(events := before.events + now.events), chunk)
  {
    assert before.parser.buffer + chunk == chunk;
    var now := Push(before.parser, chunk);
    assert before.events + now.events == now.events;
  }

  lemma LaterPush(before: Pushed, text: Text, chunk: Text)
    requires StandsAfter(before, text) && text != []
    ensures var now := Push(before.parser, chunk);
            StandsAfter(now.(events := before.events + now.events), text + chunk)
  {
    LiningSettles();
    var d := Decode(Lining(), Stripped(text));
    LinesAreTheSplit(Stripped(text));
    assert Stripped(text + chunk) == Stripped(text) + chunk;
    DecodeExtends(Lining(), Stripped(text), chunk);
    var now := Decode(Lining(), d.rest + chunk);
    ConsumedAppends(Folded([], []), d.items, now.items);
    EventsOnlyGrow(ConsumedAll(Folded([], []), d.items), now.items);
  }

  lemma {:induction false} PushedSoFar(chunks: seq<Text>)
    ensures StandsAfter(PushAll(chunks), Concat(chunks))
    decreases |chunks|
  {
    if chunks != [] {
      var n := |chunks| - 1;
      PushedSoFar(chunks[..n]);
      if Concat(chunks[..n]) == [] {
        FirstPush(PushAll(chunks[..n]), chunks[n]);
        assert Concat(chunks) == chunks[n];
      } else {
        LaterPush(PushAll(chunks[..n]), Concat(chunks[..n]), chunks[n]);
      }
    }
  }

  /**
    For every way of cutting a text into chunks, the events of all pushes and of the final flush are, in
    order, those of the one-shot parse.
  */
  lemma PushesThenFlushAreOneShot(chunks: seq<Text>)
    ensures PushAll(chunks).events + Flush(PushAll(chunks).parser) == OneShot(Concat(chunks))
  {
    var p, body := PushAll(chunks), Stripped(Concat(chunks));
    var d := Decode(Lining(), body);
    PushedSoFar(chunks);
    LinesAreTheSplit(body);
    ConsumedAppends(Folded([], []), d.items, Leftover(d.rest));
    EndsOn(ConsumedAll(Folded([], []), d.items), p.parser.buffer, p);
  }

  /** Flushing emits what the leftover adds to the events so far. */
  lemma EndsOn(all: Folded, rest: Text, p: Pushed)
    requires p.parser.buffer == rest && all == Folded(p.parser.dataLines, p.events)
    ensures p.events + Flush(p.parser) == Ended(ConsumedAll(all, Leftover(rest)))
  {
    EventsOnlyGrow(all, Leftover(rest));
    var g := ConsumedAll(Folded(all.dataLines, []), Leftover(rest));
    if g.dataLines != [] {
      assert p.events + (g.events + [Join(g.dataLines)]) == (p.events + g.events) + [Join(g.dataLines)];
    }
  }

  class SseParser {
    var buffer: Text
    var dataLines: seq<Text>
    var complete: seq<Text>
    var bomChecked: bool

    ghost function Value(): Parser
      reads this
    {
      Parser(buffer, dataLines, bomChecked)
    }

    constructor ()
      ensures Value() == FRESH && complete == []
    {
      buffer, dataLines, complete, bomChecked := [], [], [], false;
    }

    method ConsumeLine(line: Text)
      modifies this`dataLines, this`complete
      ensures Folded(dataLines, complete) == Consumed(Folded(old(dataLines), old(complete)), line)
    {
      if line == [] {
        if |dataLines| > 0 { complete := complete + [Join(dataLines)]; }
        dataLines := [];
        return;
      }
      if DATA <= line { dataLines := dataLines + [Unspaced(line[|DATA|..])]; }
    }

    /** The first line the buffer settles, if any; a trailing lone CR stays. */
    method TakeLine() returns (line: Option<Text>)
      modifies this`buffer, this`dataLines, this`complete
      ensures line.None? ==>
                && Decode(Lining(), old(buffer)) == Decoded([], buffer, None)
                && buffer == old(buffer) && dataLines == old(dataLines) && complete == old(complete)
      ensures line.Some? ==>
                && |buffer| < |old(buffer)|
                && Decode(Lining(), old(buffer)) == Joined(Decoded([line.value], [], None), Decode(Lining(), buffer))
                && Folded(dataLines, complete) == Consumed(Folded(old(dataLines), old(complete)), line.value)
    {
      var brk := FindBreak(buffer);
      if brk.None? {
        return None;
      }
      line := Some(buffer[..brk.value.idx]);
      DecodeItem(Lining(), buffer, line.value, brk.value.idx + brk.value.len);
      ConsumeLine(line.value);
      buffer := buffer[brk.value.idx + brk.value.len..];
    }

    method Drain()
      modifies this`buffer, this`dataLines, this`complete
      ensures var d := Decode(Lining(), old(buffer));
              buffer == d.rest && Folded(dataLines, complete) == ConsumedAll(Folded(old(dataLines), old(complete)),
                  d.items)
    {
      ghost var whole := Decode(Lining(), buffer);
      ghost var lines: seq<Text> := [];
      while true
        invariant whole == Joined(Decoded(lines, [], None), Decode(Lining(), buffer))
        invariant Folded(dataLines, complete) == ConsumedAll(Folded(old(dataLines), old(complete)), lines)
        decreases |buffer|
      {
        var line := TakeLine();
        if line.None? { break; }
        JoinedOnce(Decoded(lines, [], None), Decoded([line.value], [], None), Decode(Lining(), buffer));
        ConsumedOne(Folded(old(dataLines), old(complete)), lines, line.value);
        lines := lines + [line.value];
      }
      assert lines + [] == lines;
    }

    method PushChunk(chunk: Text) returns (events: seq<Text>)
      requires complete == []
      modifies this
      ensures complete == []
      ensures Pushed(Value(), events) == Push(old(Value()), chunk)
    {
      buffer := buffer + chunk;
      if !bomChecked {
        if |buffer| > 0 {
          if buffer[0] == BOM { buffer := buffer[1..]; }
          bomChecked := true;
        }
      }
      Drain();
      events := complete;
      complete := [];
    }

    method FlushRest() returns (events: seq<Text>)
      requires complete == []
      modifies this
      ensures events == Flush(old(Value()))
      ensures buffer == [] && dataLines == [] && complete == []
    {
      if buffer != [] {
        var line := if buffer[|buffer| - 1] == CR then buffer[..|buffer| - 1] else buffer;
        ghost var one := Leftover(buffer);
        assert one == [line] && one[..0] == [];
        assert ConsumedAll(Folded(dataLines, []), one) == Consumed(ConsumedAll(Folded(dataLines, []), one[..0]), line);
        ConsumeLine(line);
      }
      buffer := [];
      if |dataLines| > 0 {
        complete := complete + [Join(dataLines)];
        dataLines := [];
      }
      events := complete;
      complete := [];
    }
  }

  method FindBreak(s: Text) returns (b: Option<Break>)
    ensures b == NextBreak(s)
  {
    var i := 0;
    while i < |s|
      invariant i <= |s|
      invariant NextBreak(s) == (var later := NextBreak(s[i..]);
                                 if later.None? then None else Some(Break(later.value.idx + i, later.value.len)))
    {
      assert s[i..][1..] == s[i + 1..];
      if s[i] == LF {
        return Some(Break(i, 1));
      }
      if s[i] == CR {
        if i + 1 < |s| && s[i + 1] == LF {
          return Some(Break(i, 2));
        }
        if i + 1 < |s| {
          return Some(Break(i, 1));
        }
        return None;
      }
      i := i + 1;
    }
    return None;
  }
}
