/**
  The client's side of a connection: wait for READY, then read, with one decoder for both phases.

  Data, calls of `next`, their timeouts and the end of the socket arrive in any order.  A caller that
  gets `null` cannot tell a JSON null from the end, so nulls are kept apart in what is proved.
*/
module ReadyGate {
  import opened Wrappers
  import opened Streams
  import opened Frames

  datatype Phase = Gate | Reading | NotReady

  /**
    `given` is every message a `next` resolved with; `sound` the bytes of every push that did not throw.
  */
  datatype State = State(phase: Phase, rest: seq<Byte>, dead: bool, buffered: seq<Json>, waiting: bool, closed: bool,
                         given: seq<Json>, sound: seq<Byte>)

  datatype Event = Data(chunk: seq<Byte>) | Next | Timeout | End

  const START := State(Gate, [], false, [], false, false, [], [])

  type Ready = Json -> bool

  /** The messages after the first READY; everything before it is dropped. */
  function AfterReady(ready: Ready, messages: seq<Json>): Option<seq<Json>> {
    if messages == [] then None
    else if ready(messages[0]) then Some(messages[1..])
    else AfterReady(ready, messages[1..])
  }

  /** A waiter takes the message; otherwise it is buffered, unless it is null. */
  function Deliver(s: State, message: Json): State {
    if s.waiting then s.(waiting := false, given := s.given + [message])
    else if message != Null then s.(buffered := s.buffered + [message])
    else s
  }

  function DeliverAll(s: State, messages: seq<Json>): State {
    if messages == [] then s else Deliver(DeliverAll(s, messages[..|messages| - 1]), messages[|messages| - 1])
  }

  function OnData(c: Codec, ready: Ready, s: State, chunk: seq<Byte>): State {
    if s.phase == NotReady then s
    else
      var d := Decode(Framing(c), s.rest + chunk);
      if s.dead || d.fault.Some? then
        if s.phase == Gate then s.(phase := NotReady, dead := true)
        else s.(dead := true, closed := true, waiting := false)
      else
        Heard(ready, s.(rest := d.rest, sound := s.sound + chunk), d.items)
  }

  /** Messages decoded from one chunk: everything after READY in it belongs to the reader. */
  function Heard(ready: Ready, s: State, messages: seq<Json>): State {
    if s.phase == Reading then DeliverAll(s, messages)
    else
      var after := AfterReady(ready, messages);
      if after.None? then s else s.(phase := Reading, buffered := after.value)
  }

  function OnNext(s: State): State {
    if s.phase != Reading then s
    else if s.buffered != [] then s.(given := s.given + [s.buffered[0]], buffered := s.buffered[1..])
    else if s.closed then s
    else s.(waiting := true)
  }

  function Step(c: Codec, ready: Ready, s: State, e: Event): State {
    match e
    case Data(chunk) => OnData(c, ready, s, chunk)
    case Next => OnNext(s)
    case Timeout => if s.phase == Gate then s.(phase := NotReady) else s.(waiting := false)
    case End => if s.phase == Gate then s.(phase := NotReady) else s.(closed := true, waiting := false)
  }

  function Run(c: Codec, ready: Ready, events: seq<Event>): State {
    if events == [] then START else Step(c, ready, Run(c, ready, events[..|events| - 1]), events[|events| - 1])
  }

  function Chunks(events: seq<Event>): seq<seq<Byte>> {
    if events == [] then []
    else
      var before, e := Chunks(events[..|events| - 1]), events[|events| - 1];
      if e.Data? then before + [e.chunk] else before
  }

  function NonNull(messages: seq<Json>): seq<Json> {
    if messages == [] then []
    else
      var before, last := NonNull(messages[..|messages| - 1]), messages[|messages| - 1];
      if last == Null then before else before + [last]
  }

  lemma NonNullOne(a: seq<Json>, m: Json)
    ensures NonNull(a + [m]) == if m == Null then NonNull(a) else NonNull(a) + [m]
  {
    assert (a + [m])[..|a|] == a;
  }

  lemma {:induction false} NonNullAppends(a: seq<Json>, b: seq<Json>)
    ensures NonNull(a + b) == NonNull(a) + NonNull(b)
    decreases |b|
  {
    if b == [] {
      assert a + b == a;
    } else {
      var n := |b| - 1;
      assert a + b == (a + b[..n]) + [b[n]];
      NonNullAppends(a, b[..n]);
      NonNullOne(a + b[..n], b[n]);
    }
  }

  lemma {:induction false} NonNullOfAll(a: seq<Json>)
    requires Null !in a
    ensures NonNull(a) == a
    decreases |a|
  {
    if a != [] {
      assert a == a[..|a| - 1] + [a[|a| - 1]];
      NonNullOfAll(a[..|a| - 1]);
    }
  }

  lemma {:induction false} AfterReadyAppends(ready: Ready, a: seq<Json>, b: seq<Json>)
    ensures AfterReady(ready, a + b) ==
              if AfterReady(ready, a).Some? then Some(AfterReady(ready, a).value + b) else AfterReady(ready, b)
  {
    if a == [] {
      assert a + b == b;
    } else {
      assert (a + b)[1..] == a[1..] + b;
      AfterReadyAppends(ready, a[1..], b);
    }
  }

  /** Given everything heard so far: a waiter is there only when nothing is buffered, so the order is kept. */
  ghost predicate Keeps(ready: Ready, s: State, heard: seq<Json>) {
    && (s.waiting ==> s.buffered == [] && !s.closed)
    && (s.phase == Gate ==>
          && AfterReady(ready, heard).None? && s.given == [] && s.buffered == []
          && !s.dead && !s.waiting && !s.closed)
    && (s.phase == Reading ==>
          && AfterReady(ready, heard).Some?
          && NonNull(s.given + s.buffered) == NonNull(AfterReady(ready, heard).value)
          && (Null in s.given + s.buffered ==> Null in AfterReady(ready, heard).value))
    && (s.phase == NotReady ==> s.given == [] && s.buffered == [])
  }

  ghost predicate InOrder(c: Codec, ready: Ready, s: State) {
    var d := Decode(Framing(c), s.sound);
    d.fault.None? && (!s.dead ==> d.rest == s.rest) && Keeps(ready, s, d.items)
  }

  /** Handing on keeps the order: what was given followed by what is buffered only grows at its end. */
  ghost predicate HandsOn(s: State, t: State, messages: seq<Json>) {
    && NonNull(t.given + t.buffered) == NonNull(s.given + s.buffered) + NonNull(messages)
    && (Null in t.given + t.buffered ==> Null in s.given + s.buffered || Null in messages)
    && (t.waiting ==> s.waiting && t.buffered == [])
    && t == s.(waiting := t.waiting, given := t.given, buffered := t.buffered)
  }

  lemma DeliverHandsOn(s: State, m: Json)
    requires s.waiting ==> s.buffered == []
    ensures HandsOn(s, Deliver(s, m), [m])
  {
    var t := Deliver(s, m);
    NonNullOne([], m);
    assert [] + [m] == [m];
    if s.waiting || m != Null {
      assert t.given + t.buffered == (s.given + s.buffered) + [m];
      NonNullOne(s.given + s.buffered, m);
    }
  }

  lemma {:induction false} DeliverAllHandsOn(s: State, messages: seq<Json>)
    requires s.waiting ==> s.buffered == []
    ensures HandsOn(s, DeliverAll(s, messages), messages)
    decreases |messages|
  {
    if messages != [] {
      var n := |messages| - 1;
      DeliverAllHandsOn(s, messages[..n]);
      DeliverHandsOn(DeliverAll(s, messages[..n]), messages[n]);
      NonNullAppends(messages[..n], [messages[n]]);
      assert messages == messages[..n] + [messages[n]];
    }
  }

  lemma HeardKeeps(ready: Ready, s: State, heard: seq<Json>, messages: seq<Json>)
    requires Keeps(ready, s, heard) && s.phase != NotReady
    ensures Keeps(ready, Heard(ready, s, messages), heard + messages)
    ensures Heard(ready, s, messages).(phase := s.phase, waiting := s.waiting, given := s.given,
        buffered := s.buffered) == s
  {
    AfterReadyAppends(ready, heard, messages);
    if s.phase == Reading {
      DeliverAllHandsOn(s, messages);
      NonNullAppends(AfterReady(ready, heard).value, messages);
    } else {
      var t := Heard(ready, s, messages);
      assert t.given + t.buffered == t.buffered;
    }
  }

  lemma DataKeepsOrder(c: Codec, ready: Ready, s: State, chunk: seq<Byte>)
    requires InOrder(c, ready, s)
    ensures InOrder(c, ready, OnData(c, ready, s, chunk))
  {
    FramingSettles(c);
    var d := Decode(Framing(c), s.rest + chunk);
    if s.phase != NotReady && !s.dead && d.fault.None? {
      DecodeExtends(Framing(c), s.sound, chunk);
      HeardKeeps(ready, s.(rest := d.rest, sound := s.sound + chunk), Decode(Framing(c), s.sound).items, d.items);
    }
  }

  lemma NextKeepsOrder(c: Codec, ready: Ready, s: State)
    requires InOrder(c, ready, s)
    ensures InOrder(c, ready, OnNext(s))
  {
    if s.buffered != [] {
      assert (s.given + [s.buffered[0]]) + s.buffered[1..] == s.given + s.buffered;
    }
  }

  lemma StopKeepsOrder(c: Codec, ready: Ready, s: State, e: Event)
    requires InOrder(c, ready, s) && (e.Timeout? || e.End?)
    ensures InOrder(c, ready, Step(c, ready, s, e))
  {
  }

  /** Every byte received so far was decoded, unless the connection was given up. */
  predicate AllSound(s: State, events: seq<Event>) {
    s.phase == NotReady || s.dead || s.sound == Concat(Chunks(events))
  }

  lemma StepStaysSound(c: Codec, ready: Ready, s: State, before: seq<Event>, e: Event)
    requires AllSound(s, before)
    ensures AllSound(Step(c, ready, s, e), before + [e])
  {
    assert (before + [e])[..|before|] == before;
    if e.Data? {
      ConcatOne(Chunks(before), e.chunk);
      DeliveryIsElsewhere(s.(rest := Decode(Framing(c), s.rest + e.chunk).rest, sound := s.sound + e.chunk),
          Decode(Framing(c), s.rest + e.chunk).items);
    }
  }

  lemma {:induction false} DeliveryIsElsewhere(s: State, messages: seq<Json>)
    ensures DeliverAll(s, messages).sound == s.sound
    decreases |messages|
  {
    if messages != [] { DeliveryIsElsewhere(s, messages[..|messages| - 1]); }
  }

  lemma {:induction false} RunKeepsOrder(c: Codec, ready: Ready, events: seq<Event>)
    ensures InOrder(c, ready, Run(c, ready, events))
    ensures AllSound(Run(c, ready, events), events)
    decreases |events|
  {
    FramingSettles(c);
    if events != [] {
      var before, e := events[..|events| - 1], events[|events| - 1];
      RunKeepsOrder(c, ready, before);
      StepStaysSound(c, ready, Run(c, ready, before), before, e);
      assert events == before + [e];
      match e
      case Data(chunk) =>
        DataKeepsOrder(c, ready, Run(c, ready, before), chunk);
      case Next => NextKeepsOrder(c, ready, Run(c, ready, before));
      case Timeout => StopKeepsOrder(c, ready, Run(c, ready, before), e);
      case End => StopKeepsOrder(c, ready, Run(c, ready, before), e);
    }
  }

  /**
    Nothing is lost at the hand-off or after it: in every run, however the bytes were cut and whenever the
    caller asked or timed out, what was handed out and what is still buffered are together, in order, the
    messages after READY, as long as the stream decodes and nobody sends a bare null.
  */
  lemma NothingLost(c: Codec, ready: Ready, events: seq<Event>)
    requires var s := Run(c, ready, events); s.phase == Reading && !s.dead
    ensures var s := Run(c, ready, events);
            var d := Decode(Framing(c), Concat(Chunks(events)));
            && d.fault.None? && AfterReady(ready, d.items).Some?
            && NonNull(s.given + s.buffered) == NonNull(AfterReady(ready, d.items).value)
            && (Null !in AfterReady(ready, d.items).value ==>
                  s.given + s.buffered == AfterReady(ready, d.items).value)
  {
    RunKeepsOrder(c, ready, events);
    var s := Run(c, ready, events);
    var d := Decode(Framing(c), Concat(Chunks(events)));
    if Null !in AfterReady(ready, d.items).value {
      NonNullOfAll(s.given + s.buffered);
      NonNullOfAll(AfterReady(ready, d.items).value);
    }
  }

  /** What the daemon encoded comes back: READY first, then the messages, however the bytes were cut. */
  lemma EncodedComesBack(c: Codec, ready: Ready, events: seq<Event>, hello: Json, messages: seq<Json>)
    requires RoundTrips(c) && ready(hello) && EncodeAll(c, [hello] + messages).Some?
    requires forall j :: j in [hello] + messages ==> Depth(j) <= DEPTH_CAP
    requires Null !in messages && Concat(Chunks(events)) == EncodeAll(c, [hello] + messages).value
    requires var s := Run(c, ready, events); s.phase == Reading && !s.dead
    ensures var s := Run(c, ready, events); s.given + s.buffered == messages
  {
    EncodedDecodes(c, [hello] + messages);
    assert ([hello] + messages)[1..] == messages;
    NothingLost(c, ready, events);
  }

  /** A run that received READY and exactly these messages, and is reading still. */
  predicate Carries(c: Codec, ready: Ready, events: seq<Event>, hello: Json, messages: seq<Json>) {
    var s := Run(c, ready, events);
    Some(Concat(Chunks(events))) == EncodeAll(c, [hello] + messages) && s.phase == Reading && !s.dead
  }

  /**
    The hand-off loses nothing, whatever the cut and whenever the caller asks, exactly when no bare null
    is among the messages: one that arrives after READY while nobody waits is dropped.
  */
  lemma NothingLostIffNoNull(c: Codec, ready: Ready, hello: Json, messages: seq<Json>)
    requires RoundTrips(c) && ready(hello) && EncodeAll(c, [hello] + messages).Some?
    requires forall j :: j in [hello] + messages ==> Depth(j) <= DEPTH_CAP
    ensures (forall events :: Carries(c, ready, events, hello, messages) ==>
               (var s := Run(c, ready, events); s.given + s.buffered == messages))
        <==> Null !in messages
  {
    if Null !in messages {
      forall events | Carries(c, ready, events, hello, messages)
        ensures var s := Run(c, ready, events); s.given + s.buffered == messages
      {
        EncodedComesBack(c, ready, events, hello, messages);
      }
    } else {
      var events := NullsDropped(c, ready, hello, messages);
      NonNullShorter(messages);
      assert Carries(c, ready, events, hello, messages);
    }
  }

  lemma {:induction false} NonNullShorter(messages: seq<Json>)
    ensures |NonNull(messages)| <= |messages| && (Null in messages ==> |NonNull(messages)| < |messages|)
    decreases |messages|
  {
    if messages != [] {
      var n := |messages| - 1;
      NonNullShorter(messages[..n]);
      assert messages == messages[..n] + [messages[n]];
    }
  }

  /** READY in a push of its own, then all the messages before anyone asks: every null among them is gone. */
  lemma NullsDropped(c: Codec, ready: Ready, hello: Json, messages: seq<Json>) returns (events: seq<Event>)
    requires RoundTrips(c) && ready(hello) && EncodeAll(c, [hello] + messages).Some?
    requires forall j :: j in [hello] + messages ==> Depth(j) <= DEPTH_CAP
    ensures Carries(c, ready, events, hello, messages)
    ensures var s := Run(c, ready, events); s.given == [] && s.buffered == NonNull(messages)
  {
    var first, later := EncodedInTwo(c, hello, messages);
    EncodedDecodes(c, messages);
    events := DeliveredInTwo(c, ready, hello, first, later, messages);
  }

  lemma EncodedInTwo(c: Codec, hello: Json, messages: seq<Json>) returns (first: seq<Byte>, later: seq<Byte>)
    requires RoundTrips(c) && EncodeAll(c, [hello] + messages).Some? && Depth(hello) <= DEPTH_CAP
    ensures EncodeAll(c, messages) == Some(later) && EncodeAll(c, [hello] + messages) == Some(first + later)
    ensures Decode(Framing(c), first) == Decoded([hello], [], None)
  {
    assert ([hello] + messages)[1..] == messages && ([hello] + messages)[0] == hello && [hello][1..] == [];
    first, later := EncodeFrame(c, hello).value, EncodeAll(c, messages).value;
    assert EncodeAll(c, [hello]) == Some(first) by { assert first + [] == first; }
    EncodedDecodes(c, [hello]);
  }

  lemma DeliveredInTwo(c: Codec, ready: Ready, hello: Json, first: seq<Byte>, later: seq<Byte>, messages: seq<Json>)
    returns (events: seq<Event>)
    requires ready(hello) && Decode(Framing(c), first) == Decoded([hello], [], None)
    requires Decode(Framing(c), later) == Decoded(messages, [], None)
    ensures Concat(Chunks(events)) == first + later
    ensures Run(c, ready, events) == Opened(first + later).(buffered := NonNull(messages))
  {
    var e1 := [Data(first)];
    events := e1 + [Data(later)];
    assert [] + e1 == e1;
    RunOne(c, ready, [], Data(first));
    RunOne(c, ready, e1, Data(later));
    OpensOnReady(c, ready, hello, first);
    DeliversUnasked(c, ready, Opened(first), later, messages);
    ConcatOne([], first);
    ConcatOne(Chunks(e1), later);
  }

  lemma RunOne(c: Codec, ready: Ready, before: seq<Event>, e: Event)
    ensures Run(c, ready, before + [e]) == Step(c, ready, Run(c, ready, before), e)
    ensures Chunks(before + [e]) == if e.Data? then Chunks(before) + [e.chunk] else Chunks(before)
  {
    assert (before + [e])[..|before|] == before;
  }

  function Opened(bytes: seq<Byte>): State { START.(phase := Reading, sound := bytes) }

  lemma OpensOnReady(c: Codec, ready: Ready, hello: Json, first: seq<Byte>)
    requires ready(hello) && Decode(Framing(c), first) == Decoded([hello], [], None)
    ensures OnData(c, ready, START, first) == Opened(first)
  {
    assert [] + first == first && [hello][1..] == [];
  }

  lemma DeliversUnasked(c: Codec, ready: Ready, s: State, chunk: seq<Byte>, messages: seq<Json>)
    requires s.phase == Reading && !s.dead && !s.waiting && s.rest == [] && s.buffered == []
    requires Decode(Framing(c), chunk) == Decoded(messages, [], None)
    ensures OnData(c, ready, s, chunk) == s.(sound := s.sound + chunk, buffered := NonNull(messages))
  {
    assert s.rest + chunk == chunk;
    ReadingDelivers(c, ready, s, chunk);
    DeliverAllBuffers(s.(sound := s.sound + chunk), messages);
    assert s.buffered + NonNull(messages) == NonNull(messages);
  }

  lemma ReadingDelivers(c: Codec, ready: Ready, s: State, chunk: seq<Byte>)
    requires s.phase == Reading && !s.dead && Decode(Framing(c), s.rest + chunk).fault.None?
    ensures
      var d := Decode(Framing(c), s.rest + chunk);
      OnData(c, ready, s, chunk) == DeliverAll(s.(rest := d.rest, sound := s.sound + chunk), d.items)
  {
  }

  lemma {:induction false} DeliverAllBuffers(s: State, messages: seq<Json>)
    requires !s.waiting
    ensures DeliverAll(s, messages) == s.(buffered := s.buffered + NonNull(messages))
    decreases |messages|
  {
    if messages == [] {
      assert s.buffered + NonNull(messages) == s.buffered;
    } else {
      var n := |messages| - 1;
      DeliverAllBuffers(s, messages[..n]);
      assert NonNull(messages) == if messages[n] == Null then NonNull(messages[..n])
                                  else NonNull(messages[..n]) + [messages[n]];
      assert messages[n] != Null ==>
          s.buffered + NonNull(messages) == (s.buffered + NonNull(messages[..n])) + [messages[n]];
    }
  }

  /**
    In every run a call of `next` is answered at once with the oldest message that waits, and otherwise, while
    the connection is open, with the very next one that arrives.
  */
  lemma NextIsAnswered(c: Codec, ready: Ready, events: seq<Event>, message: Json)
    ensures
      var s := Run(c, ready, events);
      var t := Step(c, ready, s, Next);
      s.phase == Reading ==>
        && (s.buffered != [] ==>
              t.given == s.given + [s.buffered[0]] && t.buffered == s.buffered[1..] && t.waiting == s.waiting)
        && (s.buffered == [] && !s.closed ==>
              t.given == s.given && Heard(ready, t, [message]).given == s.given + [message])
        && (s.buffered == [] && s.closed ==> t == s)
  {
    var s := Run(c, ready, events);
    var t := Step(c, ready, s, Next);
    assert [message][..0] == [];
    assert DeliverAll(t, []) == t;
  }

  /** Before READY only its bytes count: the gate closes for good on a timeout, an end or a fault. */
  lemma GateClosesIff(c: Codec, ready: Ready, events: seq<Event>, e: Event)
    ensures
      var s, t := Run(c, ready, events), Step(c, ready, Run(c, ready, events), e);
      s.phase == Gate ==>
        (t.phase == NotReady <==>
           || e.Timeout? || e.End?
           || (e.Data? && Decode(Framing(c), s.rest + e.chunk).fault.Some?))
  {
    RunKeepsOrder(c, ready, events);
  }

  /** While reading, an end or a fault closes the reader, and a timeout only ends the wait. */
  lemma ReaderClosesIff(c: Codec, ready: Ready, events: seq<Event>, e: Event)
    ensures
      var s, t := Run(c, ready, events), Step(c, ready, Run(c, ready, events), e);
      s.phase == Reading && !s.closed && !s.dead ==>
        && (t.closed <==> e.End? || (e.Data? && Decode(Framing(c), s.rest + e.chunk).fault.Some?))
        && t.phase == Reading && (t.closed || e.Timeout? ==> !t.waiting)
  {
    var s := Run(c, ready, events);
    if e.Data? && s.phase == Reading && !s.dead {
      var d := Decode(Framing(c), s.rest + e.chunk);
      if d.fault.None? {
        OpenStays(s.(rest := d.rest, sound := s.sound + e.chunk), d.items);
      }
    }
  }

  lemma {:induction false} OpenStays(s: State, messages: seq<Json>)
    ensures DeliverAll(s, messages).closed == s.closed && DeliverAll(s, messages).phase == s.phase
    decreases |messages|
  {
    if messages != [] {
      OpenStays(s, messages[..|messages| - 1]);
    }
  }
}
