/**
  The length-prefixed frame protocol: encoding, the incremental decoder, and the client's hand-off
  from the READY gate to the reader.

  JSON text is abstract: a codec parses and prints, and printing then parsing gives the value back.
*/
module Frames {
  import opened Wrappers
  import opened Streams

  type Byte = b: int | 0 <= b < 256

  datatype Json = Null | Scalar(text: string) | Array(items: seq<Json>) | Object(keys: seq<string>, values: seq<Json>)

  datatype Codec = Codec(parse: seq<Byte> -> Option<Json>, print_: Json -> seq<Byte>)

  ghost predicate RoundTrips(c: Codec) {
    forall j :: c.parse(c.print_(j)) == Some(j)
  }

  const FRAME_CAP: nat := 1024 * 1024

  const DEPTH_CAP: nat := 64

  const HEADER_LEN: nat := 4

  // ---------------------------------------------------------------- depth

  /** The traversal as the decoder runs it: it stops at the first value below the cap. */
  predicate CheckDepth(j: Json, depth: nat)
    decreases j, 0
  {
    depth <= DEPTH_CAP && match j
    case Array(items) => CheckAll(items, depth + 1)
    case Object(_, values) => CheckAll(values, depth + 1)
    case _ => true
  }

  predicate CheckAll(items: seq<Json>, depth: nat)
    decreases items, 1
  {
    items == [] || (CheckDepth(items[0], depth) && CheckAll(items[1..], depth))
  }

  /** How deep the deepest value sits below this one. */
  function Depth(j: Json): nat
    decreases j, 0
  {
    match j
    case Array(items) => DepthBelow(items)
    case Object(_, values) => DepthBelow(values)
    case _ => 0
  }

  function DepthBelow(items: seq<Json>): nat
    decreases items, 1
  {
    if items == [] then 0
    else
      var first, rest := Depth(items[0]) + 1, DepthBelow(items[1..]);
      if first > rest then first else rest
  }

  /** The cap bounds the deepest value: an empty container adds no level of its own. */
  lemma {:induction false} DepthIsChecked(j: Json, depth: nat)
    requires depth <= DEPTH_CAP
    ensures CheckDepth(j, depth) <==> depth + Depth(j) <= DEPTH_CAP
    decreases j, 0
  {
    match j
    case Array(items) => DepthBelowIsChecked(items, depth);
    case Object(_, values) => DepthBelowIsChecked(values, depth);
    case _ =>
  }

  lemma {:induction false} DepthBelowIsChecked(items: seq<Json>, depth: nat)
    requires depth <= DEPTH_CAP
    ensures CheckAll(items, depth + 1) <==> depth + DepthBelow(items) <= DEPTH_CAP
    decreases items, 1
  {
    if items != [] {
      if depth < DEPTH_CAP { DepthIsChecked(items[0], depth + 1); }
      DepthBelowIsChecked(items[1..], depth);
    }
  }

  // ---------------------------------------------------------------- encoding

  function Header(n: nat): (h: seq<Byte>)
    requires n < 0x1_0000_0000
    ensures |h| == HEADER_LEN
  {
    [n / 256 / 256 / 256, n / 256 / 256 % 256, n / 256 % 256, n % 256]
  }

  function ReadLength(h: seq<Byte>): nat
    requires |h| >= HEADER_LEN
  {
    (((h[0] as int) * 256 + h[1] as int) * 256 + h[2] as int) * 256 + h[3] as int
  }

  lemma HeaderReads(n: nat, rest: seq<Byte>)
    requires n < 0x1_0000_0000
    ensures ReadLength(Header(n) + rest) == n
  {
  }

  function EncodeFrame(c: Codec, j: Json): Option<seq<Byte>> {
    var body := c.print_(j);
    if |body| > FRAME_CAP then None else Some(Header(|body|) + body)
  }

  // ---------------------------------------------------------------- decoding

  datatype Fault = FrameTooLarge(size: nat) | MalformedFrame | DepthExceeded

  type FrameHead = Head<Json, Fault>

  function BodyOf(c: Codec, body: seq<Byte>): FrameHead {
    var parsed := c.parse(body);
    if parsed.None? then Bad(MalformedFrame)
    else if !CheckDepth(parsed.value, 0) then Bad(DepthExceeded)
    else Item(parsed.value, HEADER_LEN + |body|)
  }

  /** An oversized length is a fault from the header alone. */
  function FrameAt(c: Codec, bytes: seq<Byte>): FrameHead {
    if |bytes| < HEADER_LEN then Short
    else
      var size := ReadLength(bytes);
      if size > FRAME_CAP then Bad(FrameTooLarge(size))
      else if |bytes| < HEADER_LEN + size then Short
      else BodyOf(c, bytes[HEADER_LEN..HEADER_LEN + size])
  }

  function Framing(c: Codec): Splitter<Byte, Json, Fault> { bytes => FrameAt(c, bytes) }

  lemma FramingSettles(c: Codec)
    ensures Settles(Framing(c))
  {
    forall a: seq<Byte>, b: seq<Byte> ensures Stays(Framing(c), a, b) {
      if |a| >= HEADER_LEN {
        var size := ReadLength(a);
        assert ReadLength(a + b) == size;
        if size <= FRAME_CAP && HEADER_LEN + size <= |a| {
          assert (a + b)[HEADER_LEN..HEADER_LEN + size] == a[HEADER_LEN..HEADER_LEN + size];
        }
      }
    }
  }

  /** A message is framed exactly while its body is within the cap, as its length before its text. */
  lemma FramedIff(c: Codec, j: Json)
    ensures
      var body, frame := c.print_(j), EncodeFrame(c, j);
      && (frame.Some? <==> |body| <= FRAME_CAP)
      && (frame.Some? ==> |frame.value| == HEADER_LEN + |body| && frame.value[HEADER_LEN..] == body
                          && ReadLength(frame.value) == |body|)
  {
    if |c.print_(j)| <= FRAME_CAP {
      HeaderReads(|c.print_(j)|, c.print_(j));
    }
  }

  /** What is refused, and as what: a length over the cap, a body that is no JSON, or one nested too deep. */
  lemma RefusedAs(c: Codec, bytes: seq<Byte>)
    ensures
      var size := if |bytes| < HEADER_LEN then 0 else ReadLength(bytes);
      var whole := HEADER_LEN + size <= |bytes| && size <= FRAME_CAP;
      var parsed := if whole then c.parse(bytes[HEADER_LEN..HEADER_LEN + size]) else None;
      && (FrameAt(c, bytes) == Bad(FrameTooLarge(size)) <==> size > FRAME_CAP)
      && (FrameAt(c, bytes) == Bad(MalformedFrame) <==> whole && parsed.None?)
      && (FrameAt(c, bytes) == Bad(DepthExceeded) <==> whole && parsed.Some? && Depth(parsed.value) > DEPTH_CAP)
  {
    var size := if |bytes| < HEADER_LEN then 0 else ReadLength(bytes);
    if HEADER_LEN + size <= |bytes| && size <= FRAME_CAP {
      var parsed := c.parse(bytes[HEADER_LEN..HEADER_LEN + size]);
      if parsed.Some? {
        DepthIsChecked(parsed.value, 0);
      }
    }
  }

  /** A whole frame at the front of the stream, as the protocol defines it: its length, then a sound message. */
  ghost predicate SoundFrame(c: Codec, bytes: seq<Byte>, body: seq<Byte>, j: Json) {
    && |body| <= FRAME_CAP && Header(|body|) + body <= bytes
    && c.parse(body) == Some(j) && Depth(j) <= DEPTH_CAP
  }

  /**
    The decoder takes a message off the stream exactly when a sound frame stands at its front, and then that
    message and that frame; it waits exactly while the header or the body it announces is incomplete, and
    refuses everything else.
  */
  lemma TakesExactlySoundFrames(c: Codec, bytes: seq<Byte>, j: Json, next: nat)
    ensures FrameAt(c, bytes) == Item(j, next) <==>
              next >= HEADER_LEN && next <= |bytes| && SoundFrame(c, bytes, bytes[HEADER_LEN..next], j)
    ensures FrameAt(c, bytes).Short? <==>
              |bytes| < HEADER_LEN || (ReadLength(bytes) <= FRAME_CAP && |bytes| < HEADER_LEN + ReadLength(bytes))
  {
    if FrameAt(c, bytes).Item? {
      TakenIsSound(c, bytes);
    }
    if HEADER_LEN <= next <= |bytes| && SoundFrame(c, bytes, bytes[HEADER_LEN..next], j) {
      SoundIsTaken(c, bytes, bytes[HEADER_LEN..next], j);
    }
  }

  lemma TakenIsSound(c: Codec, bytes: seq<Byte>)
    requires FrameAt(c, bytes).Item?
    ensures
      var head := FrameAt(c, bytes);
      HEADER_LEN <= head.next <= |bytes| && SoundFrame(c, bytes, bytes[HEADER_LEN..head.next], head.item)
  {
    var size := ReadLength(bytes);
    var body := bytes[HEADER_LEN..HEADER_LEN + size];
    LengthReads(bytes);
    DepthIsChecked(FrameAt(c, bytes).item, 0);
    StartsWith(bytes, Header(size), body);
  }

  lemma StartsWith(bytes: seq<Byte>, head: seq<Byte>, body: seq<Byte>)
    requires |head| + |body| <= |bytes| && head + bytes[|head|..] == bytes
    requires body == bytes[|head|..|head| + |body|]
    ensures head + body <= bytes
  {
    assert head == bytes[..|head|];
    assert head + body == bytes[..|head| + |body|];
  }

  lemma SoundIsTaken(c: Codec, bytes: seq<Byte>, body: seq<Byte>, j: Json)
    requires SoundFrame(c, bytes, body, j)
    ensures FrameAt(c, bytes) == Item(j, HEADER_LEN + |body|)
  {
    var front := Header(|body|) + body;
    var rest := bytes[|front|..];
    assert bytes == front + rest && front + rest == Header(|body|) + (body + rest);
    PendingHead(c, |body|, body + rest);
    assert (body + rest)[..|body|] == body;
    DepthIsChecked(j, 0);
  }

  /** So no message deeper than the cap is ever handed on, whatever came before it. */
  lemma {:induction false} DecodedAreShallow(c: Codec, bytes: seq<Byte>)
    ensures forall j :: j in Decode(Framing(c), bytes).items ==> Depth(j) <= DEPTH_CAP
    decreases |bytes|
  {
    var head := FrameAt(c, bytes);
    if head.Item? && 0 < head.next <= |bytes| {
      TakesExactlySoundFrames(c, bytes, head.item, head.next);
      DecodedAreShallow(c, bytes[head.next..]);
    }
  }

  /** What stays buffered is part of one frame whose length was already checked. */
  lemma ResidueIsSmall(c: Codec, bytes: seq<Byte>)
    requires Decode(Framing(c), bytes).fault.None?
    ensures |Decode(Framing(c), bytes).rest| < HEADER_LEN + FRAME_CAP
  {
    FramingSettles(c);
    RestIsShort(Framing(c), bytes);
  }

  function EncodeAll(c: Codec, messages: seq<Json>): Option<seq<Byte>> {
    if messages == [] then Some([])
    else
      var first, later := EncodeFrame(c, messages[0]), EncodeAll(c, messages[1..]);
      if first.None? || later.None? then None else Some(first.value + later.value)
  }

  lemma EncodedHead(c: Codec, j: Json, later: seq<Byte>)
    requires RoundTrips(c) && EncodeFrame(c, j).Some? && Depth(j) <= DEPTH_CAP
    ensures FrameAt(c, EncodeFrame(c, j).value + later) == Item(j, |EncodeFrame(c, j).value|)
  {
    var body := c.print_(j);
    PendingHead(c, |body|, body + later);
    assert EncodeFrame(c, j).value + later == Header(|body|) + (body + later);
    assert (body + later)[..|body|] == body;
    DepthIsChecked(j, 0);
  }

  /** Round trip: what was encoded, within the caps, decodes to the same messages with nothing left. */
  lemma {:induction false} EncodedDecodes(c: Codec, messages: seq<Json>)
    requires RoundTrips(c) && EncodeAll(c, messages).Some?
    requires forall j :: j in messages ==> Depth(j) <= DEPTH_CAP
    ensures Decode(Framing(c), EncodeAll(c, messages).value) == Decoded(messages, [], None)
  {
    var bytes := EncodeAll(c, messages).value;
    if messages != [] {
      var first, later := EncodeFrame(c, messages[0]).value, EncodeAll(c, messages[1..]).value;
      EncodedHead(c, messages[0], later);
      assert bytes == first + later && bytes[|first|..] == later;
      EncodedDecodes(c, messages[1..]);
    }
  }

  // ---------------------------------------------------------------- any chunking

  /**
    Two cuts of the same bytes produce the same frames and keep the same residue, which stays below one
    header and one capped body; or both are refused at some push, and then at every later one.
  */
  lemma SameBytesSameFrames(c: Codec, chunks: seq<seq<Byte>>, others: seq<seq<Byte>>)
    requires Concat(chunks) == Concat(others)
    ensures var a, b := Feed(Framing(c), chunks), Feed(Framing(c), others);
            && a.dead == b.dead
            && (!a.dead ==>
                  Concat(a.outputs) == Concat(b.outputs) && a.rest == b.rest && |a.rest| < HEADER_LEN + FRAME_CAP)
  {
    FramingSettles(c);
    var j := ChunkingDoesNotMatter(Framing(c), chunks);
    var k := ChunkingDoesNotMatter(Framing(c), others);
    if Decode(Framing(c), Concat(chunks)).fault.None? { ResidueIsSmall(c, Concat(chunks)); }
  }

  lemma FirstFed<E, T, F>(h: Splitter<E, T, F>, chunk: seq<E>)
    ensures var d := Decode(h, chunk);
            Feed(h, [chunk]) == if d.fault.Some? then Fed([], [], true) else Fed([d.items], d.rest, false)
  {
    var none: seq<seq<E>> := [];
    var empty: seq<E> := [];
    PushOne(h, none, chunk);
    assert none + [chunk] == [chunk] && empty + chunk == chunk;
    var outputs: seq<seq<T>> := [];
    assert outputs + [Decode(h, chunk).items] == [Decode(h, chunk).items];
  }

  /** A fault takes the sound frames of its own push with it, and no others, whatever the fault and the cut. */
  lemma FaultTakesItsPushAlong(c: Codec, chunks: seq<seq<Byte>>) returns (k: nat)
    requires Decode(Framing(c), Concat(chunks)).fault.Some?
    ensures k < |chunks|
    ensures
      var fed, before := Feed(Framing(c), chunks), Feed(Framing(c), chunks[..k]);
      var lost := Decode(Framing(c), before.rest + chunks[k]).items;
      && fed.dead && fed.outputs == before.outputs
      && Decode(Framing(c), Concat(chunks)).items == Concat(fed.outputs) + lost
      && (Concat(fed.outputs) == Decode(Framing(c), Concat(chunks)).items <==> lost == [])
  {
    FramingSettles(c);
    k := FaultLoses(Framing(c), chunks);
  }

  /** There the cut matters: any messages are lost in one push with any fault, and kept in a push before it. */
  lemma FaultNeedsItsOwnPush(c: Codec, messages: seq<Json>, bad: seq<Byte>)
    requires RoundTrips(c) && EncodeAll(c, messages).Some? && FrameAt(c, bad).Bad?
    requires forall j :: j in messages ==> Depth(j) <= DEPTH_CAP
    ensures var bytes := EncodeAll(c, messages).value;
            && Feed(Framing(c), [bytes + bad]) == Fed([], [], true)
            && Feed(Framing(c), [bytes, bad]) == Fed([messages], [], true)
  {
    var bytes, h := EncodeAll(c, messages).value, Framing(c);
    EncodedDecodes(c, messages);
    FramingSettles(c);
    DecodeExtends(h, bytes, bad);
    var empty: seq<Byte> := [];
    assert empty + bad == bad;
    FirstFed(h, bytes + bad);
    FirstFed(h, bytes);
    PushOne(h, [bytes], bad);
    assert [bytes] + [bad] == [bytes, bad];
  }

  // ---------------------------------------------------------------- the object

  class FrameDecoder {
    const codec: Codec
    var buf: seq<Byte>
    var pendingBodyLen: Option<nat>
    var dead: bool

    ghost predicate Valid()
      reads this
    {
      !dead ==>
        && |buf| < HEADER_LEN + FRAME_CAP
        && (pendingBodyLen.Some? ==> pendingBodyLen.value <= FRAME_CAP && |buf| < pendingBodyLen.value)
        && (pendingBodyLen.None? ==> |buf| < HEADER_LEN)
    }

    /** The bytes received and not yet turned into a frame: a header already read counts as its bytes. */
    ghost function Residue(): seq<Byte>
      requires pendingBodyLen.Some? ==> pendingBodyLen.value <= FRAME_CAP
      reads this
    {
      if pendingBodyLen.Some? then Header(pendingBodyLen.value) + buf else buf
    }

    constructor (codec: Codec)
      ensures Valid() && !dead && Residue() == [] && this.codec == codec
    {
      this.codec := codec;
      buf, pendingBodyLen, dead := [], None, false;
    }

    /** One turn of the decode loop. */
    method Take() returns (taken: Taken)
      requires !dead && (pendingBodyLen.Some? ==> pendingBodyLen.value <= FRAME_CAP)
      modifies this
      ensures dead == taken.Thrown?
      ensures !dead && pendingBodyLen.Some? ==> pendingBodyLen.value <= FRAME_CAP
      ensures var d := Decode(Framing(codec), old(Residue()));
              match taken
              case Wait => Valid() && Residue() == old(Residue()) && d == Decoded([], Residue(), None)
              case Thrown => d.fault.Some?
              case Got(json) =>
                && |Residue()| < |old(Residue())|
                && d == Joined(Decoded([json], [], None), Decode(Framing(codec), Residue()))
    {
      if pendingBodyLen.None? {
        ShortDecodes(codec, buf);
        if |buf| < HEADER_LEN {
          return Wait;
        }
        var size := ReadLength(buf);
        if size > FRAME_CAP {
          buf := buf[HEADER_LEN..];
          dead := true;
          return Thrown;
        }
        LengthReads(buf);
        buf, pendingBodyLen := buf[HEADER_LEN..], Some(size);
      }
      var bodyLen := pendingBodyLen.value;
      PendingDecodes(codec, bodyLen, buf);
      if |buf| < bodyLen {
        return Wait;
      }
      var body := buf[..bodyLen];
      buf, pendingBodyLen := buf[bodyLen..], None;
      var parsed := codec.parse(body);
      if parsed.None? || !CheckDepth(parsed.value, 0) {
        dead := true;
        return Thrown;
      }
      return Got(parsed.value);
    }

    /** `None` is a throw. */
    method Push(chunk: seq<Byte>) returns (out: Option<seq<Json>>)
      requires Valid()
      modifies this
      ensures Valid()
      ensures old(dead) ==> dead && out.None?
      ensures !old(dead) ==>
                var d := Decode(Framing(codec), old(Residue()) + chunk);
                && dead == d.fault.Some?
                && (if dead then out.None? else out == Some(d.items) && Residue() == d.rest)
    {
      if dead {
        return None;
      }
      ghost var whole := Decode(Framing(codec), Residue() + chunk);
      assert if pendingBodyLen.Some? then Residue() + chunk == Header(pendingBodyLen.value) + (buf + chunk)
          else Residue() + chunk == buf + chunk;
      buf := buf + chunk;
      var frames: seq<Json> := [];
      while true
        invariant !dead && (pendingBodyLen.Some? ==> pendingBodyLen.value <= FRAME_CAP)
        invariant whole == Joined(Decoded(frames, [], None), Decode(Framing(codec), Residue()))
        decreases |Residue()|
      {
        ghost var before := Residue();
        var taken := Take();
        if taken.Wait? { break; }
        if taken.Thrown? {
          return None;
        }
        JoinedOnce(Decoded(frames, [], None), Decoded([taken.json], [], None), Decode(Framing(codec), Residue()));
        frames := frames + [taken.json];
      }
      assert frames + [] == frames;
      out := Some(frames);
    }
  }

  datatype Taken = Wait | Thrown | Got(json: Json)

  /** Before a header is read: nothing yet, or a length that is refused at once. */
  lemma ShortDecodes(c: Codec, buf: seq<Byte>)
    ensures |buf| < HEADER_LEN ==> Decode(Framing(c), buf) == Decoded([], buf, None)
    ensures |buf| >= HEADER_LEN && ReadLength(buf) > FRAME_CAP ==> Decode(Framing(c), buf).fault.Some?
  {
  }

  /** After a header is read: wait for the body, refuse it, or take it and go on behind it. */
  lemma PendingDecodes(c: Codec, n: nat, buf: seq<Byte>)
    requires n <= FRAME_CAP
    ensures var d := Decode(Framing(c), Header(n) + buf);
            if |buf| < n then d == Decoded([], Header(n) + buf, None)
            else match BodyOf(c, buf[..n])
                 case Bad(fault) => d.fault == Some(fault)
                 case Item(json, _) => d == Joined(Decoded([json], [], None), Decode(Framing(c), buf[n..]))
                 case Short => true
  {
    PendingHead(c, n, buf);
    if |buf| >= n {
      assert (Header(n) + buf)[HEADER_LEN + n..] == buf[n..];
    }
  }

  lemma LastDigit(rest: nat, digit: nat)
    requires digit < 256
    ensures (rest * 256 + digit) / 256 == rest && (rest * 256 + digit) % 256 == digit
  {
  }

  lemma LengthReads(bytes: seq<Byte>)
    requires |bytes| >= HEADER_LEN
    ensures ReadLength(bytes) < 0x1_0000_0000 && Header(ReadLength(bytes)) + bytes[HEADER_LEN..] == bytes
  {
    var first: nat := bytes[0];
    var two: nat := first * 256 + bytes[1];
    var three: nat := two * 256 + bytes[2];
    var n: nat := three * 256 + bytes[3];
    LastDigit(three, bytes[3]);
    LastDigit(two, bytes[2]);
    LastDigit(first, bytes[1]);
    assert n == ReadLength(bytes) && n < 0x1_0000_0000;
    assert Header(n) == [first, bytes[1], bytes[2], bytes[3]];
    assert bytes[..HEADER_LEN] == [bytes[0], bytes[1], bytes[2], bytes[3]];
  }

  lemma PendingHead(c: Codec, n: nat, buf: seq<Byte>)
    requires n <= FRAME_CAP
    ensures FrameAt(c, Header(n) + buf) == if |buf| < n then Short else BodyOf(c, buf[..n])
  {
    HeaderReads(n, buf);
    if |buf| >= n {
      assert (Header(n) + buf)[HEADER_LEN..HEADER_LEN + n] == buf[..n];
    }
  }
}
