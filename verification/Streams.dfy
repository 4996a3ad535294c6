/**
  Decoding a stream incrementally, whatever its items are.

  A splitter looks at the bytes buffered so far and says whether they start with a whole item, a fault,
  or neither yet.  All it promises is that more bytes never change what it has settled.
*/
module Streams {
  import opened Wrappers

  datatype Head<T, F> = Short | Bad(fault: F) | Item(item: T, next: nat)

  type Splitter<!E, T, F> = seq<E> -> Head<T, F>

  ghost predicate Stays<E, T, F>(h: Splitter<E, T, F>, a: seq<E>, b: seq<E>) {
    && (h(a).Item? ==> 0 < h(a).next <= |a|)
    && (!h(a).Short? ==> h(a + b) == h(a))
  }

  ghost predicate Settles<E(!new), T, F>(h: Splitter<E, T, F>) {
    h([]).Short? && forall a, b :: Stays(h, a, b)
  }

  datatype Decoded<E, T, F> = Decoded(items: seq<T>, rest: seq<E>, fault: Option<F>)

  /** The whole stream in one go. */
  function Decode<E, T, F>(h: Splitter<E, T, F>, s: seq<E>): Decoded<E, T, F>
    decreases |s|
  {
    match h(s)
    case Short => Decoded([], s, None)
    case Bad(fault) => Decoded([], s, Some(fault))
    case Item(item, next) =>
      if 0 < next <= |s| then
        var later := Decode(h, s[next..]);
        later.(items := [item] + later.items)
      else Decoded([], s, None)
  }

  /** `d` is the decode of a stream, and `more` that of what it left plus further bytes. */
  function Joined<E, T, F>(d: Decoded<E, T, F>, more: Decoded<E, T, F>): Decoded<E, T, F> {
    more.(items := d.items + more.items)
  }

  lemma DecodeItem<E, T, F>(h: Splitter<E, T, F>, s: seq<E>, item: T, next: nat)
    requires h(s) == Item(item, next) && 0 < next <= |s|
    ensures Decode(h, s) == Joined(Decoded([item], [], None), Decode(h, s[next..]))
  {
  }

  /** More bytes only extend what was decoded; a fault is final. */
  lemma {:induction false} DecodeExtends<E(!new), T, F>(h: Splitter<E, T, F>, a: seq<E>, b: seq<E>)
    requires Settles(h)
    ensures Decode(h, a).fault.Some? ==>
              Decode(h, a + b).items == Decode(h, a).items && Decode(h, a + b).fault == Decode(h, a).fault
    ensures Decode(h, a).fault.None? ==> Decode(h, a + b) == Joined(Decode(h, a), Decode(h, Decode(h, a).rest + b))
    decreases |a|
  {
    assert Stays(h, a, b);
    match h(a)
    case Short =>
    case Bad(_) =>
    case Item(item, next) =>
      assert (a + b)[next..] == a[next..] + b;
      DecodeItem(h, a, item, next);
      DecodeItem(h, a + b, item, next);
      DecodeExtends(h, a[next..], b);
      if Decode(h, a).fault.None? {
        JoinedOnce(Decoded([item], [], None), Decode(h, a[next..]), Decode(h, Decode(h, a[next..]).rest + b));
      }
  }

  lemma JoinedOnce<E, T, F>(x: Decoded<E, T, F>, y: Decoded<E, T, F>, z: Decoded<E, T, F>)
    ensures Joined(x, Joined(y, z)) == Joined(Joined(x, y), z)
  {
    assert x.items + (y.items + z.items) == (x.items + y.items) + z.items;
  }

  /** What is kept is something the splitter cannot settle yet. */
  lemma {:induction false} RestIsShort<E(!new), T, F>(h: Splitter<E, T, F>, s: seq<E>)
    requires Settles(h)
    ensures Decode(h, s).fault.None? ==> h(Decode(h, s).rest) == Short
    decreases |s|
  {
    assert Stays(h, s, []);
    if h(s).Item? { RestIsShort(h, s[h(s).next..]); }
  }

  function Concat<T>(parts: seq<seq<T>>): seq<T> {
    if parts == [] then [] else Concat(parts[..|parts| - 1]) + parts[|parts| - 1]
  }

  lemma ConcatOne<T>(parts: seq<seq<T>>, last: seq<T>)
    ensures Concat(parts + [last]) == Concat(parts) + last
  {
    assert (parts + [last])[..|parts|] == parts;
  }

  /** What a run of pushes produced: a throwing push produces nothing and poisons the decoder. */
  datatype Fed<E, T> = Fed(outputs: seq<seq<T>>, rest: seq<E>, dead: bool)

  function Feed<E, T, F>(h: Splitter<E, T, F>, chunks: seq<seq<E>>): Fed<E, T> {
    if chunks == [] then Fed([], [], false)
    else
      var before := Feed(h, chunks[..|chunks| - 1]);
      var d := Decode(h, before.rest + chunks[|chunks| - 1]);
      if before.dead || d.fault.Some? then before.(dead := true)
      else Fed(before.outputs + [d.items], d.rest, false)
  }

  /** No push threw: together they are the one-shot decode. */
  ghost predicate Alive<E, T, F>(h: Splitter<E, T, F>, chunks: seq<seq<E>>) {
    var fed, d := Feed(h, chunks), Decode(h, Concat(chunks));
    !fed.dead && d.fault.None? && Concat(fed.outputs) == d.items && fed.rest == d.rest && |fed.outputs| == |chunks|
  }

  /** The `k`-th push is the first to throw, and the first to complete a stream with a fault. */
  ghost predicate DiedAt<E, T, F>(h: Splitter<E, T, F>, chunks: seq<seq<E>>, k: nat) {
    var fed, d := Feed(h, chunks), Decode(h, Concat(chunks));
    && fed.dead && d.fault.Some? && k < |chunks| && Alive(h, chunks[..k])
    && fed.outputs == Feed(h, chunks[..k]).outputs && Concat(fed.outputs) <= d.items
    && Decode(h, Concat(chunks[..k + 1])).fault == d.fault
  }

  lemma PushOne<E, T, F>(h: Splitter<E, T, F>, front: seq<seq<E>>, last: seq<E>)
    ensures var before := Feed(h, front);
            var d := Decode(h, before.rest + last);
            Feed(h, front + [last]) ==
              if before.dead || d.fault.Some? then before.(dead := true)
                  else Fed(before.outputs + [d.items], d.rest, false)
  {
    assert (front + [last])[..|front|] == front;
  }

  lemma AliveStep<E(!new), T, F>(h: Splitter<E, T, F>, front: seq<seq<E>>, last: seq<E>)
    requires Settles(h) && Alive(h, front)
    ensures Alive(h, front + [last]) || DiedAt(h, front + [last], |front|)
  {
    var chunks := front + [last];
    PushOne(h, front, last);
    ConcatOne(front, last);
    DecodeExtends(h, Concat(front), last);
    ConcatOne(Feed(h, front).outputs, Decode(h, Feed(h, front).rest + last).items);
    assert chunks[..|front|] == front && chunks[..|front| + 1] == chunks;
  }

  lemma DeadStep<E(!new), T, F>(h: Splitter<E, T, F>, front: seq<seq<E>>, last: seq<E>, k: nat)
    requires Settles(h) && DiedAt(h, front, k)
    ensures DiedAt(h, front + [last], k)
  {
    var chunks := front + [last];
    PushOne(h, front, last);
    ConcatOne(front, last);
    DecodeExtends(h, Concat(front), last);
    assert chunks[..k] == front[..k] && chunks[..k + 1] == front[..k + 1];
  }

  /**
    Chunking does not matter: however a stream is cut, either no push throws, the outputs together are
    the items of the one-shot decode and the residue is its rest; or the stream has a fault, exactly one
    push is the first to throw, and every later one does.  Items completed inside that push are lost
    with it, so the outputs are then those of the chunks before it, a prefix of the one-shot items.
  */
  lemma {:induction false} ChunkingDoesNotMatter<E(!new), T, F>(h: Splitter<E, T, F>,
      chunks: seq<seq<E>>) returns (k: nat)
    requires Settles(h)
    ensures Alive(h, chunks) || DiedAt(h, chunks, k)
    decreases |chunks|
  {
    k := 0;
    if chunks != [] {
      var n := |chunks| - 1;
      assert chunks == chunks[..n] + [chunks[n]];
      k := ChunkingDoesNotMatter(h, chunks[..n]);
      if Alive(h, chunks[..n]) {
        AliveStep(h, chunks[..n], chunks[n]);
        k := n;
      } else {
        DeadStep(h, chunks[..n], chunks[n], k);
      }
    }
  }

  /**
    What a fault costs, for every fault and every cut: exactly the items its own push would have
    completed before it.  So nothing is lost if and only if that push completes none.
  */
  lemma FaultLoses<E(!new), T, F>(h: Splitter<E, T, F>, chunks: seq<seq<E>>) returns (k: nat)
    requires Settles(h) && Decode(h, Concat(chunks)).fault.Some?
    ensures k < |chunks| && DiedAt(h, chunks, k)
    ensures
      var lost := Decode(h, Feed(h, chunks[..k]).rest + chunks[k]).items;
      && Decode(h, Concat(chunks)).items == Concat(Feed(h, chunks).outputs) + lost
      && (Concat(Feed(h, chunks).outputs) == Decode(h, Concat(chunks)).items <==> lost == [])
  {
    k := ChunkingDoesNotMatter(h, chunks);
    var front := Concat(chunks[..k]);
    DecodeExtends(h, front, chunks[k]);
    ConcatOne(chunks[..k], chunks[k]);
    assert chunks[..k + 1] == chunks[..k] + [chunks[k]];
    ConcatAppends(chunks[..k + 1], chunks[k + 1..]);
    assert chunks[..k + 1] + chunks[k + 1..] == chunks;
    DecodeExtends(h, Concat(chunks[..k + 1]), Concat(chunks[k + 1..]));
  }

  lemma {:induction false} ConcatAppends<T>(a: seq<seq<T>>, b: seq<seq<T>>)
    ensures Concat(a + b) == Concat(a) + Concat(b)
    decreases |b|
  {
    if b == [] {
      assert a + b == a;
      assert Concat(a) + Concat(b) == Concat(a);
    } else {
      var front, last := b[..|b| - 1], b[|b| - 1];
      ConcatAppends(a, front);
      ConcatOne(a + front, last);
      ConcatOne(front, last);
      assert a + b == (a + front) + [last] && b == front + [last];
      assert (Concat(a) + Concat(front)) + last == Concat(a) + (Concat(front) + last);
    }
  }
}
