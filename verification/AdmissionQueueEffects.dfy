/** What each operation of the admission queue does, in every reachable state: who gets in, who starts, who leaves. */
module AdmissionQueueEffects {
  import opened Wrappers
  import opened AdmissionQueue

  /** Of the waiting entries exactly the unexpired ones, in their order of acceptance. */
  ghost predicate StillWaiting(queue: seq<Entry>, live: seq<Entry>, now: int) {
    Rising(live) && forall e :: e in live <==> e in queue && e.expiresAt > now
  }

  /** In order of acceptance there is only one way to list the same entries. */
  lemma {:induction false} OneOrder(a: seq<Entry>, b: seq<Entry>)
    requires Rising(a) && Rising(b) && forall e :: e in a <==> e in b
    ensures a == b
    decreases |a|
  {
    assert a != [] ==> a[|a| - 1] in a;
    assert b != [] ==> b[|b| - 1] in b;
    if a != [] && b != [] {
      var x, y := a[|a| - 1], b[|b| - 1];
      var front, other := a[..|a| - 1], b[..|b| - 1];
      assert a == front + [x] && b == other + [y];
      RisingEnd(front, x);
      RisingEnd(other, y);
      assert x in b && y in a;
      assert x == y;
      forall e ensures e in front <==> e in other {
        assert e in a <==> e in front || e == x;
        assert e in b <==> e in other || e == y;
      }
      OneOrder(front, other);
    }
  }

  /** Exactly the waiting entries whose time is up are settled as expired. */
  ghost predicate ExpiredOnly(s: State, settled: map<nat, Outcome>, now: int) {
    && (forall id: nat :: id in settled <==> id in s.settled || ExpiredIn(s.queue, now, id))
    && (forall id: nat :: id in settled ==> settled[id] == if id in s.settled then s.settled[id] else Expired)
  }

  lemma DropIsExact(l: Limits, s: State, now: int)
    requires Inv(l, s)
    ensures
      var t := DropExpired(s, now);
      StillWaiting(s.queue, t.queue, now) && ExpiredOnly(s, t.settled, now)
  {
    LiveMembers(s.queue, now);
    LiveRises(s.queue, now);
    SettleExpiredSettles(s.settled, s.queue, now);
  }

  /**
    A submit is accepted exactly while a slot is free or the queue, freed of its expired entries, has room.
    It then starts at once if a slot is free and waits as the last one otherwise; a refusal changes nothing
    but what has expired.  After it the timer is armed exactly while somebody waits.
  */
  lemma SubmitEffect(l: Limits, events: seq<Event>, now: int, expiresAt: int, live: seq<Entry>)
    requires StillWaiting(Run(l, events).queue, live, now)
    ensures
      var s, t := Run(l, events), Step(l, Run(l, events), Submit(now, expiresAt));
      && ExpiredOnly(s, t.settled, now) && (t.timer <==> t.queue != [])
      && (if s.active < l.cap then
            && t.next == s.next + 1 && t.started == s.started + [s.next] && t.running == s.running + {s.next}
            && t.queue == []
          else if |live| < l.capacity then
            && t.next == s.next + 1 && t.started == s.started && t.running == s.running
            && t.queue == live + [Entry(s.next, expiresAt)]
          else t.next == s.next && t.started == s.started && t.running == s.running && t.queue == live)
  {
    var s := Run(l, events);
    RunKeepsInv(l, events);
    DropIsExact(l, s, now);
    OneOrder(DropExpired(s, now).queue, live);
    DropKeepsInv(l, s, now);
  }

  /**
    When an execution finishes it is settled as run, and the first waiting entry whose time is not up takes
    its slot: that one alone, since nothing waits while a slot is free.  Finishing what is not running
    changes nothing.
  */
  lemma FinishEffect(l: Limits, events: seq<Event>, id: nat, now: int, live: seq<Entry>)
    requires StillWaiting(Run(l, events).queue, live, now)
    ensures
      var s, t := Run(l, events), Step(l, Run(l, events), Finish(id, now));
      if id !in s.running then t == s
      else
        && id in t.settled && t.settled[id] == Ran && ExpiredOnly(s, t.settled - {id}, now) && t.next == s.next
        && (if live == [] then t.queue == [] && t.started == s.started && t.running == s.running - {id}
            else
              && t.queue == live[1..] && t.started == s.started + [live[0].id]
              && t.running == s.running - {id} + {live[0].id})
  {
    var s := Run(l, events);
    RunKeepsInv(l, events);
    if id in s.running {
      assert s.running == (s.running - {id}) + {id};
      FreedIsSound(l, s, id);
      var freed := Freed(s, id);
      var dropped := DropExpired(freed, now);
      LiveMembers(s.queue, now);
      LiveRises(s.queue, now);
      SettleExpiredSettles(freed.settled, s.queue, now);
      OneOrder(dropped.queue, live);
      PumpSettlesNothing(l, dropped);
      PumpsOne(l, dropped);
      FreedExpires(s, id, dropped.settled, now);
    }
  }

  lemma FreedExpires(s: State, id: nat, settled: map<nat, Outcome>, now: int)
    requires id !in s.settled
    requires forall k :: k in settled <==> k in s.settled || k == id || ExpiredIn(s.queue, now, k)
    requires forall k :: k in settled ==>
               settled[k] == if k in s.settled then s.settled[k] else if k == id then Ran else Expired
    requires !ExpiredIn(s.queue, now, id)
    ensures ExpiredOnly(s, settled - {id}, now) && id in settled && settled[id] == Ran
  {
  }

  /** With one slot free and something waiting, exactly the first entry is started. */
  lemma PumpsOne(l: Limits, s: State)
    requires s.queue != [] ==> s.active + 1 == l.cap
    ensures
      var t := Pump(l, s);
      && t.next == s.next
      && (if s.queue == [] then t == s
          else
            && t.queue == s.queue[1..] && t.started == s.started + [s.queue[0].id]
            && t.running == s.running + {s.queue[0].id})
  {
    if s.queue != [] {
      var t := Dispatch(s.(queue := s.queue[1..]), s.queue[0].id);
      assert Pump(l, t) == t;
    }
  }

  /** The timer drops exactly what has expired, and is armed again exactly while somebody still waits. */
  lemma TickEffect(l: Limits, events: seq<Event>, now: int)
    ensures
      var s, t := Run(l, events), Step(l, Run(l, events), Tick(now));
      && StillWaiting(s.queue, t.queue, now) && ExpiredOnly(s, t.settled, now)
      && t.next == s.next && t.started == s.started && t.running == s.running && (t.timer <==> t.queue != [])
  {
    RunKeepsInv(l, events);
    DropIsExact(l, Run(l, events), now);
    var s := Run(l, events);
    assert s.queue == [] ==> forall id :: !ExpiredIn(s.queue, now, id);
  }

  /** A waiting entry can be abandoned, it alone; nothing else can. */
  lemma AbandonEffect(l: Limits, events: seq<Event>, id: nat)
    ensures
      var s, t := Run(l, events), Step(l, Run(l, events), Abandon(id));
      if !Queued(s, id) then t == s
      else
        && Rising(t.queue) && (forall e :: e in t.queue <==> e in s.queue && e.id != id)
        && t.settled == s.settled[id := Abandoned] && t.next == s.next && t.started == s.started
        && t.running == s.running
  {
    RunKeepsInv(l, events);
    RemovedOnly(Run(l, events).queue, id);
  }

  /** The longest the queue was after any step of the run. */
  function Peak(l: Limits, events: seq<Event>): nat {
    if events == [] then 0
    else
      var before, now := Peak(l, events[..|events| - 1]), |Run(l, events).queue|;
      if now > before then now else before
  }

  lemma {:induction false} HighWaterIsThePeak(l: Limits, events: seq<Event>)
    ensures Run(l, events).highWaterMark == Peak(l, events)
    decreases |events|
  {
    if events != [] {
      var front, last := events[..|events| - 1], events[|events| - 1];
      HighWaterIsThePeak(l, front);
      RunKeepsInv(l, front);
      MarkRises(l, Run(l, front), last);
    }
  }

  /** It rises only to the length the queue then has. */
  lemma MarkRises(l: Limits, s: State, e: Event)
    requires Inv(l, s)
    ensures
      var t := Step(l, s, e);
      && |t.queue| <= t.highWaterMark
      && (t.highWaterMark == s.highWaterMark || (t.highWaterMark == |t.queue| && t.highWaterMark > s.highWaterMark))
  {
    match e
    case Submit(now, _) => LiveMembers(s.queue, now);
    case Tick(now) => LiveMembers(s.queue, now);
    case Abandon(id) => RemovedOnly(s.queue, id);
    case Finish(id, now) =>
      if id in s.running && s.active > 0 {
        LiveMembers(s.queue, now);
        PumpShortens(l, DropExpired(Freed(s, id), now));
      }
  }

  lemma {:induction false} PumpShortens(l: Limits, s: State)
    ensures |Pump(l, s).queue| <= |s.queue| && Pump(l, s).highWaterMark == s.highWaterMark
    decreases |s.queue|
  {
    if s.active < l.cap && s.queue != [] {
      PumpShortens(l, Dispatch(s.(queue := s.queue[1..]), s.queue[0].id));
    }
  }
}
