/**
  Admission control for executions: a bounded number of active slots and a bounded waiting queue.

  An entry is its acceptance number.  `started`, `running` and `settled` record what happened to the
  entries; the deciding is done on `active` and `queue` alone.
*/
module AdmissionQueue {
  import opened Wrappers

  datatype Outcome = Ran | Expired | Abandoned

  datatype Entry = Entry(id: nat, expiresAt: int)

  datatype Limits = Limits(cap: nat, capacity: nat)

  datatype State = State(active: nat, queue: seq<Entry>, highWaterMark: nat, timer: bool, next: nat,
                         running: set<nat>, started: seq<nat>, settled: map<nat, Outcome>)

  datatype Event =
    | Submit(now: int, expiresAt: int)
    | Finish(id: nat, now: int)
    | Tick(now: int)
    | Abandon(id: nat)

  const IDLE := State(0, [], 0, false, 0, {}, [], map[])

  /** One-shot: the first verdict stands. */
  function Settle(settled: map<nat, Outcome>, id: nat, outcome: Outcome): map<nat, Outcome> {
    if id in settled then settled else settled[id := outcome]
  }

  function Live(queue: seq<Entry>, now: int): seq<Entry> {
    if queue == [] then []
    else
      var front, last := Live(queue[..|queue| - 1], now), queue[|queue| - 1];
      if last.expiresAt <= now then front else front + [last]
  }

  function SettleExpired(settled: map<nat, Outcome>, queue: seq<Entry>, now: int): map<nat, Outcome>
    decreases |queue|
  {
    if queue == [] then settled
    else
      var last := queue[|queue| - 1];
      var now_ := if last.expiresAt <= now then Settle(settled, last.id, Expired) else settled;
      SettleExpired(now_, queue[..|queue| - 1], now)
  }

  function DropExpired(s: State, now: int): State {
    var live := Live(s.queue, now);
    s.(queue := live, settled := SettleExpired(s.settled, s.queue, now), timer := s.timer && live != [])
  }

  function Dispatch(s: State, id: nat): State {
    s.(active := s.active + 1, running := s.running + {id}, started := s.started + [id])
  }

  function Pump(l: Limits, s: State): State
    decreases |s.queue|
  {
    if s.active < l.cap && s.queue != [] then Pump(l, Dispatch(s.(queue := s.queue[1..]), s.queue[0].id)) else s
  }

  predicate Busy(l: Limits, s: State) { s.active >= l.cap && |s.queue| >= l.capacity }

  function StartedNew(s: State): State { Dispatch(s, s.next).(next := s.next + 1) }

  function Enqueued(s: State, expiresAt: int): State {
    var queue := s.queue + [Entry(s.next, expiresAt)];
    s.(queue := queue, next := s.next + 1, timer := true,
       highWaterMark := if |queue| > s.highWaterMark then |queue| else s.highWaterMark)
  }

  function Admit(l: Limits, s: State, expiresAt: int): State {
    if Busy(l, s) then s else if s.active < l.cap then StartedNew(s) else Enqueued(s, expiresAt)
  }

  function OnSubmit(l: Limits, s: State, now: int, expiresAt: int): State { Admit(l, DropExpired(s, now), expiresAt) }

  function Freed(s: State, id: nat): State
    requires s.active > 0
  {
    s.(active := s.active - 1, running := s.running - {id}, settled := Settle(s.settled, id, Ran))
  }

  function OnFinish(l: Limits, s: State, id: nat, now: int): State {
    if id !in s.running || s.active == 0 then s else Pump(l, DropExpired(Freed(s, id), now))
  }

  function Removed(queue: seq<Entry>, id: nat): seq<Entry> {
    if queue == [] then [] else if queue[0].id == id then queue[1..] else [queue[0]] + Removed(queue[1..], id)
  }

  predicate Queued(s: State, id: nat) { exists e :: e in s.queue && e.id == id }

  /** Only an entry still queued can be abandoned. */
  function OnAbandon(s: State, id: nat): State {
    if Queued(s, id) then s.(queue := Removed(s.queue, id), settled := Settle(s.settled, id, Abandoned)) else s
  }

  function Step(l: Limits, s: State, e: Event): State {
    match e
    case Submit(now, expiresAt) => OnSubmit(l, s, now, expiresAt)
    case Finish(id, now) => OnFinish(l, s, id, now)
    case Tick(now) => if s.timer then DropExpired(s, now) else s
    case Abandon(id) => OnAbandon(s, id)
  }

  function Run(l: Limits, events: seq<Event>): State {
    if events == [] then IDLE else Step(l, Run(l, events[..|events| - 1]), events[|events| - 1])
  }

  // ---------------------------------------------------------------- the invariant

  predicate Bounded(l: Limits, s: State) {
    && s.active == |s.running| <= l.cap && |s.queue| <= l.capacity
    && |s.queue| <= s.highWaterMark <= l.capacity && (s.queue != [] ==> s.timer)
  }

  predicate Rising(queue: seq<Entry>) {
    forall i, j :: 0 <= i < j < |queue| ==> queue[i].id < queue[j].id
  }

  /** Everything queued was accepted after everything started, and both are in order of acceptance. */
  predicate Ordered(s: State) {
    && Rising(s.queue)
    && (forall i, j :: 0 <= i < j < |s.started| ==> s.started[i] < s.started[j])
    && (forall e, id :: e in s.queue && id in s.started ==> id < e.id)
    && (forall e :: e in s.queue ==> e.id < s.next) && (forall id :: id in s.started ==> id < s.next)
  }

  /** Every accepted entry is queued, running or settled; it ran exactly if it was started. */
  ghost predicate Accounted(s: State) {
    && (forall id: nat :: id < s.next ==> Queued(s, id) || id in s.running || id in s.settled)
    && (forall id :: id in s.running ==> id in s.started && id !in s.settled)
    && (forall id :: id in s.settled ==> id < s.next && (s.settled[id] == Ran <==> id in s.started))
    && (forall e :: e in s.queue ==> e.id !in s.settled)
    && (forall id :: id in s.started ==> id in s.running || id in s.settled)
  }

  ghost predicate Inv(l: Limits, s: State) {
    Bounded(l, s) && Ordered(s) && Accounted(s) && (s.active < l.cap ==> s.queue == [])
  }

  /** All of it but the free slot: what holds before `Pump`. */
  ghost predicate Sound(l: Limits, s: State) { Bounded(l, s) && Ordered(s) && Accounted(s) }

  lemma RisingEnd(front: seq<Entry>, last: Entry)
    ensures Rising(front + [last]) <==> Rising(front) && forall e :: e in front ==> e.id < last.id
  {
    var queue := front + [last];
    if Rising(queue) {
      forall i, j | 0 <= i < j < |front| ensures front[i].id < front[j].id {
        assert queue[i] == front[i] && queue[j] == front[j];
      }
      forall e | e in front ensures e.id < last.id {
        var i :| 0 <= i < |front| && front[i] == e;
        assert queue[i] == e && queue[|front|] == last;
      }
    } else {
      var i, j :| 0 <= i < j < |queue| && queue[i].id >= queue[j].id;
      if j < |front| { assert front[i] == queue[i] && front[j] == queue[j]; } else { assert front[i] in front; }
    }
  }

  lemma RisingStart(head: Entry, tail: seq<Entry>)
    ensures Rising([head] + tail) <==> Rising(tail) && forall e :: e in tail ==> head.id < e.id
  {
    var queue := [head] + tail;
    if Rising(queue) {
      forall i, j | 0 <= i < j < |tail| ensures tail[i].id < tail[j].id {
        assert queue[i + 1] == tail[i] && queue[j + 1] == tail[j];
      }
      forall e | e in tail ensures head.id < e.id {
        var i :| 0 <= i < |tail| && tail[i] == e;
        assert queue[i + 1] == e && queue[0] == head;
      }
    } else {
      var i, j :| 0 <= i < j < |queue| && queue[i].id >= queue[j].id;
      assert queue[j] == tail[j - 1];
      if i > 0 { assert queue[i] == tail[i - 1]; }
    }
  }

  lemma {:induction false} LiveMembers(queue: seq<Entry>, now: int)
    ensures forall e :: e in Live(queue, now) <==> e in queue && e.expiresAt > now
    ensures |Live(queue, now)| <= |queue|
    decreases |queue|
  {
    if queue != [] {
      LiveMembers(queue[..|queue| - 1], now);
      assert queue == queue[..|queue| - 1] + [queue[|queue| - 1]];
    }
  }

  lemma {:induction false} LiveRises(queue: seq<Entry>, now: int)
    requires Rising(queue)
    ensures Rising(Live(queue, now))
    decreases |queue|
  {
    if queue != [] {
      var front, last := queue[..|queue| - 1], queue[|queue| - 1];
      assert queue == front + [last];
      RisingEnd(front, last);
      LiveRises(front, now);
      LiveMembers(front, now);
      RisingEnd(Live(front, now), last);
    }
  }

  predicate ExpiredIn(queue: seq<Entry>, now: int, id: nat) {
    exists e :: e in queue && e.expiresAt <= now && e.id == id
  }

  lemma ExpiredInOne(front: seq<Entry>, last: Entry, now: int, id: nat)
    ensures ExpiredIn(front + [last], now, id) <==>
              ExpiredIn(front, now, id) || (last.expiresAt <= now && last.id == id)
  {
    if ExpiredIn(front, now, id) {
      var e :| e in front && e.expiresAt <= now && e.id == id;
      assert e in front + [last];
    }
    assert last in front + [last];
  }

  lemma {:induction false} SettleExpiredSettles(settled: map<nat, Outcome>, queue: seq<Entry>, now: int)
    requires Rising(queue)
    requires forall e :: e in queue ==> e.id !in settled
    ensures var after := SettleExpired(settled, queue, now);
            && (forall id :: id in after <==> id in settled || ExpiredIn(queue, now, id))
            && (forall id :: id in after ==> after[id] == if id in settled then settled[id] else Expired)
    decreases |queue|
  {
    if queue != [] {
      var front, last := queue[..|queue| - 1], queue[|queue| - 1];
      assert queue == front + [last];
      RisingEnd(front, last);
      forall id: nat { ExpiredInOne(front, last, now, id); }
      SettleExpiredSettles(if last.expiresAt <= now then Settle(settled, last.id, Expired) else settled, front, now);
    }
  }

  lemma DropKeepsOrder(s: State, now: int)
    requires Ordered(s)
    ensures Ordered(DropExpired(s, now))
  {
    LiveMembers(s.queue, now);
    LiveRises(s.queue, now);
  }

  lemma DropKeepsAccounts(s: State, now: int)
    requires Ordered(s) && Accounted(s)
    ensures Accounted(DropExpired(s, now))
  {
    LiveMembers(s.queue, now);
    SettleExpiredSettles(s.settled, s.queue, now);
    var t := DropExpired(s, now);
    forall id | id in t.settled ensures id < t.next && (t.settled[id] == Ran <==> id in t.started) {
      if id !in s.settled {
        var e :| e in s.queue && e.expiresAt <= now && e.id == id;
        assert id !in s.started;
      }
    }
    forall e | e in t.queue ensures e.id !in t.settled {
      assert e in s.queue;
      forall d | d in s.queue && d.id == e.id ensures d == e { SameEntry(s.queue, d, e); }
    }
    forall id: nat | id < t.next ensures Queued(t, id) || id in t.running || id in t.settled {
      if Queued(s, id) {
        var e :| e in s.queue && e.id == id;
        assert e in t.queue || ExpiredIn(s.queue, now, id);
      }
    }
    assert forall e, id :: e in s.queue && id in s.running ==> id in s.started && e.id != id;
  }

  lemma SameEntry(queue: seq<Entry>, d: Entry, e: Entry)
    requires Rising(queue)
    requires d in queue && e in queue && d.id == e.id
    ensures d == e
  {
    var i :| 0 <= i < |queue| && queue[i] == d;
    var j :| 0 <= j < |queue| && queue[j] == e;
    assert i == j;
  }

  lemma DropKeepsSound(l: Limits, s: State, now: int)
    requires Sound(l, s)
    ensures Sound(l, DropExpired(s, now))
  {
    DropKeepsOrder(s, now);
    DropKeepsAccounts(s, now);
    LiveMembers(s.queue, now);
  }

  lemma DropKeepsInv(l: Limits, s: State, now: int)
    requires Inv(l, s)
    ensures Inv(l, DropExpired(s, now))
  {
    DropKeepsSound(l, s, now);
    LiveMembers(s.queue, now);
  }

  /** An entry accepted after everything started may be started now. */
  lemma StartsLast(started: seq<nat>, id: nat)
    requires forall i, j :: 0 <= i < j < |started| ==> started[i] < started[j]
    requires forall k :: k in started ==> k < id
    ensures var t := started + [id];
            (forall i, j :: 0 <= i < j < |t| ==> t[i] < t[j]) && (forall k :: k in t <==> k in started || k == id)
  {
    var t := started + [id];
    forall i, j | 0 <= i < j < |t| ensures t[i] < t[j] {
      if j == |started| { assert started[i] in started; }
    }
  }

  lemma DispatchKeepsOrder(s: State)
    requires Ordered(s) && s.queue != []
    ensures Ordered(Dispatch(s.(queue := s.queue[1..]), s.queue[0].id))
  {
    var head, rest := s.queue[0], s.queue[1..];
    assert head in s.queue && s.queue == [head] + rest;
    RisingStart(head, rest);
    StartsLast(s.started, head.id);
    assert forall e :: e in rest ==> e in s.queue;
  }

  lemma DispatchKeepsSound(l: Limits, s: State)
    requires Sound(l, s) && s.active < l.cap && s.queue != []
    ensures Sound(l, Dispatch(s.(queue := s.queue[1..]), s.queue[0].id))
  {
    var head := s.queue[0];
    var t := Dispatch(s.(queue := s.queue[1..]), head.id);
    assert head in s.queue && s.queue == [head] + t.queue;
    DispatchKeepsOrder(s);
    StartsLast(s.started, head.id);
    forall id: nat | id < t.next ensures Queued(t, id) || id in t.running || id in t.settled {
      if Queued(s, id) && id != head.id {
        var e :| e in s.queue && e.id == id;
        assert e in t.queue;
      }
    }
  }

  lemma {:induction false} PumpFills(l: Limits, s: State)
    requires Sound(l, s)
    ensures Inv(l, Pump(l, s))
    ensures s.started <= Pump(l, s).started
    decreases |s.queue|
  {
    if s.active < l.cap && s.queue != [] {
      DispatchKeepsSound(l, s);
      PumpFills(l, Dispatch(s.(queue := s.queue[1..]), s.queue[0].id));
    }
  }

  lemma StartNewKeepsInv(l: Limits, s: State)
    requires Inv(l, s) && s.active < l.cap
    ensures Inv(l, StartedNew(s))
  {
    var t := StartedNew(s);
    StartsLast(s.started, s.next);
    assert s.queue == [] && s.next !in s.running;
    forall id: nat | id < t.next ensures Queued(t, id) || id in t.running || id in t.settled {
      assert id < s.next ==> !Queued(s, id);
    }
  }

  lemma EnqueueKeepsInv(l: Limits, s: State, expiresAt: int)
    requires Inv(l, s) && s.active >= l.cap && |s.queue| < l.capacity
    ensures Inv(l, Enqueued(s, expiresAt))
  {
    var t := Enqueued(s, expiresAt);
    RisingEnd(s.queue, Entry(s.next, expiresAt));
    forall id: nat | id < t.next ensures Queued(t, id) || id in t.running || id in t.settled {
      if id == s.next {
        assert Entry(s.next, expiresAt) in t.queue;
      } else if Queued(s, id) {
        var e :| e in s.queue && e.id == id;
        assert e in t.queue;
      }
    }
  }

  lemma AdmitKeepsInv(l: Limits, s: State, expiresAt: int)
    requires Inv(l, s)
    ensures Inv(l, Admit(l, s, expiresAt))
  {
    if !Busy(l, s) {
      if s.active < l.cap { StartNewKeepsInv(l, s); } else { EnqueueKeepsInv(l, s, expiresAt); }
    }
  }

  lemma FreedIsSound(l: Limits, s: State, id: nat)
    requires Inv(l, s) && id in s.running && s.active > 0
    ensures Sound(l, Freed(s, id))
  {
    assert forall k :: Queued(Freed(s, id), k) == Queued(s, k);
  }

  lemma FinishKeepsInv(l: Limits, s: State, id: nat, now: int)
    requires Inv(l, s)
    ensures Inv(l, OnFinish(l, s, id, now))
  {
    if id in s.running && s.active > 0 {
      FreedIsSound(l, s, id);
      DropKeepsSound(l, Freed(s, id), now);
      PumpFills(l, DropExpired(Freed(s, id), now));
    }
  }

  lemma {:induction false} RemovedOnly(queue: seq<Entry>, id: nat)
    requires Rising(queue)
    ensures forall e :: e in Removed(queue, id) <==> e in queue && e.id != id
    ensures Rising(Removed(queue, id)) && |Removed(queue, id)| <= |queue|
  {
    if queue != [] {
      var head, tail := queue[0], queue[1..];
      assert queue == [head] + tail;
      RisingStart(head, tail);
      if head.id != id {
        RemovedOnly(tail, id);
        RisingStart(head, Removed(tail, id));
      }
    }
  }

  lemma AbandonKeepsInv(l: Limits, s: State, id: nat)
    requires Inv(l, s)
    ensures Inv(l, OnAbandon(s, id))
  {
    if Queued(s, id) {
      RemovedOnly(s.queue, id);
      var t := OnAbandon(s, id);
      forall k: nat | k < t.next ensures Queued(t, k) || k in t.running || k in t.settled {
        if Queued(s, k) && k != id {
          var e :| e in s.queue && e.id == k;
          assert e in t.queue;
        }
      }
    }
  }

  lemma {:induction false} RunKeepsInv(l: Limits, events: seq<Event>)
    ensures Inv(l, Run(l, events))
    decreases |events|
  {
    if events != [] {
      var s := Run(l, events[..|events| - 1]);
      RunKeepsInv(l, events[..|events| - 1]);
      match events[|events| - 1]
      case Submit(now, expiresAt) => DropKeepsInv(l, s, now); AdmitKeepsInv(l, DropExpired(s, now), expiresAt);
      case Finish(id, now) => FinishKeepsInv(l, s, id, now);
      case Tick(now) => DropKeepsInv(l, s, now);
      case Abandon(id) => AbandonKeepsInv(l, s, id);
    }
  }

  // ---------------------------------------------------------------- what it means

  /** Both bounds hold, and no entry waits while a slot is free. */
  lemma BoundedAndWorkConserving(l: Limits, events: seq<Event>)
    ensures var s := Run(l, events);
            && s.active == |s.running| <= l.cap && |s.queue| <= l.capacity
            && (s.active < l.cap ==> s.queue == []) && (s.queue != [] ==> s.timer)
  {
    RunKeepsInv(l, events);
  }

  /** Entries are started in the order they were accepted, each at most once. */
  lemma StartedInOrder(l: Limits, events: seq<Event>, i: nat, j: nat)
    requires i < j < |Run(l, events).started|
    ensures Run(l, events).started[i] < Run(l, events).started[j]
  {
    RunKeepsInv(l, events);
  }

  /**
    Every accepted entry is in exactly one place: waiting, running, or settled.  It is settled `Ran` exactly
    if it was started and is not running any more; one settled otherwise was never started.
  */
  lemma ExactlyOnePlace(l: Limits, events: seq<Event>, id: nat)
    requires id < Run(l, events).next
    ensures var s := Run(l, events);
            && (Queued(s, id) || id in s.running || id in s.settled)
            && !(Queued(s, id) && id in s.running) && !(Queued(s, id) && id in s.settled) && !(id in s.running
                && id in s.settled)
            && (id in s.started <==> id in s.running || (id in s.settled && s.settled[id] == Ran))
  {
    RunKeepsInv(l, events);
  }

  /** A verdict never changes. */
  lemma VerdictStands(l: Limits, events: seq<Event>, e: Event, id: nat)
    requires id in Run(l, events).settled
    ensures var t := Step(l, Run(l, events), e); id in t.settled && t.settled[id] == Run(l, events).settled[id]
  {
    RunKeepsInv(l, events);
    var s := Run(l, events);
    match e
    case Submit(now, _) => SettleExpiredSettles(s.settled, s.queue, now);
    case Finish(k, now) =>
      if k in s.running {
        FreedIsSound(l, s, k);
        SettleExpiredSettles(Freed(s, k).settled, s.queue, now);
        PumpSettlesNothing(l, DropExpired(Freed(s, k), now));
      }
    case Tick(now) => SettleExpiredSettles(s.settled, s.queue, now);
    case Abandon(_) =>
  }

  lemma {:induction false} PumpSettlesNothing(l: Limits, s: State)
    ensures Pump(l, s).settled == s.settled
    decreases |s.queue|
  {
    if s.active < l.cap && s.queue != [] {
      PumpSettlesNothing(l, Dispatch(s.(queue := s.queue[1..]), s.queue[0].id));
    }
  }

  // ---------------------------------------------------------------- the object

  class ExecutionQueue {
    const limits: Limits
    var active: nat
    var queue: seq<Entry>
    var highWaterMark: nat
    var timer: bool
    var next: nat
    var settled: map<nat, Outcome>
    ghost var running: set<nat>
    ghost var started: seq<nat>

    ghost function Value(): State
      reads this
    {
      State(active, queue, highWaterMark, timer, next, running, started, settled)
    }

    constructor (cap: nat, capacity: nat)
      ensures Value() == IDLE && limits == Limits(cap, capacity)
    {
      limits := Limits(cap, capacity);
      active, queue, highWaterMark, timer, next, settled := 0, [], 0, false, 0, map[];
      running, started := {}, [];
    }

    /** Scans from the back, so that removing does not move what is still to be looked at. */
    method Expire(now: int)
      modifies this`queue, this`settled, this`timer
      ensures Value() == DropExpired(old(Value()), now)
    {
      var i := |queue|;
      ghost var all, kept := queue, [];
      assert all[..i] == all && Live(all, now) + [] == Live(all, now);
      while i > 0
        invariant 0 <= i <= |all| && queue == all[..i] + kept
        invariant Live(all, now) == Live(all[..i], now) + kept
        invariant SettleExpired(old(settled), all, now) == SettleExpired(settled, all[..i], now)
        invariant timer == old(timer)
      {
        i := i - 1;
        var entry := queue[i];
        assert all[..i + 1][..i] == all[..i] && all[..i + 1][i] == entry;
        if entry.expiresAt <= now {
          assert queue[..i] + queue[i + 1..] == all[..i] + kept;
          queue := queue[..i] + queue[i + 1..];
          settled := Settle(settled, entry.id, Expired);
        } else {
          assert Live(all[..i], now) + ([entry] + kept) == (Live(all[..i], now) + [entry]) + kept;
          assert all[..i] + ([entry] + kept) == queue;
          kept := [entry] + kept;
        }
      }
      assert queue == kept && Live(all, now) == kept;
      if |queue| == 0 { timer := false; }
    }

    method Start(id: nat)
      modifies this
      ensures Value() == Dispatch(old(Value()), id)
    {
      active := active + 1;
      running, started := running + {id}, started + [id];
    }

    method Fill()
      modifies this
      ensures Value() == Pump(limits, old(Value()))
    {
      while active < limits.cap
        invariant Pump(limits, Value()) == Pump(limits, old(Value()))
        decreases |queue|
      {
        if queue == [] { return; }
        var head := queue[0];
        queue := queue[1..];
        Start(head.id);
      }
    }

    method Submit(now: int, expiresAt: int) returns (accepted: Option<nat>)
      modifies this
      ensures Value() == OnSubmit(limits, old(Value()), now, expiresAt)
      ensures accepted == if Busy(limits, DropExpired(old(Value()), now)) then None else Some(old(next))
    {
      Expire(now);
      if active >= limits.cap && |queue| >= limits.capacity {
        return None;
      }
      accepted := Some(next);
      if active < limits.cap {
        Start(next);
      } else {
        queue := queue + [Entry(next, expiresAt)];
        if |queue| > highWaterMark { highWaterMark := |queue|; }
        timer := true;
      }
      next := next + 1;
    }

    /** The `finally` of a dispatched entry. */
    method Finish(id: nat, now: int)
      requires id in running && active > 0
      modifies this
      ensures Value() == OnFinish(limits, old(Value()), id, now)
    {
      active := active - 1;
      running := running - {id};
      settled := Settle(settled, id, Ran);
      Expire(now);
      Fill();
    }

    method Abandon(id: nat)
      modifies this
      ensures Value() == OnAbandon(old(Value()), id)
    {
      var idx := 0;
      while idx < |queue| && queue[idx].id != id
        invariant idx <= |queue|
        invariant forall i :: 0 <= i < idx ==> queue[i].id != id
        invariant queue[..idx] + Removed(queue[idx..], id) == Removed(queue, id)
      {
        assert queue[idx..][1..] == queue[idx + 1..];
        assert queue[..idx + 1] == queue[..idx] + [queue[idx]];
        idx := idx + 1;
      }
      if idx < |queue| {
        assert queue[idx] in queue;
        assert queue[idx..][1..] == queue[idx + 1..];
        queue := queue[..idx] + queue[idx + 1..];
        settled := Settle(settled, id, Abandoned);
      }
    }
  }
}
