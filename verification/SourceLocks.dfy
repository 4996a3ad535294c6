/**
  The promise-chain lock that serializes source requests per namespace.

  A run is its position in arrival order, which also stands for the promise it leaves as tail.  `Call`
  is the synchronous part of `run`, `Wake` the continuation after the predecessor's promise, `Finish`
  the `finally` block.
*/
module SourceLocks {
  import opened Wrappers

  datatype Phase = Waiting | Active | Finished

  datatype Run = Run(key: string, predecessor: Option<nat>, phase: Phase)

  datatype Locks = Locks(tails: map<string, nat>, runs: seq<Run>)

  datatype Event = Call(key: string) | Wake(id: nat) | Finish(id: nat)

  const EMPTY := Locks(map[], [])

  /** With no predecessor the function starts in the same step. */
  function OnCall(l: Locks, key: string): Locks {
    var predecessor := if key in l.tails then Some(l.tails[key]) else None;
    Locks(l.tails[key := |l.runs|], l.runs + [Run(key, predecessor, if predecessor.None? then Active else Waiting)])
  }

  /** The predecessor's promise has resolved. */
  predicate Ready(l: Locks, id: nat) {
    && id < |l.runs| && l.runs[id].phase == Waiting && l.runs[id].predecessor.Some?
    && l.runs[id].predecessor.value < |l.runs| && l.runs[l.runs[id].predecessor.value].phase == Finished
  }

  function OnWake(l: Locks, id: nat): Locks {
    if Ready(l, id) then l.(runs := l.runs[id := l.runs[id].(phase := Active)]) else l
  }

  function OnFinish(l: Locks, id: nat): Locks {
    if id >= |l.runs| || l.runs[id].phase != Active then l
    else
      var key := l.runs[id].key;
      Locks(if key in l.tails && l.tails[key] == id then l.tails - {key} else l.tails,
            l.runs[id := l.runs[id].(phase := Finished)])
  }

  function Step(l: Locks, e: Event): Locks {
    match e
    case Call(key) => OnCall(l, key)
    case Wake(id) => OnWake(l, id)
    case Finish(id) => OnFinish(l, id)
  }

  function After(events: seq<Event>): Locks {
    if events == [] then EMPTY else Step(After(events[..|events| - 1]), events[|events| - 1])
  }

  predicate Earlier(l: Locks, i: nat, j: nat) {
    i < j < |l.runs| && l.runs[i].key == l.runs[j].key
  }

  /** Each run waits for the run of its key called just before it, and starts when all earlier ones are done. */
  ghost predicate Chained(l: Locks) {
    && (forall j: nat :: j < |l.runs| && l.runs[j].phase == Waiting ==> l.runs[j].predecessor.Some?)
    && (forall j: nat :: j < |l.runs| && l.runs[j].predecessor.Some? ==> Earlier(l, l.runs[j].predecessor.value, j))
    && (forall i: nat, j: nat :: Earlier(l, i, j) && l.runs[j].predecessor.Some? ==> i <= l.runs[j].predecessor.value)
    && (forall i: nat, j: nat :: Earlier(l, i, j) && l.runs[j].phase != Waiting ==> l.runs[i].phase == Finished)
  }

  ghost predicate Tailed(l: Locks) {
    && (forall key :: key in l.tails ==>
          && l.tails[key] < |l.runs| && l.runs[l.tails[key]].key == key && l.runs[l.tails[key]].phase != Finished
          && forall j: nat :: j < |l.runs| && l.runs[j].key == key ==> j <= l.tails[key])
    && (forall j: nat :: j < |l.runs| && l.runs[j].phase != Finished ==> l.runs[j].key in l.tails)
  }

  ghost predicate Inv(l: Locks) { Chained(l) && Tailed(l) }

  lemma CallKeepsTails(l: Locks, key: string)
    requires Tailed(l)
    ensures Tailed(OnCall(l, key))
  {
  }

  lemma CallKeepsChain(l: Locks, key: string)
    requires Inv(l)
    ensures Chained(OnCall(l, key))
  {
    var t := OnCall(l, key);
    forall i: nat, j: nat | Earlier(t, i, j)
      ensures t.runs[j].predecessor.Some? ==> i <= t.runs[j].predecessor.value
      ensures t.runs[j].phase != Waiting ==> t.runs[i].phase == Finished
    {
      if j < |l.runs| { assert Earlier(l, i, j); }
    }
  }

  lemma WakeKeepsTails(l: Locks, id: nat)
    requires Tailed(l)
    ensures Tailed(OnWake(l, id))
  {
  }

  lemma WakeKeepsChain(l: Locks, id: nat)
    requires Chained(l)
    ensures Chained(OnWake(l, id))
  {
    var t := OnWake(l, id);
    forall i: nat, j: nat | Earlier(t, i, j)
      ensures t.runs[j].predecessor.Some? ==> i <= t.runs[j].predecessor.value
      ensures t.runs[j].phase != Waiting ==> t.runs[i].phase == Finished
    {
      assert Earlier(l, i, j);
      if j == id && Ready(l, id) {
        var p := l.runs[j].predecessor.value;
        if i < p { assert Earlier(l, i, p); }
      }
    }
  }

  lemma FinishKeepsChain(l: Locks, id: nat)
    requires Chained(l)
    ensures Chained(OnFinish(l, id))
  {
    var t := OnFinish(l, id);
    forall i: nat, j: nat | Earlier(t, i, j)
      ensures t.runs[j].predecessor.Some? ==> i <= t.runs[j].predecessor.value
      ensures t.runs[j].phase != Waiting ==> t.runs[i].phase == Finished
    {
      assert Earlier(l, i, j);
    }
  }

  lemma FinishKeepsTails(l: Locks, id: nat)
    requires Inv(l)
    ensures Tailed(OnFinish(l, id))
  {
    var t := OnFinish(l, id);
    forall j: nat | j < |t.runs| && t.runs[j].phase != Finished ensures t.runs[j].key in t.tails {
      if id < |l.runs| && l.runs[id].phase == Active && t.runs[j].key == l.runs[id].key {
        if j < id { assert Earlier(l, j, id); }
      }
    }
  }

  lemma StepKeepsInv(l: Locks, e: Event)
    requires Inv(l)
    ensures Inv(Step(l, e))
  {
    match e
    case Call(key) => CallKeepsTails(l, key); CallKeepsChain(l, key);
    case Wake(id) => WakeKeepsTails(l, id); WakeKeepsChain(l, id);
    case Finish(id) => FinishKeepsChain(l, id); FinishKeepsTails(l, id);
  }

  lemma {:induction false} AfterKeepsInv(events: seq<Event>)
    ensures Inv(After(events))
    decreases |events|
  {
    if events != [] {
      AfterKeepsInv(events[..|events| - 1]);
      StepKeepsInv(After(events[..|events| - 1]), events[|events| - 1]);
    }
  }

  /** One run per key at a time, and they start in the order they were called. */
  lemma ExclusiveInArrivalOrder(events: seq<Event>, i: nat, j: nat)
    requires Earlier(After(events), i, j) && After(events).runs[j].phase != Waiting
    ensures After(events).runs[i].phase == Finished
  {
    AfterKeepsInv(events);
  }

  /** A key has an entry exactly while a run for it is active or waiting. */
  lemma EntryExactlyWhileBusy(events: seq<Event>, key: string)
    ensures key in After(events).tails <==>
              exists i: nat :: i < |After(events).runs| && After(events).runs[i].key == key
                  && After(events).runs[i].phase != Finished
  {
    AfterKeepsInv(events);
  }

  /** No lost wake-up: while any run for a key is unfinished, one of them is running or may run now. */
  lemma {:induction false} SomebodyCanRun(events: seq<Event>, i: nat) returns (front: nat)
    requires i < |After(events).runs| && After(events).runs[i].phase != Finished
    ensures var l := After(events);
            && front < |l.runs| && l.runs[front].key == l.runs[i].key
            && (l.runs[front].phase == Active || Ready(l, front))
    decreases i
  {
    AfterKeepsInv(events);
    var l := After(events);
    if l.runs[i].phase == Active || Ready(l, i) {
      front := i;
    } else {
      front := SomebodyCanRun(events, l.runs[i].predecessor.value);
    }
  }

  /** What further events make of the locks. */
  function Onward(l: Locks, events: seq<Event>): Locks
    decreases |events|
  {
    if events == [] then l else Onward(Step(l, events[0]), events[1..])
  }

  lemma {:induction false} OnwardThen(l: Locks, a: seq<Event>, b: seq<Event>)
    ensures Onward(l, a + b) == Onward(Onward(l, a), b)
    decreases |a|
  {
    if a == [] {
      assert a + b == b;
    } else {
      assert (a + b)[1..] == a[1..] + b;
      OnwardThen(Step(l, a[0]), a[1..], b);
    }
  }

  lemma {:induction false} OnwardKeepsInv(l: Locks, events: seq<Event>)
    requires Inv(l)
    ensures Inv(Onward(l, events))
    decreases |events|
  {
    if events != [] {
      StepKeepsInv(l, events[0]);
      OnwardKeepsInv(Step(l, events[0]), events[1..]);
    }
  }

  /** One run moved on; every other is where it was. */
  predicate OnlyMoved(l: Locks, t: Locks, id: nat, phase: Phase)
    requires id < |l.runs|
  {
    t.runs == l.runs[id := l.runs[id].(phase := phase)]
  }

  /** A run whose predecessor is done starts when it wakes, and one that runs is done when it finishes. */
  lemma WakesAndFinishes(l: Locks, id: nat)
    requires id < |l.runs|
    ensures Ready(l, id) ==> OnlyMoved(l, Step(l, Wake(id)), id, Active)
    ensures !Ready(l, id) ==> Step(l, Wake(id)) == l
    ensures l.runs[id].phase == Active ==> OnlyMoved(l, Step(l, Finish(id)), id, Finished)
    ensures l.runs[id].phase != Active ==> Step(l, Finish(id)) == l
  {
  }

  predicate DoneBelow(l: Locks, n: nat) { forall i :: 0 <= i < n && i < |l.runs| ==> l.runs[i].phase == Finished }

  lemma OnwardOnce(l: Locks, e: Event)
    ensures Onward(l, [e]) == Step(l, e)
  {
    assert [e][1..] == [];
  }

  lemma ReadyInTurn(l: Locks, id: nat)
    requires Chained(l) && id < |l.runs| && DoneBelow(l, id) && l.runs[id].phase == Waiting
    ensures Ready(l, id)
  {
    assert Earlier(l, l.runs[id].predecessor.value, id);
  }

  lemma FinishesItsTurn(l: Locks, id: nat)
    requires id < |l.runs| && DoneBelow(l, id) && l.runs[id].phase == Active
    ensures DoneBelow(Step(l, Finish(id)), id + 1) && |Step(l, Finish(id)).runs| == |l.runs|
  {
    WakesAndFinishes(l, id);
  }

  lemma WakesInTurn(l: Locks, id: nat)
    requires Chained(l) && id < |l.runs| && DoneBelow(l, id) && l.runs[id].phase == Waiting
    ensures DoneBelow(Step(l, Wake(id)), id) && |Step(l, Wake(id)).runs| == |l.runs|
    ensures Step(l, Wake(id)).runs[id].phase == Active
  {
    ReadyInTurn(l, id);
    WakesAndFinishes(l, id);
  }

  lemma OnwardTwice(l: Locks, e: Event, f: Event)
    ensures Onward(l, [e, f]) == Step(Step(l, e), f)
  {
    assert [e, f] == [e] + [f];
    OnwardThen(l, [e], [f]);
    OnwardOnce(l, e);
    OnwardOnce(Step(l, e), f);
  }

  /** What moves run `id` through its turn. */
  function Turn(l: Locks, id: nat): seq<Event>
    requires id < |l.runs|
  {
    match l.runs[id].phase
    case Finished => []
    case Active => [Finish(id)]
    case Waiting => [Wake(id), Finish(id)]
  }

  lemma WaitsItsTurn(l: Locks, id: nat)
    requires Chained(l) && id < |l.runs| && DoneBelow(l, id) && l.runs[id].phase == Waiting
    ensures DoneBelow(Onward(l, Turn(l, id)), id + 1) && |Onward(l, Turn(l, id)).runs| == |l.runs|
  {
    WakesInTurn(l, id);
    var t := Step(l, Wake(id));
    FinishesItsTurn(t, id);
    OnwardTwice(l, Wake(id), Finish(id));
  }

  lemma TakesItsTurn(l: Locks, id: nat)
    requires Chained(l) && id < |l.runs| && DoneBelow(l, id)
    ensures DoneBelow(Onward(l, Turn(l, id)), id + 1) && |Onward(l, Turn(l, id)).runs| == |l.runs|
  {
    match l.runs[id].phase
    case Finished =>
    case Active =>
      OnwardOnce(l, Finish(id));
      FinishesItsTurn(l, id);
    case Waiting =>
      WaitsItsTurn(l, id);
  }

  lemma {:induction false} DrainsBelow(l: Locks, n: nat) returns (events: seq<Event>)
    requires Inv(l) && n <= |l.runs|
    ensures DoneBelow(Onward(l, events), n) && |Onward(l, events).runs| == |l.runs|
    ensures forall e :: e in events ==> !e.Call?
    decreases n
  {
    if n == 0 {
      events := [];
    } else {
      var before := DrainsBelow(l, n - 1);
      OnwardKeepsInv(l, before);
      TakesItsTurn(Onward(l, before), n - 1);
      var turn := Turn(Onward(l, before), n - 1);
      OnwardThen(l, before, turn);
      events := before + turn;
    }
  }

  lemma TailIsBusy(l: Locks, key: string)
    requires Tailed(l)
    ensures key in l.tails ==> l.tails[key] < |l.runs| && l.runs[l.tails[key]].phase != Finished
  {
  }

  lemma NoTailWhenDone(l: Locks)
    requires Tailed(l) && DoneBelow(l, |l.runs|)
    ensures l.tails == map[]
  {
    forall key ensures key !in l.tails {
      TailIsBusy(l, key);
    }
    assert l.tails.Keys == {};
  }

  /** From every reachable state the runs can all have their turn, and the map is then empty again. */
  lemma EveryRunCanFinish(events: seq<Event>) returns (more: seq<Event>)
    ensures forall e :: e in more ==> !e.Call?
    ensures
      var l := Onward(After(events), more);
      && |l.runs| == |After(events).runs| && l.tails == map[]
      && forall i :: 0 <= i < |l.runs| ==> l.runs[i].phase == Finished
  {
    AfterKeepsInv(events);
    more := DrainsBelow(After(events), |After(events).runs|);
    OnwardKeepsInv(After(events), more);
    NoTailWhenDone(Onward(After(events), more));
  }

  class SourceLock {
    var tails: map<string, nat>
    var runs: seq<Run>

    ghost function Value(): Locks
      reads this
    {
      Locks(tails, runs)
    }

    constructor ()
      ensures Value() == EMPTY
    {
      tails, runs := map[], [];
    }

    method Call(key: string) returns (mine: nat)
      modifies this
      ensures mine == |old(runs)| && Value() == OnCall(old(Value()), key)
    {
      mine := |runs|;
      var predecessor := if key in tails then Some(tails[key]) else None;
      tails := tails[key := mine];
      runs := runs + [Run(key, predecessor, if predecessor.None? then Active else Waiting)];
    }

    method Wake(mine: nat)
      requires Ready(Value(), mine)
      modifies this
      ensures Value() == OnWake(old(Value()), mine)
    {
      runs := runs[mine := runs[mine].(phase := Active)];
    }

    /** The entry goes only if no later run has replaced the tail. */
    method Finish(mine: nat)
      requires mine < |runs| && runs[mine].phase == Active
      modifies this
      ensures Value() == OnFinish(old(Value()), mine)
    {
      var key := runs[mine].key;
      runs := runs[mine := runs[mine].(phase := Finished)];
      if key in tails && tails[key] == mine {
        tails := tails - {key};
      }
    }
  }
}
