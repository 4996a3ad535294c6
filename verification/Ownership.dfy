/**
  Who may have the store open: any number of daemons, offline key commands and probing clients over
  two kernel locks.

  A daemon takes lifecycle EXCLUSIVE, then maintenance SHARED, then opens the store, sweeps the rows a
  dead daemon left running, and only then binds its endpoint.  Rotation, generation and the offline
  doctor take maintenance EXCLUSIVE.  A dying process loses its locks in the same step, and that is
  also how a daemon is meant to leave: release and exit at once.  `ReleaseMaintenance` and
  `ReleaseLifecycle` are the same shutdown with the process still alive in between.
*/
module Ownership {
  import opened Wrappers

  /** The compatibility of one lock database: many shared holders or one exclusive holder. */
  datatype Lock = Lock(shared: set<nat>, exclusive: Option<nat>)

  const FREE := Lock({}, None)

  predicate Sharable(l: Lock) { l.exclusive.None? }

  predicate Excludable(l: Lock) { l == FREE }

  function Drop(l: Lock, p: nat): Lock {
    Lock(l.shared - {p}, if l.exclusive == Some(p) then None else l.exclusive)
  }

  datatype Phase =
    | Starting
    | Locked
    | Guarded
    | Opened
    | Sweeping(left: set<nat>)
    | Swept
    | Bound
    | Leaving
    | Unlocked

  datatype Process = Daemon(phase: Phase) | Offline(critical: bool) | Prober(ofLifecycle: bool, holding: bool)

  datatype Status = Running(owner: nat) | Paused | Settled | Ambiguous(owner: nat)

  datatype State =
    State(lifecycle: Lock, maintenance: Lock, processes: map<nat, Process>, spawned: set<nat>, rows: map<nat, Status>)

  /** `granted` is whether the kernel grants the lock asked for: it may always refuse. */
  datatype Event =
    | Spawn(p: nat, process: Process)
    | Advance(p: nat, granted: bool)
    | SweepRow(p: nat, id: nat)
    | Begin(p: nat, id: nat)
    | Finish(p: nat, id: nat, paused: bool)
    | Die(p: nat)
    | ReleaseMaintenance(p: nat)
    | ReleaseLifecycle(p: nat)

  function With(s: State, p: nat, process: Process): State { s.(processes := s.processes[p := process]) }

  /** The kernel drops every lock of a process that is gone. */
  function OnDie(s: State, p: nat): State {
    s.(processes := s.processes - {p}, lifecycle := Drop(s.lifecycle, p), maintenance := Drop(s.maintenance, p))
  }

  predicate RunningRow(s: State, id: nat) { id in s.rows && s.rows[id].Running? }

  function RunningOf(rows: map<nat, Status>): set<nat> { set id | id in rows && rows[id].Running? }

  function OnDaemon(s: State, p: nat, phase: Phase, granted: bool): State {
    match phase
    case Starting =>
      if granted && Excludable(s.lifecycle) then
        With(s.(lifecycle := s.lifecycle.(exclusive := Some(p))), p, Daemon(Locked))
      else OnDie(s, p)
    case Locked =>
      if granted && Sharable(s.maintenance) then
        With(s.(maintenance := s.maintenance.(shared := s.maintenance.shared + {p})), p, Daemon(Guarded))
      else OnDie(s, p)
    case Guarded => With(s, p, Daemon(Opened))
    case Opened => With(s, p, Daemon(Sweeping(RunningOf(s.rows))))
    case Sweeping(left) => if left == {} then With(s, p, Daemon(Swept)) else s
    case Swept => With(s, p, Daemon(Bound))
    case _ => s
  }

  function OnAdvance(s: State, p: nat, granted: bool): State {
    if p !in s.processes then s
    else match s.processes[p]
      case Daemon(phase) => OnDaemon(s, p, phase, granted)
      case Offline(critical) =>
        if !critical && granted && Excludable(s.maintenance) then
          With(s.(maintenance := s.maintenance.(exclusive := Some(p))), p, Offline(true))
        else OnDie(s, p)
      case Prober(ofLifecycle, holding) =>
        if holding || !granted || !Sharable(if ofLifecycle then s.lifecycle else s.maintenance) then OnDie(s, p)
        else if ofLifecycle then
          With(s.(lifecycle := s.lifecycle.(shared := s.lifecycle.shared + {p})), p, Prober(true, true))
        else With(s.(maintenance := s.maintenance.(shared := s.maintenance.shared + {p})), p, Prober(false, true))
  }

  /** The guarded terminalizer: only a row that is still running is moved. */
  function OnSweepRow(s: State, p: nat, id: nat): State {
    if p !in s.processes || !s.processes[p].Daemon? || !s.processes[p].phase.Sweeping?
        || id !in s.processes[p].phase.left
    then s
    else
      var s1 := With(s, p, Daemon(Sweeping(s.processes[p].phase.left - {id})));
      if RunningRow(s, id) then s1.(rows := s.rows[id := Ambiguous(s.rows[id].owner)]) else s1
  }

  predicate Serving(s: State, p: nat) {
    p in s.processes && s.processes[p].Daemon? && s.processes[p].phase in {Bound, Leaving, Unlocked}
  }

  /** A served request starts a new execution or claims a paused one. */
  function OnBegin(s: State, p: nat, id: nat): State {
    if Serving(s, p) && (id !in s.rows || s.rows[id] == Paused) then s.(rows := s.rows[id := Running(p)]) else s
  }

  function OnFinish(s: State, p: nat, id: nat, paused: bool): State {
    if Serving(s, p) && id in s.rows && s.rows[id] == Running(p)
    then s.(rows := s.rows[id := if paused then Paused else Settled]) else s
  }

  function OnRelease(s: State, p: nat, maintenance: bool): State {
    if p !in s.processes || !s.processes[p].Daemon? then s
    else if maintenance && s.processes[p].phase == Bound then
      With(s.(maintenance := Drop(s.maintenance, p)), p, Daemon(Leaving))
    else if !maintenance && s.processes[p].phase == Leaving then
      With(s.(lifecycle := Drop(s.lifecycle, p)), p, Daemon(Unlocked))
    else s
  }

  predicate Newborn(process: Process) {
    process == Daemon(Starting) || process == Offline(false) || (process.Prober? && !process.holding)
  }

  function Step(s: State, e: Event): State {
    match e
    case Spawn(p, process) =>
      if p in s.spawned || !Newborn(process) then s else With(s, p, process).(spawned := s.spawned + {p})
    case Advance(p, granted) => OnAdvance(s, p, granted)
    case SweepRow(p, id) => OnSweepRow(s, p, id)
    case Begin(p, id) => OnBegin(s, p, id)
    case Finish(p, id, paused) => OnFinish(s, p, id, paused)
    case Die(p) => OnDie(s, p)
    case ReleaseMaintenance(p) => OnRelease(s, p, true)
    case ReleaseLifecycle(p) => OnRelease(s, p, false)
  }

  function Run(s: State, events: seq<Event>): State {
    if events == [] then s else Step(Run(s, events[..|events| - 1]), events[|events| - 1])
  }

  /** Releasing and exiting are one step in this run. */
  predicate LeavesAtOnce(events: seq<Event>) {
    forall e :: e in events ==> !e.ReleaseMaintenance? && !e.ReleaseLifecycle?
  }

  // ---------------------------------------------------------------- the invariant

  predicate IsDaemon(s: State, p: nat) { p in s.processes && s.processes[p].Daemon? }

  predicate HasStore(s: State, p: nat) {
    IsDaemon(s, p) && s.processes[p].phase !in {Starting, Locked, Guarded}
  }

  predicate Critical(s: State, p: nat) { p in s.processes && s.processes[p] == Offline(true) }

  /** What one process holds, by what it is doing. */
  predicate Holds(s: State, p: nat)
    requires p in s.processes
  {
    match s.processes[p]
    case Daemon(phase) =>
      && phase !in {Leaving, Unlocked}
      && (phase != Starting ==> s.lifecycle.exclusive == Some(p))
      && (phase !in {Starting, Locked} ==> p in s.maintenance.shared)
    case Offline(critical) => critical ==> s.maintenance.exclusive == Some(p)
    case Prober(_, _) => true
  }

  ghost predicate LocksInv(s: State) {
    && (s.lifecycle.exclusive.Some? ==> s.lifecycle.shared == {})
    && (s.maintenance.exclusive.Some? ==> s.maintenance.shared == {})
    && (forall p: nat :: p in s.processes ==> p in s.spawned && Holds(s, p))
  }

  /** A running row's owner has served; nothing runs while a daemon sweeps that the sweep will not reach. */
  predicate RowFits(s: State, p: nat, id: nat)
    requires p in s.processes && RunningRow(s, id)
  {
    match s.processes[p]
    case Daemon(Sweeping(left)) => id in left && s.rows[id].owner != p
    case Daemon(Bound) => s.rows[id].owner == p
    case Daemon(Swept) => false
    case _ => s.rows[id].owner != p
  }

  ghost predicate RowsInv(s: State) {
    forall id: nat :: RunningRow(s, id) ==>
      s.rows[id].owner in s.spawned && forall p: nat :: p in s.processes ==> RowFits(s, p, id)
  }

  /** Lifecycle is exclusive: past its first step there is only one daemon. */
  lemma OneDaemon(s: State, p: nat, q: nat)
    requires LocksInv(s) && IsDaemon(s, p) && IsDaemon(s, q)
    requires s.processes[p].phase != Starting && s.processes[q].phase != Starting
    ensures p == q
  {
    assert Holds(s, p) && Holds(s, q);
  }

  lemma DieKeepsLocks(s: State, p: nat)
    requires LocksInv(s)
    ensures LocksInv(OnDie(s, p))
  {
    var t := OnDie(s, p);
    forall q: nat | q in t.processes ensures q in t.spawned && Holds(t, q) { assert Holds(s, q); }
  }

  lemma DaemonKeepsLocks(s: State, p: nat, granted: bool)
    requires LocksInv(s) && IsDaemon(s, p)
    ensures LocksInv(OnDaemon(s, p, s.processes[p].phase, granted))
  {
    DieKeepsLocks(s, p);
    var t := OnDaemon(s, p, s.processes[p].phase, granted);
    assert Holds(s, p);
    forall q: nat | q in t.processes ensures q in t.spawned && Holds(t, q) { assert Holds(s, q); }
  }

  lemma OthersKeepLocks(s: State, p: nat, granted: bool)
    requires LocksInv(s) && p in s.processes && !IsDaemon(s, p)
    ensures LocksInv(OnAdvance(s, p, granted))
  {
    DieKeepsLocks(s, p);
    var t := OnAdvance(s, p, granted);
    forall q: nat | q in t.processes ensures q in t.spawned && Holds(t, q) { assert Holds(s, q); }
  }

  lemma StepKeepsLocks(s: State, e: Event)
    requires LocksInv(s) && !e.ReleaseMaintenance? && !e.ReleaseLifecycle?
    ensures LocksInv(Step(s, e))
  {
    if e.Die? {
      DieKeepsLocks(s, e.p);
    } else if e.Advance? {
      if e.p in s.processes {
        if IsDaemon(s, e.p) { DaemonKeepsLocks(s, e.p, e.granted); } else { OthersKeepLocks(s, e.p, e.granted); }
      }
    } else {
      var t := Step(s, e);
      forall q: nat | q in t.processes ensures q in t.spawned && Holds(t, q) {
        assert q in s.processes ==> Holds(s, q);
      }
    }
  }

  lemma DaemonKeepsRows(s: State, p: nat, granted: bool)
    requires RowsInv(s) && IsDaemon(s, p)
    ensures RowsInv(OnDaemon(s, p, s.processes[p].phase, granted))
  {
    var t := OnDaemon(s, p, s.processes[p].phase, granted);
    forall id: nat, q: nat | RunningRow(t, id) && q in t.processes ensures RowFits(t, q, id) {
      assert RunningRow(s, id) && RowFits(s, q, id) && RowFits(s, p, id);
    }
  }

  lemma OthersKeepRows(s: State, p: nat, granted: bool)
    requires RowsInv(s) && !IsDaemon(s, p)
    ensures RowsInv(OnAdvance(s, p, granted))
  {
    var t := OnAdvance(s, p, granted);
    forall id: nat, q: nat | RunningRow(t, id) && q in t.processes ensures RowFits(t, q, id) {
      assert RunningRow(s, id) && RowFits(s, q, id);
    }
  }

  lemma ServeKeepsRows(s: State, e: Event)
    requires LocksInv(s) && RowsInv(s) && (e.Begin? || e.Finish?)
    ensures RowsInv(Step(s, e))
  {
    var t := Step(s, e);
    forall id: nat, q: nat | RunningRow(t, id) && q in t.processes ensures RowFits(t, q, id) {
      assert Holds(s, q);
      if Serving(s, e.p) {
        assert Holds(s, e.p);
        if RunningRow(s, id) { assert RowFits(s, q, id); }
      }
    }
  }

  lemma StepKeepsRows(s: State, e: Event)
    requires LocksInv(s) && RowsInv(s) && !e.ReleaseMaintenance? && !e.ReleaseLifecycle?
    ensures RowsInv(Step(s, e))
  {
    if e.Begin? || e.Finish? {
      ServeKeepsRows(s, e);
    } else if e.Advance? {
      if e.p in s.processes && IsDaemon(s, e.p) {
        DaemonKeepsRows(s, e.p, e.granted);
      } else {
        OthersKeepRows(s, e.p, e.granted);
      }
    } else {
      var t := Step(s, e);
      forall id: nat | RunningRow(t, id) ensures t.rows[id].owner in t.spawned { assert RunningRow(s, id); }
      forall id: nat, q: nat | RunningRow(t, id) && q in t.processes ensures RowFits(t, q, id) {
        assert RunningRow(s, id);
        assert q in s.processes ==> RowFits(s, q, id);
      }
    }
  }

  /** A machine nobody uses yet; rows may still be running under processes of an earlier boot. */
  ghost predicate Boot(s: State) {
    && s.lifecycle == FREE && s.maintenance == FREE && s.processes == map[]
    && forall id: nat :: RunningRow(s, id) ==> s.rows[id].owner in s.spawned
  }

  lemma {:induction false} RunKeepsInv(s: State, events: seq<Event>)
    requires Boot(s) && LeavesAtOnce(events)
    ensures LocksInv(Run(s, events)) && RowsInv(Run(s, events))
    decreases |events|
  {
    if events != [] {
      var before := events[..|events| - 1];
      assert forall e :: e in before ==> e in events;
      RunKeepsInv(s, before);
      StepKeepsLocks(Run(s, before), events[|events| - 1]);
      StepKeepsRows(Run(s, before), events[|events| - 1]);
    }
  }

  // ---------------------------------------------------------------- what it means

  /** At most one daemon has the store open, and none does while an offline command is in its critical section. */
  lemma StoreHasOneOwner(s: State, events: seq<Event>, p: nat, q: nat)
    requires Boot(s) && LeavesAtOnce(events)
    requires var t := Run(s, events); HasStore(t, p) && (HasStore(t, q) || Critical(t, q))
    ensures p == q && HasStore(Run(s, events), q)
  {
    RunKeepsInv(s, events);
    var t := Run(s, events);
    assert Holds(t, p) && Holds(t, q);
  }

  lemma OneOfflineCommand(s: State, events: seq<Event>, p: nat, q: nat)
    requires Boot(s) && LeavesAtOnce(events) && Critical(Run(s, events), p) && Critical(Run(s, events), q)
    ensures p == q
  {
    RunKeepsInv(s, events);
    assert Holds(Run(s, events), p) && Holds(Run(s, events), q);
  }

  /** While a daemon sweeps, every running row belongs to a process that is gone: none is touched in flight. */
  lemma SweepMeetsOnlyTheDead(s: State, events: seq<Event>, p: nat, id: nat)
    requires Boot(s) && LeavesAtOnce(events)
    requires var t := Run(s, events);
             IsDaemon(t, p) && (t.processes[p].phase == Opened || t.processes[p].phase.Sweeping?) && RunningRow(t, id)
    ensures var t := Run(s, events); t.rows[id].owner in t.spawned && t.rows[id].owner !in t.processes
  {
    RunKeepsInv(s, events);
    var t := Run(s, events);
    var owner := t.rows[id].owner;
    if owner in t.processes {
      assert RowFits(t, owner, id) && t.processes[owner] == Daemon(Bound);
      OneDaemon(t, p, owner);
    }
  }

  /** When a daemon binds its endpoint no row is running, and from then on only its own rows are. */
  lemma NothingRunsAtBind(s: State, events: seq<Event>, p: nat, id: nat)
    requires Boot(s) && LeavesAtOnce(events) && IsDaemon(Run(s, events), p)
    ensures var t := Run(s, events);
            && (t.processes[p].phase == Swept ==> !RunningRow(t, id) && !RunningRow(Step(t, Advance(p, true)), id))
            && (t.processes[p].phase == Bound && RunningRow(t, id) ==> t.rows[id].owner == p)
  {
    RunKeepsInv(s, events);
    var t := Run(s, events);
    if RunningRow(t, id) { assert RowFits(t, p, id); }
  }

  lemma RunOne(s: State, whole: seq<Event>, n: nat)
    requires n < |whole|
    ensures Run(s, whole[..n + 1]) == Step(Run(s, whole[..n]), whole[n])
  {
    assert whole[..n + 1][..n] == whole[..n];
  }

  /** A daemon has the store open while an offline command is in its critical section. */
  predicate Overlap(s: State, p: nat, q: nat) { HasStore(s, p) && Critical(s, q) }

  /**
    Exiting at once is needed, not merely tidy.  Wherever a serving daemon releases maintenance and lives
    on, an offline command that starts then gets in beside it exactly when nobody else holds the lock;
    and the daemon can still begin any execution under it.
  */
  lemma LingeringOverlapsRotation(s: State, events: seq<Event>, p: nat, q: nat, id: nat)
    requires Boot(s) && LeavesAtOnce(events)
    ensures
      var t := Run(s, events);
      var u := Run(s, events + [ReleaseMaintenance(p), Spawn(q, Offline(false)), Advance(q, true)]);
      IsDaemon(t, p) && t.processes[p].phase == Bound && q !in t.spawned ==>
        && (Overlap(u, p, q) <==> t.maintenance.shared == {p})
        && (id !in t.rows ==> Step(u, Begin(p, id)).rows == t.rows[id := Running(p)])
  {
    RunKeepsInv(s, events);
    var n, whole := |events|, events + [ReleaseMaintenance(p), Spawn(q, Offline(false)), Advance(q, true)];
    assert whole[..n] == events && whole[..n + 3] == whole;
    RunOne(s, whole, n);
    RunOne(s, whole, n + 1);
    RunOne(s, whole, n + 2);
    var t := Run(s, events);
    if IsDaemon(t, p) && t.processes[p].phase == Bound && q !in t.spawned {
      CommandGetsIn(t, p, q, id);
    }
  }

  lemma CommandGetsIn(t: State, p: nat, q: nat, id: nat)
    requires LocksInv(t) && IsDaemon(t, p) && t.processes[p].phase == Bound && q !in t.spawned
    ensures
      var u := Step(Step(Step(t, ReleaseMaintenance(p)), Spawn(q, Offline(false))), Advance(q, true));
      && (Overlap(u, p, q) <==> t.maintenance.shared == {p})
      && (id !in t.rows ==> Step(u, Begin(p, id)).rows == t.rows[id := Running(p)])
  {
    assert Holds(t, p) && p != q;
    var released := Step(t, ReleaseMaintenance(p));
    assert released.maintenance == Lock(t.maintenance.shared - {p}, None);
    assert t.maintenance.shared == {p} <==> t.maintenance.shared - {p} == {};
    var spawned := Step(released, Spawn(q, Offline(false)));
    assert spawned.processes[p] == Daemon(Leaving) && spawned.processes[q] == Offline(false);
  }

  // ---------------------------------------------------------------- the sweep itself

  /** Every running row becomes terminal with an unknown outcome; every other row is as it was. */
  function SweptRows(rows: map<nat, Status>): map<nat, Status> {
    map id | id in rows :: if rows[id].Running? then Ambiguous(rows[id].owner) else rows[id]
  }

  class ExecutionTable {
    var rows: map<nat, Status>

    /** The ids running now, each once, in some order. */
    method ListRunningIds() returns (ids: seq<nat>)
      ensures forall id :: id in ids <==> id in rows && rows[id].Running?
      ensures forall i, j :: 0 <= i < j < |ids| ==> ids[i] != ids[j]
    {
      ids := [];
      var left := rows.Keys;
      while left != {}
        invariant left <= rows.Keys
        invariant forall id :: id in ids <==> id in rows && id !in left && rows[id].Running?
        invariant forall i, j :: 0 <= i < j < |ids| ==> ids[i] != ids[j]
        decreases |left|
      {
        var id :| id in left;
        if rows[id].Running? { ids := ids + [id]; }
        left := left - {id};
      }
    }

    /** One update guarded on `running`. */
    method FailClaimed(id: nat)
      modifies this
      ensures rows == if id in old(rows) && old(rows)[id].Running?
          then old(rows)[id := Ambiguous(old(rows)[id].owner)] else old(rows)
    {
      if id in rows && rows[id].Running? {
        rows := rows[id := Ambiguous(rows[id].owner)];
      }
    }

    /** An abandoned sweep is picked up by the next one: sweeping what is partly swept ends the same. */
    method Sweep() returns (swept: nat)
      modifies this
      ensures rows == SweptRows(old(rows))
      ensures swept == |RunningOf(old(rows))|
    {
      var ids := ListRunningIds();
      swept := 0;
      while swept < |ids|
        invariant swept <= |ids|
        invariant rows.Keys == old(rows).Keys
        invariant forall id :: id in rows ==>
                    rows[id] == if id in ids[..swept] then Ambiguous(old(rows)[id].owner) else old(rows)[id]
      {
        FailClaimed(ids[swept]);
        assert ids[..swept + 1] == ids[..swept] + [ids[swept]];
        swept := swept + 1;
      }
      assert ids[..swept] == ids;
      DistinctCount(ids, RunningOf(old(rows)));
    }
  }

  lemma {:induction false} DistinctCount(ids: seq<nat>, all: set<nat>)
    requires forall i, j :: 0 <= i < j < |ids| ==> ids[i] != ids[j]
    requires forall id :: id in ids <==> id in all
    ensures |all| == |ids|
    decreases |ids|
  {
    if ids != [] {
      var last := ids[|ids| - 1];
      assert ids == ids[..|ids| - 1] + [last];
      DistinctCount(ids[..|ids| - 1], all - {last});
    } else {
      assert all == {};
    }
  }

  /** However far an earlier sweep got, the next one ends in the same rows. */
  lemma SweepIsIdempotent(rows: map<nat, Status>, partly: map<nat, Status>)
    requires partly.Keys == rows.Keys
    requires forall id :: id in rows ==> partly[id] == rows[id] || partly[id] == SweptRows(rows)[id]
    ensures SweptRows(partly) == SweptRows(rows)
    ensures SweptRows(SweptRows(rows)) == SweptRows(rows)
  {
    assert forall id :: id in rows ==> SweptRows(partly)[id] == SweptRows(rows)[id];
  }
}
