/** That the locks let in whoever may come in: who gets one, what follows, and that no lock outlives its holder. */
module OwnershipProgress {
  import opened Wrappers
  import opened Ownership

  // ---------------------------------------------------------------- who holds what, exactly

  predicate HoldsLifecycle(process: Process) { process.Daemon? && process.phase != Starting }

  predicate SharesLifecycle(process: Process) { process == Prober(true, true) }

  predicate SharesMaintenance(process: Process) {
    (process.Daemon? && process.phase !in {Starting, Locked}) || process == Prober(false, true)
  }

  /** A lock is held by exactly the living processes whose phase says so. */
  ghost predicate LocksAreTheirHolders(s: State) {
    && (forall p: nat :: s.lifecycle.exclusive == Some(p) <==> p in s.processes && HoldsLifecycle(s.processes[p]))
    && (forall p: nat :: p in s.lifecycle.shared <==> p in s.processes && SharesLifecycle(s.processes[p]))
    && (forall p: nat :: s.maintenance.exclusive == Some(p) <==> Critical(s, p))
    && (forall p: nat :: p in s.maintenance.shared <==> p in s.processes && SharesMaintenance(s.processes[p]))
    && (forall p: nat :: p in s.processes ==> p in s.spawned)
  }

  lemma DieKeepsHolders(s: State, p: nat)
    requires LocksAreTheirHolders(s)
    ensures LocksAreTheirHolders(OnDie(s, p))
  {
  }

  lemma DaemonKeepsHolders(s: State, p: nat, granted: bool)
    requires LocksInv(s) && LocksAreTheirHolders(s) && IsDaemon(s, p)
    ensures LocksAreTheirHolders(OnDaemon(s, p, s.processes[p].phase, granted))
  {
    DieKeepsHolders(s, p);
    assert Holds(s, p);
  }

  lemma OthersKeepHolders(s: State, p: nat, granted: bool)
    requires LocksInv(s) && LocksAreTheirHolders(s) && p in s.processes && !IsDaemon(s, p)
    ensures LocksAreTheirHolders(OnAdvance(s, p, granted))
  {
    DieKeepsHolders(s, p);
    if s.processes[p].Offline? {
      CommandKeepsHolders(s, p, granted);
    } else {
      ProberKeepsHolders(s, p, granted);
    }
  }

  lemma CommandKeepsHolders(s: State, p: nat, granted: bool)
    requires LocksInv(s) && LocksAreTheirHolders(s) && p in s.processes && s.processes[p].Offline?
    ensures LocksAreTheirHolders(OnAdvance(s, p, granted))
  {
    DieKeepsHolders(s, p);
  }

  lemma ProberKeepsHolders(s: State, p: nat, granted: bool)
    requires LocksInv(s) && LocksAreTheirHolders(s) && p in s.processes && s.processes[p].Prober?
    ensures LocksAreTheirHolders(OnAdvance(s, p, granted))
  {
    var t := OnAdvance(s, p, granted);
    if p in t.processes {
      GrantedKeepsHolders(s, p, t, s.processes[p].ofLifecycle);
    } else {
      DieKeepsHolders(s, p);
    }
  }

  lemma GrantedKeepsHolders(s: State, p: nat, t: State, ofLifecycle: bool)
    requires LocksAreTheirHolders(s) && p in s.processes && s.processes[p] == Prober(ofLifecycle, false)
    requires t == With(if ofLifecycle then s.(lifecycle := s.lifecycle.(shared := s.lifecycle.shared + {p}))
                       else s.(maintenance := s.maintenance.(shared := s.maintenance.shared + {p})),
                       p, Prober(ofLifecycle, true))
    ensures LocksAreTheirHolders(t)
  {
  }

  lemma SpawnKeepsHolders(s: State, p: nat, process: Process)
    requires LocksAreTheirHolders(s)
    ensures LocksAreTheirHolders(Step(s, Spawn(p, process)))
  {
  }

  lemma RowStepKeepsHolders(s: State, e: Event)
    requires LocksAreTheirHolders(s) && (e.SweepRow? || e.Begin? || e.Finish?)
    ensures LocksAreTheirHolders(Step(s, e))
  {
  }

  lemma StepKeepsHolders(s: State, e: Event)
    requires LocksInv(s) && LocksAreTheirHolders(s) && !e.ReleaseMaintenance? && !e.ReleaseLifecycle?
    ensures LocksAreTheirHolders(Step(s, e))
  {
    if e.Die? {
      DieKeepsHolders(s, e.p);
    } else if e.Advance? {
      if e.p in s.processes {
        if IsDaemon(s, e.p) { DaemonKeepsHolders(s, e.p, e.granted); } else { OthersKeepHolders(s, e.p, e.granted); }
      }
    } else if e.Spawn? {
      SpawnKeepsHolders(s, e.p, e.process);
    } else {
      RowStepKeepsHolders(s, e);
    }
  }

  /** In every run a lock is held by exactly the living processes that stand where they hold it. */
  lemma {:induction false} NoLockOutlivesItsHolder(s: State, events: seq<Event>)
    requires Boot(s) && LeavesAtOnce(events)
    ensures LocksAreTheirHolders(Run(s, events))
    decreases |events|
  {
    if events != [] {
      var before := events[..|events| - 1];
      assert forall e :: e in before ==> e in events;
      NoLockOutlivesItsHolder(s, before);
      RunKeepsInv(s, before);
      StepKeepsHolders(Run(s, before), events[|events| - 1]);
    }
  }

  // ---------------------------------------------------------------- who gets in

  /** Nobody stands where lifecycle is held, or maintenance exclusively. */
  ghost predicate LifecycleUnheld(s: State) {
    forall p: nat :: p in s.processes ==> !HoldsLifecycle(s.processes[p]) && !SharesLifecycle(s.processes[p])
  }

  ghost predicate NobodyCritical(s: State) { forall p: nat :: !Critical(s, p) }

  ghost predicate MaintenanceUnheld(s: State) {
    NobodyCritical(s) && forall p: nat :: p in s.processes ==> !SharesMaintenance(s.processes[p])
  }

  ghost predicate NoDaemonHolds(s: State) {
    forall p: nat :: p in s.processes ==> !HoldsLifecycle(s.processes[p])
  }

  lemma UnheldMeansFree(s: State)
    requires LocksAreTheirHolders(s)
    ensures LifecycleUnheld(s) <==> s.lifecycle == FREE
    ensures MaintenanceUnheld(s) <==> s.maintenance == FREE
    ensures NobodyCritical(s) <==> s.maintenance.exclusive.None?
    ensures NoDaemonHolds(s) <==> s.lifecycle.exclusive.None?
  {
    if s.lifecycle == FREE {
      assert forall p: nat :: p in s.processes ==> s.lifecycle.exclusive != Some(p) && p !in s.lifecycle.shared;
    }
    if LifecycleUnheld(s) {
      assert forall p :: p !in s.lifecycle.shared;
      assert s.lifecycle.shared == {};
    }
    if s.maintenance.exclusive.Some? {
      assert Critical(s, s.maintenance.exclusive.value);
    }
    if MaintenanceUnheld(s) {
      assert forall p :: p !in s.maintenance.shared;
      assert s.maintenance.shared == {};
    }
    if s.maintenance == FREE {
      assert forall p: nat :: p in s.processes ==> p !in s.maintenance.shared;
      assert forall p: nat :: s.maintenance.exclusive != Some(p);
    }
    if s.lifecycle.exclusive.Some? {
      assert HoldsLifecycle(s.processes[s.lifecycle.exclusive.value]);
    }
  }

  /** What the kernel granted leaves the process where it wanted to be; what it could not is the end of it. */
  predicate GetsTo(t: State, p: nat, process: Process, got: bool) {
    if got then p in t.processes && t.processes[p] == process else p !in t.processes
  }

  /**
    In every reachable state a daemon, an offline command and a probe each get the lock they ask for exactly
    when nobody stands in its way; otherwise, or if the kernel refuses, they are gone.
  */
  lemma GetsTheLockIff(s: State, events: seq<Event>, p: nat, granted: bool)
    requires Boot(s) && LeavesAtOnce(events) && p in Run(s, events).processes
    ensures
      var t, u := Run(s, events), Step(Run(s, events), Advance(p, granted));
      match t.processes[p]
      case Daemon(Starting) =>
        && GetsTo(u, p, Daemon(Locked), granted && LifecycleUnheld(t))
        && (granted && LifecycleUnheld(t) ==> u.lifecycle == Lock({}, Some(p)))
      case Daemon(Locked) =>
        && GetsTo(u, p, Daemon(Guarded), granted && NobodyCritical(t))
        && (granted && NobodyCritical(t) ==>
              u.maintenance == Lock(t.maintenance.shared + {p}, None) && u.lifecycle == t.lifecycle)
      case Offline(false) =>
        && GetsTo(u, p, Offline(true), granted && MaintenanceUnheld(t))
        && (granted && MaintenanceUnheld(t) ==> u.maintenance == Lock({}, Some(p)))
      case Offline(true) => p !in u.processes && u.maintenance == FREE
      case Prober(true, false) => GetsTo(u, p, Prober(true, true), granted && NoDaemonHolds(t))
      case Prober(false, false) => GetsTo(u, p, Prober(false, true), granted && NobodyCritical(t))
      case Prober(_, true) => p !in u.processes && p !in u.lifecycle.shared && p !in u.maintenance.shared
      case _ => true
  {
    RunKeepsInv(s, events);
    NoLockOutlivesItsHolder(s, events);
    UnheldMeansFree(Run(s, events));
    LockStep(Run(s, events), p, granted);
  }

  lemma LockStep(t: State, p: nat, granted: bool)
    requires LocksInv(t) && LocksAreTheirHolders(t) && p in t.processes
    ensures
      var u := Step(t, Advance(p, granted));
      match t.processes[p]
      case Daemon(Starting) =>
        && GetsTo(u, p, Daemon(Locked), granted && t.lifecycle == FREE)
        && (granted && t.lifecycle == FREE ==> u.lifecycle == Lock({}, Some(p)))
      case Daemon(Locked) =>
        && GetsTo(u, p, Daemon(Guarded), granted && t.maintenance.exclusive.None?)
        && (granted && t.maintenance.exclusive.None? ==>
              u.maintenance == Lock(t.maintenance.shared + {p}, None) && u.lifecycle == t.lifecycle)
      case Offline(false) =>
        && GetsTo(u, p, Offline(true), granted && t.maintenance == FREE)
        && (granted && t.maintenance == FREE ==> u.maintenance == Lock({}, Some(p)))
      case Offline(true) => p !in u.processes && u.maintenance == FREE
      case Prober(true, false) => GetsTo(u, p, Prober(true, true), granted && t.lifecycle.exclusive.None?)
      case Prober(false, false) => GetsTo(u, p, Prober(false, true), granted && t.maintenance.exclusive.None?)
      case Prober(_, true) => p !in u.processes && p !in u.lifecycle.shared && p !in u.maintenance.shared
      case _ => true
  {
    assert Holds(t, p);
    assert t.processes[p] == Offline(true) ==> Critical(t, p);
  }

  // ---------------------------------------------------------------- and comes up

  lemma RunOnce(s: State, events: seq<Event>, e: Event)
    ensures Run(s, events + [e]) == Step(Run(s, events), e)
  {
    assert (events + [e])[..|events|] == events;
  }

  /** A start only ever advances or sweeps. */
  predicate OfStart(e: Event, p: nat) {
    e == Spawn(p, Daemon(Starting)) || e == Advance(p, true) || (e.SweepRow? && e.p == p)
  }

  /** The daemon stands at this phase, holding both locks, over these rows. */
  predicate Up(s: State, p: nat, phase: Phase, rows: map<nat, Status>) {
    && p in s.processes && s.processes[p] == Daemon(phase) && s.rows == rows
    && s.lifecycle == Lock({}, Some(p)) && s.maintenance.exclusive.None? && p in s.maintenance.shared
  }

  /** Part of the rows swept already. */
  function SweptBut(rows: map<nat, Status>, left: set<nat>): map<nat, Status> {
    map id | id in rows :: if rows[id].Running? && id !in left then Ambiguous(rows[id].owner) else rows[id]
  }

  lemma {:induction false} SweepsThrough(s: State, p: nat, rows: map<nat, Status>, left: set<nat>)
    returns (events: seq<Event>)
    requires Up(s, p, Sweeping(left), SweptBut(rows, left)) && left <= RunningOf(rows)
    ensures Up(Run(s, events), p, Sweeping({}), SweptRows(rows)) && forall e :: e in events ==> OfStart(e, p)
    decreases |left|
  {
    if left == {} {
      events := [];
      assert SweptBut(rows, {}) == SweptRows(rows);
    } else {
      var id :| id in left;
      var t := Step(s, SweepRow(p, id));
      assert SweptBut(rows, left - {id}) == SweptBut(rows, left)[id := Ambiguous(rows[id].owner)];
      var later := SweepsThrough(t, p, rows, left - {id});
      events := [SweepRow(p, id)] + later;
      RunHead(s, SweepRow(p, id), later);
    }
  }

  lemma {:induction false} RunHead(s: State, e: Event, later: seq<Event>)
    ensures Run(s, [e] + later) == Run(Step(s, e), later)
    decreases |later|
  {
    if later == [] {
      assert [e] + later == [] + [e];
      RunOnce(s, [], e);
    } else {
      var n := |later| - 1;
      RunHead(s, e, later[..n]);
      assert [e] + later == ([e] + later[..n]) + [later[n]];
      RunOnce(s, [e] + later[..n], later[n]);
    }
  }

  lemma {:induction false} RunAppend(s: State, a: seq<Event>, b: seq<Event>)
    ensures Run(s, a + b) == Run(Run(s, a), b)
    decreases |b|
  {
    if b == [] {
      assert a + b == a;
    } else {
      var n := |b| - 1;
      RunAppend(s, a, b[..n]);
      assert a + b == (a + b[..n]) + [b[n]];
      RunOnce(s, a + b[..n], b[n]);
    }
  }

  /** Both locks are had in two steps, and the sweep begins with every row that runs. */
  lemma TakesBothLocks(s: State, p: nat) returns (events: seq<Event>)
    requires p !in s.spawned && s.lifecycle == FREE && s.maintenance.exclusive.None?
    ensures Up(Run(s, events), p, Sweeping(RunningOf(s.rows)), s.rows) && forall e :: e in events ==> OfStart(e, p)
  {
    var go := Advance(p, true);
    events := [Spawn(p, Daemon(Starting)), go, go, go, go];
    var s1 := Step(s, Spawn(p, Daemon(Starting)));
    var s2 := Step(s1, go);
    var s3 := Step(s2, go);
    assert Up(s3, p, Guarded, s.rows);
    RunHead(s, Spawn(p, Daemon(Starting)), [go, go, go, go]);
    RunHead(s1, go, [go, go, go]);
    RunHead(s2, go, [go, go]);
    RunHead(s3, go, [go]);
    RunHead(Step(s3, go), go, []);
    assert events == [Spawn(p, Daemon(Starting))] + [go, go, go, go] && [go, go, go, go] == [go] + [go, go, go];
    assert [go, go, go] == [go] + [go, go] && [go, go] == [go] + [go] && [go] == [go] + [];
  }

  lemma BindsAfterSweep(s: State, p: nat) returns (events: seq<Event>)
    requires p in s.processes && s.processes[p] == Daemon(Sweeping({}))
    requires Up(s, p, Sweeping({}), s.rows)
    ensures Up(Run(s, events), p, Bound, s.rows) && forall e :: e in events ==> OfStart(e, p)
  {
    var go := Advance(p, true);
    events := [go, go];
    RunHead(s, go, [go]);
    RunHead(Step(s, go), go, []);
    assert events == [go] + [go] && [go] == [go] + [];
  }

  /**
    From every reachable state in which nobody stands where lifecycle is held and no offline command is in
    its critical section, a fresh daemon can come up: some run of its own steps alone brings it to its bound
    endpoint, with both locks, and with every row that was running swept on the way.
  */
  lemma FreshDaemonComesUp(s: State, events: seq<Event>, p: nat) returns (start: seq<Event>)
    requires Boot(s) && LeavesAtOnce(events) && p !in Run(s, events).spawned
    requires LifecycleUnheld(Run(s, events)) && NobodyCritical(Run(s, events))
    ensures forall e :: e in start ==> OfStart(e, p)
    ensures Up(Run(Run(s, events), start), p, Bound, SweptRows(Run(s, events).rows))
  {
    var t := Run(s, events);
    NoLockOutlivesItsHolder(s, events);
    UnheldMeansFree(t);
    var locked := TakesBothLocks(t, p);
    assert SweptBut(t.rows, RunningOf(t.rows)) == t.rows;
    var sweep := SweepsThrough(Run(t, locked), p, t.rows, RunningOf(t.rows));
    var bind := BindsAfterSweep(Run(Run(t, locked), sweep), p);
    start := locked + (sweep + bind);
    RunAppend(t, locked, sweep + bind);
    RunAppend(Run(t, locked), sweep, bind);
  }

  /** And it can whenever the daemon before it is gone, as long as nothing else was there. */
  lemma DeathMakesRoom(s: State, events: seq<Event>, p: nat)
    requires Boot(s) && LeavesAtOnce(events) && HasStore(Run(s, events), p)
    ensures
      var t := Step(Run(s, events), Die(p));
      LifecycleUnheld(t) && NobodyCritical(t) && t.rows == Run(s, events).rows
  {
    var t := Run(s, events);
    RunKeepsInv(s, events);
    NoLockOutlivesItsHolder(s, events);
    assert t.lifecycle.exclusive == Some(p) && p in t.maintenance.shared;
    DieKeepsHolders(t, p);
    UnheldMeansFree(OnDie(t, p));
    assert OnDie(t, p).lifecycle == FREE;
  }

  // ---------------------------------------------------------------- the rows

  /** What one step may do to one row. */
  function RowAfter(s: State, e: Event, id: nat): Option<Status> {
    var was := if id in s.rows then Some(s.rows[id]) else None;
    if e.Begin? && e.id == id && Serving(s, e.p) && (was.None? || was == Some(Paused)) then Some(Running(e.p))
    else if e.Finish? && e.id == id && Serving(s, e.p) && was == Some(Running(e.p)) then
      Some(if e.paused then Paused else Settled)
    else if e.SweepRow? && e.id == id && IsDaemon(s, e.p) && s.processes[e.p].phase.Sweeping?
      && id in s.processes[e.p].phase.left && was.Some? && was.value.Running?
    then Some(Ambiguous(was.value.owner))
    else was
  }

  /**
    A row moves only so: a serving daemon begins it, new or paused, settles or pauses what it began itself,
    and a sweep ends what was running when the sweep began.  No lock, start or death touches it.
  */
  lemma RowsMoveOnlySo(s: State, e: Event, id: nat)
    ensures
      var t := Step(s, e);
      RowAfter(s, e, id) == if id in t.rows then Some(t.rows[id]) else None
  {
  }

  /**
    A daemon that shuts down in two steps gives up maintenance first and lifecycle second, each exactly
    in its turn, and nobody else's hold moves.
  */
  lemma ReleasesInOrder(s: State, p: nat)
    requires IsDaemon(s, p)
    ensures
      var t := Step(s, ReleaseMaintenance(p));
      if s.processes[p].phase == Bound then
        && p !in t.maintenance.shared && t.maintenance.exclusive != Some(p)
        && t == s.(maintenance := t.maintenance, processes := s.processes[p := Daemon(Leaving)])
        && t.maintenance.shared == s.maintenance.shared - {p}
      else t == s
    ensures
      var t := Step(s, ReleaseLifecycle(p));
      if s.processes[p].phase == Leaving then
        && p !in t.lifecycle.shared && t.lifecycle.exclusive != Some(p)
        && t == s.(lifecycle := t.lifecycle, processes := s.processes[p := Daemon(Unlocked)])
        && t.lifecycle.shared == s.lifecycle.shared - {p}
      else t == s
  {
  }
}
