/**
  The client's decision loop: probe, connect, wait, start a daemon at most once, and write only past
  the gate.

  `World` is everything outside: each call takes any time and answers anything.  Sleeping is the one
  thing promised, a timer never fires early.  `acts` is the record of what the client did.
*/
module DaemonClient {
  import opened Wrappers

  const LIFECYCLE_WAIT_POLL_MS: int := 50
  const NO_PROGRESS_PACE_MS: int := LIFECYCLE_WAIT_POLL_MS * 4
  const MIN_PASS_BUDGET_MS: int := LIFECYCLE_WAIT_POLL_MS * 4
  const MAINTENANCE_PROBE_BUSY_TIMEOUT_MS: int := 250
  const PROBE_REPOLL_MS: int := 20

  type Socket = nat

  /** What checking the state directory found: it exists, it is absent, or it is unsafe. */
  datatype Leaf = Exists | Absent | Unsafe

  datatype Act =
    | Checked(leaf: Leaf)
    | Probed(busy: bool)
    | Tried(connected: Option<Socket>)
    | Awaited(socket: Socket, ready: bool)
    | Compared(same: bool)
    | Spawned
    | Wrote(socket: Socket)

  datatype Code = RotationInProgress | Unreachable

  datatype Outcome = Exchanged | Unavailable(code: Code) | UnsafeDirectory | TooLarge

  function Min(a: int, b: int): int { if a < b then a else b }

  function Max(a: int, b: int): int { if a > b then a else b }

  predicate Writes(acts: seq<Act>) { exists i :: 0 <= i < |acts| && acts[i].Wrote? }

  function Spawns(acts: seq<Act>): nat {
    if acts == [] then 0 else Spawns(acts[..|acts| - 1]) + (if acts[|acts| - 1].Spawned? then 1 else 0)
  }

  lemma SpawnsOne(acts: seq<Act>, a: Act)
    ensures Spawns(acts + [a]) == Spawns(acts) + if a.Spawned? then 1 else 0
  {
    assert (acts + [a])[..|acts|] == acts;
  }

  /** A write is the last thing done, on a socket that sent READY, right after the leaf was found unchanged. */
  predicate GatedWrites(acts: seq<Act>, pinned: bool) {
    forall i :: 0 <= i < |acts| && acts[i].Wrote? ==>
      && i == |acts| - 1
      && Awaited(acts[i].socket, true) in acts[..i]
      && (pinned ==> i > 0 && acts[i - 1] == Compared(true))
  }

  class World {
    var now: int
    ghost var acts: seq<Act>

    method Elapse()
      modifies this`now
      ensures now >= old(now)
    {
      var ms: nat :| true;
      now := now + ms;
    }

    method Sleep(ms: int)
      modifies this`now
      ensures now >= old(now) + ms && now >= old(now)
    {
      Elapse();
      now := now + Max(ms, 0);
    }

    method Record(ghost a: Act)
      modifies this`acts
      ensures acts == old(acts) + [a]
    {
      acts := acts + [a];
    }

    /** One shared probe of a lock: `true` is busy. */
    method ProbeShared() returns (busy: bool)
      modifies this
      ensures now >= old(now) && acts == old(acts) + [Probed(busy)]
    {
      Elapse();
      busy :| true;
      Record(Probed(busy));
    }

    method TryConnect(timeoutMs: int) returns (socket: Option<Socket>)
      modifies this
      ensures now >= old(now)
      ensures acts == old(acts) + [Tried(socket)]
    {
      Elapse();
      socket :| true;
      Record(Tried(socket));
    }

    method AwaitReady(socket: Socket, timeoutMs: int) returns (ready: bool)
      modifies this
      ensures now >= old(now) && acts == old(acts) + [Awaited(socket, ready)]
    {
      Elapse();
      ready :| true;
      Record(Awaited(socket, ready));
    }

    method LeafUnchanged() returns (same: bool)
      modifies this
      ensures now >= old(now) && acts == old(acts) + [Compared(same)]
    {
      Elapse();
      same :| true;
      Record(Compared(same));
    }

    method CheckStateDir() returns (leaf: Leaf)
      modifies this
      ensures now >= old(now) && acts == old(acts) + [Checked(leaf)]
    {
      Elapse();
      leaf :| true;
      Record(Checked(leaf));
    }
  }

  /** Nothing but probing and connecting happened since. */
  predicate OnlyLooked(before: seq<Act>, after: seq<Act>) {
    && before <= after
    && forall i :: |before| <= i < |after| ==> after[i].Probed? || after[i].Tried?
  }

  lemma {:induction false} LookingIsHarmless(before: seq<Act>, after: seq<Act>)
    requires OnlyLooked(before, after)
    ensures Spawns(after) == Spawns(before) && (Writes(after) ==> Writes(before))
    decreases |after|
  {
    if |after| > |before| {
      var n := |after| - 1;
      assert after[..n][..|before|] == after[..|before|];
      LookingIsHarmless(before, after[..n]);
    } else {
      assert after == before;
    }
  }

  /** Every attempt to connect since then failed. */
  predicate NoneConnected(before: seq<Act>, after: seq<Act>) {
    forall i :: |before| <= i < |after| ==> !(after[i].Tried? && after[i].connected.Some?)
  }

  /** The last thing done since was a probe that found the lock so. */
  predicate JustProbed(before: seq<Act>, after: seq<Act>, busy: bool) {
    |after| > |before| && after[|after| - 1] == Probed(busy)
  }

  /** Since then the lock was only looked at, and was busy each time up to position `n`. */
  predicate BusyUpTo(before: seq<Act>, after: seq<Act>, n: nat) {
    |before| <= n <= |after| && before <= after && forall i :: |before| <= i < n ==> after[i] == Probed(true)
  }

  /** Answers at its first probe that finds the lock free; busy only for a holder that outlived the whole window. */
  method ProbeSharedWithin(w: World, windowMs: int) returns (busy: bool)
    modifies w
    ensures w.now >= old(w.now) && OnlyLooked(old(w.acts), w.acts)
    ensures JustProbed(old(w.acts), w.acts, busy) && BusyUpTo(old(w.acts), w.acts, |w.acts| - 1)
    ensures busy ==> w.now >= old(w.now) + Max(0, windowMs)
  {
    var deadline := w.now + Max(0, windowMs);
    while true
      invariant w.now >= old(w.now) && OnlyLooked(old(w.acts), w.acts) && BusyUpTo(old(w.acts), w.acts, |w.acts|)
      decreases deadline - w.now
    {
      busy := w.ProbeShared();
      if !busy {
        return;
      }
      var left := deadline - w.now;
      if left <= 0 {
        return;
      }
      w.Sleep(Min(PROBE_REPOLL_MS, left));
    }
  }

  /** Two looks for every slow beat within the time there is, and the first and last ones beside them. */
  function MostLooks(ms: int): int { 2 * Max(ms, 0) / NO_PROGRESS_PACE_MS + 4 }

  /**
    Watches for a daemon that binds or a lock that goes free; it sleeps before it looks.  Without a socket
    it comes back only once it saw the lock free or the deadline passed.  After the first look it looks at the
    slow pace.
  */
  method WaitForStartOrRelease(w: World, expiry: int) returns (socket: Option<Socket>)
    modifies w
    ensures w.now >= old(w.now) && OnlyLooked(old(w.acts), w.acts)
    ensures socket.Some? ==> |w.acts| > |old(w.acts)| && w.acts[|w.acts| - 1] == Tried(socket)
    ensures socket.None? ==> NoneConnected(old(w.acts), w.acts)
    ensures socket.None? ==> w.now >= expiry || JustProbed(old(w.acts), w.acts, false)
    ensures socket.None? ==> w.now >= Min(expiry, old(w.now) + LIFECYCLE_WAIT_POLL_MS)
    ensures |w.acts| - |old(w.acts)| <= MostLooks(expiry - old(w.now))
  {
    var pace := LIFECYCLE_WAIT_POLL_MS;
    while w.now < expiry
      invariant w.now >= old(w.now) && OnlyLooked(old(w.acts), w.acts)
      invariant NoneConnected(old(w.acts), w.acts)
      invariant pace == LIFECYCLE_WAIT_POLL_MS || (pace == NO_PROGRESS_PACE_MS
          && w.now >= Min(expiry, old(w.now) + LIFECYCLE_WAIT_POLL_MS))
      invariant |w.acts| == |old(w.acts)| || pace == NO_PROGRESS_PACE_MS
      invariant w.now < expiry ==> NO_PROGRESS_PACE_MS * (|w.acts| - |old(w.acts)| - 2) <= 2 * (w.now - old(w.now))
      invariant |w.acts| - |old(w.acts)| <= MostLooks(expiry - old(w.now))
      decreases expiry - w.now
    {
      w.Sleep(Min(pace, expiry - w.now));
      pace := NO_PROGRESS_PACE_MS;
      socket := w.TryConnect(Max(0, expiry - w.now));
      if socket.Some? {
        return;
      }
      var busy := w.ProbeShared();
      if !busy {
        return;
      }
    }
    socket := None;
  }

  /** Comes back only once it saw the lock taken or the deadline passed, and stops looking at the first of them. */
  method WaitForLifecycleHeld(w: World, expiry: int)
    modifies w
    ensures w.now >= old(w.now) && OnlyLooked(old(w.acts), w.acts)
    ensures w.now >= expiry || JustProbed(old(w.acts), w.acts, true)
    ensures forall i :: |old(w.acts)| <= i < |w.acts| - 1 ==> w.acts[i] == Probed(false)
  {
    while w.now < expiry
      invariant w.now >= old(w.now) && OnlyLooked(old(w.acts), w.acts)
      invariant forall i :: |old(w.acts)| <= i < |w.acts| ==> w.acts[i] == Probed(false)
      decreases expiry - w.now
    {
      var busy := w.ProbeShared();
      if busy {
        return;
      }
      w.Sleep(Min(LIFECYCLE_WAIT_POLL_MS, expiry - w.now));
    }
  }

  /** What a pass over a held lifecycle lock came to: an end, or another look from the top. */
  datatype Pass = End(outcome: Outcome) | Again

  /** What passing the gate leaves in the record. */
  function GateRecord(socket: Socket, ready: bool, pinned: bool, same: bool): seq<Act> {
    [Awaited(socket, ready)]
    + (if ready && pinned then [Compared(same)] else [])
    + (if ready && (pinned ==> same) then [Wrote(socket)] else [])
  }

  lemma NothingWritten(acts: seq<Act>, a: Act, pinned: bool)
    requires !Writes(acts) && !a.Wrote? && !a.Spawned?
    ensures !Writes(acts + [a]) && GatedWrites(acts + [a], pinned) && Spawns(acts + [a]) == Spawns(acts)
  {
    SpawnsOne(acts, a);
  }

  lemma GatedWrite(acts: seq<Act>, socket: Socket, pinned: bool)
    requires !Writes(acts) && Awaited(socket, true) in acts
    requires pinned ==> acts[|acts| - 1] == Compared(true)
    ensures
      var after := acts + [Wrote(socket)];
      Writes(after) && GatedWrites(after, pinned) && Spawns(after) == Spawns(acts)
  {
    var after := acts + [Wrote(socket)];
    SpawnsOne(acts, Wrote(socket));
    assert after[..|acts|] == acts && after[|acts|].Wrote?;
  }

  lemma GateIsGated(looked: seq<Act>, socket: Socket, ready: bool, pinned: bool, same: bool)
    requires !Writes(looked)
    ensures
      var acts := looked + GateRecord(socket, ready, pinned, same);
      && GatedWrites(acts, pinned) && Spawns(acts) == Spawns(looked)
      && (Writes(acts) <==> ready && (pinned ==> same))
  {
    var awaited := looked + [Awaited(socket, ready)];
    NothingWritten(looked, Awaited(socket, ready), pinned);
    assert awaited[|looked|] == Awaited(socket, ready);
    if !ready {
      assert looked + GateRecord(socket, ready, pinned, same) == awaited;
    } else if !pinned {
      GatedWrite(awaited, socket, pinned);
      assert looked + GateRecord(socket, ready, pinned, same) == awaited + [Wrote(socket)];
    } else {
      var compared := awaited + [Compared(same)];
      NothingWritten(awaited, Compared(same), pinned);
      if same {
        assert compared[|looked|] == Awaited(socket, true);
        GatedWrite(compared, socket, pinned);
        assert looked + GateRecord(socket, ready, pinned, same) == compared + [Wrote(socket)];
      } else {
        assert looked + GateRecord(socket, ready, pinned, same) == compared;
      }
    }
  }

  /** The gate: READY, then the leaf unchanged, and only then the request. */
  method PastTheGate(w: World, socket: Socket, expiry: int, pinned: bool)
    returns (pass: Pass, ghost ready: bool, ghost same: bool)
    modifies w
    ensures w.now >= old(w.now) && w.acts == old(w.acts) + GateRecord(socket, ready, pinned, same)
    ensures pass == if !ready then Again else if pinned && !same then End(UnsafeDirectory) else End(Exchanged)
    ensures pass.Again? ==> w.now >= Min(expiry, old(w.now) + NO_PROGRESS_PACE_MS)
  {
    same := true;
    var answered := w.AwaitReady(socket, Max(0, expiry - w.now));
    ready := answered;
    if !answered {
      w.Sleep(Min(NO_PROGRESS_PACE_MS, Max(0, expiry - w.now)));
      return Again, ready, same;
    }
    if pinned {
      var equal := w.LeafUnchanged();
      same := equal;
      if !equal {
        return End(UnsafeDirectory), ready, same;
      }
    }
    w.Record(Wrote(socket));
    w.Elapse();
    return End(Exchanged), ready, same;
  }

  /** The last thing done is the request written, or the refusal of a leaf that changed. */
  predicate EndsHeld(acts: seq<Act>) {
    acts != [] && (acts[|acts| - 1].Wrote? || acts[|acts| - 1] == Compared(false))
  }

  /** A daemon holds lifecycle: connect, or wait for it to bind or leave. */
  method WhileHeld(w: World, expiry: int, pinned: bool) returns (pass: Pass)
    requires !Writes(w.acts)
    modifies w
    ensures w.now >= old(w.now) && old(w.acts) <= w.acts && Spawns(w.acts) == Spawns(old(w.acts))
    ensures pass.Again? ==> !Writes(w.acts) && w.now >= Min(expiry, old(w.now) + LIFECYCLE_WAIT_POLL_MS)
    ensures pass.Again? ==>
              NoneConnected(old(w.acts), w.acts) || (w.acts[|w.acts| - 1].Awaited? && !w.acts[|w.acts| - 1].ready)
    ensures |w.acts| > |old(w.acts)| && w.acts[|old(w.acts)|].Tried?
    ensures pass.End? <==> EndsHeld(w.acts)
    ensures pass.End? ==> pass.outcome in {Exchanged, UnsafeDirectory} && GatedWrites(w.acts, pinned)
    ensures pass.End? ==> (Writes(w.acts) <==> pass.outcome == Exchanged)
    ensures pass == End(UnsafeDirectory) <==> w.acts[|w.acts| - 1] == Compared(false)
  {
    var socket := w.TryConnect(Max(0, expiry - w.now));
    if socket.None? {
      socket := WaitForStartOrRelease(w, expiry);
      LookingIsHarmless(old(w.acts), w.acts);
      if socket.None? {
        return Again;
      }
    }
    LookingIsHarmless(old(w.acts), w.acts);
    ghost var ready, same;
    ghost var looked := w.acts;
    pass, ready, same := PastTheGate(w, socket.value, expiry, pinned);
    GateIsGated(looked, socket.value, ready, pinned, same);
  }

  /** Starts a daemon and waits until one holds lifecycle. */
  method StartDaemon(w: World, expiry: int)
    modifies w
    ensures w.now >= old(w.now) && OnlyLooked(old(w.acts) + [Spawned], w.acts)
    ensures Spawns(w.acts) == Spawns(old(w.acts)) + 1 && (Writes(w.acts) ==> Writes(old(w.acts)))
    ensures w.now >= expiry || JustProbed(old(w.acts), w.acts, true)
  {
    SpawnsOne(w.acts, Spawned);
    w.Record(Spawned);
    ghost var before := w.acts;
    WaitForLifecycleHeld(w, expiry);
    LookingIsHarmless(before, w.acts);
  }

  /**
    The table a pass follows, by its own record: while maintenance is busy nothing else is looked at; once it
    is free, lifecycle decides.  A holder is connected to; with no holder a daemon is started if that is
    still allowed, and the pass gives up otherwise.  `n` is where maintenance was found free.
  */
  predicate Table(before: seq<Act>, after: seq<Act>, n: nat, pass: Pass, started: bool, startable: bool) {
    && BusyUpTo(before, after, n)
    && if n == |after| then n > |before| && pass == End(Unavailable(RotationInProgress)) && !started
       else
         && |after| > n + 1 && after[n] == Probed(false) && after[n + 1].Probed?
         && if after[n + 1].busy then
              !started && (pass.End? <==> EndsHeld(after)) && |after| > n + 2 && after[n + 2].Tried?
            else if startable then
              started && pass == Again && |after| > n + 2 && after[n + 2] == Spawned
            else !started && pass == End(Unavailable(Unreachable)) && |after| == n + 2
  }

  /** The probes of a pass: maintenance first, and lifecycle only once maintenance is free. */
  method Look(w: World, expiry: int) returns (rotating: bool, held: bool, ghost n: nat)
    requires !Writes(w.acts)
    modifies w
    ensures w.now >= old(w.now) && BusyUpTo(old(w.acts), w.acts, n)
    ensures rotating ==> n == |w.acts| > |old(w.acts)|
    ensures !rotating ==> |w.acts| == n + 2 && w.acts[n] == Probed(false) && w.acts[n + 1] == Probed(held)
    ensures !Writes(w.acts) && Spawns(w.acts) == Spawns(old(w.acts))
  {
    rotating := ProbeSharedWithin(w, Min(MAINTENANCE_PROBE_BUSY_TIMEOUT_MS, expiry - w.now - MIN_PASS_BUDGET_MS));
    LookingIsHarmless(old(w.acts), w.acts);
    held, n := false, |w.acts|;
    if !rotating {
      n := |w.acts| - 1;
      ghost var free := w.acts;
      held := w.ProbeShared();
      LookingIsHarmless(free, w.acts);
    }
  }

  /** One pass of the table: rotation first, then whoever holds lifecycle, then at most one start. */
  method OnePass(w: World, expiry: int, pinned: bool, spawned: bool, permitted: bool)
    returns (pass: Pass, started: bool, ghost n: nat)
    requires !Writes(w.acts) && expiry - w.now >= MIN_PASS_BUDGET_MS
    modifies w
    ensures w.now >= old(w.now) && Table(old(w.acts), w.acts, n, pass, started, permitted && !spawned)
    ensures Spawns(w.acts) == Spawns(old(w.acts)) + (if started then 1 else 0)
    ensures pass.Again? ==> !Writes(w.acts)
    ensures pass.Again? && !started ==> w.now >= Min(expiry, old(w.now) + LIFECYCLE_WAIT_POLL_MS)
    ensures started ==> w.now >= expiry || JustProbed(old(w.acts), w.acts, true)
    ensures pass.End? ==> GatedWrites(w.acts, pinned) && (Writes(w.acts) <==> pass.outcome == Exchanged)
    ensures pass == End(UnsafeDirectory) <==> w.acts[|w.acts| - 1] == Compared(false)
  {
    started := false;
    var rotating, held;
    rotating, held, n := Look(w, expiry);
    if rotating {
      return End(Unavailable(RotationInProgress)), started, n;
    }
    if held {
      pass := WhileHeld(w, expiry, pinned);
      return;
    }
    if !permitted || spawned {
      return End(Unavailable(Unreachable)), started, n;
    }
    StartDaemon(w, expiry);
    started := true;
    pass := Again;
  }

  /** Most passes a deadline leaves room for: one per poll interval, one that spawns, one that gives up. */
  function MostPasses(deadlineMs: int): int { Max(deadlineMs, 0) / LIFECYCLE_WAIT_POLL_MS + 2 }

  /**
    The whole attempt.  `safe` is whether the directories above the state directory are; `fits` whether the
    request can be framed; `isDefault` and `seam` whether the directory is the default one and whether a
    caller injected its own way to start a daemon.
  */
  method DaemonRequest(w: World, deadlineMs: int, safe: bool, fits: bool, isDefault: bool, seam: bool, autoStart: bool)
    returns (outcome: Outcome, passes: nat, pinned: bool)
    requires w.acts == []
    modifies w
    ensures passes <= MostPasses(deadlineMs)
    ensures Spawns(w.acts) <= 1 && (Spawns(w.acts) > 0 ==> autoStart && (seam || isDefault))
    ensures GatedWrites(w.acts, pinned)
    ensures Writes(w.acts) <==> outcome == Exchanged
    ensures !safe ==> outcome == UnsafeDirectory && w.acts == []
    ensures safe && deadlineMs < MIN_PASS_BUDGET_MS ==> outcome == Unavailable(Unreachable) && w.acts == []
    ensures safe && deadlineMs >= MIN_PASS_BUDGET_MS && !fits ==> outcome == TooLarge && w.acts == []
    ensures safe && deadlineMs >= MIN_PASS_BUDGET_MS && fits ==>
              && w.acts != [] && w.acts[0].Checked? && (pinned <==> w.acts[0] == Checked(Exists))
              && (w.acts[0] == Checked(Unsafe) ==> outcome == UnsafeDirectory && w.acts == [Checked(Unsafe)])
              && (w.acts[0] == Checked(Absent) && !isDefault && !seam ==>
                    outcome == Unavailable(Unreachable) && w.acts == [Checked(Absent)])
              && (w.acts[0] != Checked(Unsafe) && autoStart && (seam || isDefault)
                  && outcome == Unavailable(Unreachable) && Spawns(w.acts) == 0 ==>
                    w.now > old(w.now) + deadlineMs - MIN_PASS_BUDGET_MS)
    ensures outcome == Unavailable(RotationInProgress) ==> w.acts != [] && w.acts[|w.acts| - 1] == Probed(true)
    ensures outcome == Unavailable(Unreachable) && w.acts != [] ==>
              || w.acts == [Checked(Absent)] || w.acts[|w.acts| - 1] == Probed(false)
              || w.now > old(w.now) + deadlineMs - MIN_PASS_BUDGET_MS
    ensures outcome == UnsafeDirectory && w.acts != [] ==>
              w.acts == [Checked(Unsafe)] || w.acts[|w.acts| - 1] == Compared(false)
  {
    var spawnPermitted := autoStart && (seam || isDefault);
    passes, pinned := 0, false;
    if !safe {
      return UnsafeDirectory, passes, pinned;
    }
    if deadlineMs < MIN_PASS_BUDGET_MS {
      return Unavailable(Unreachable), passes, pinned;
    }
    var start := w.now;
    var expiry := start + deadlineMs;
    if !fits {
      return TooLarge, passes, pinned;
    }
    var leaf := w.CheckStateDir();
    if leaf == Unsafe {
      return UnsafeDirectory, passes, pinned;
    }
    if leaf == Absent && !isDefault && !seam {
      return Unavailable(Unreachable), passes, pinned;
    }
    pinned := leaf == Exists;

    var spawned := false;
    while expiry - w.now >= MIN_PASS_BUDGET_MS
      invariant w.now >= start && !Writes(w.acts) && [Checked(leaf)] <= w.acts
      invariant Spawns(w.acts) == (if spawned then 1 else 0) && (spawned ==> spawnPermitted)
      invariant passes <= (Min(w.now, expiry) - start) / LIFECYCLE_WAIT_POLL_MS + (if spawned then 1 else 0)
      decreases expiry - w.now, !spawned
    {
      passes := passes + 1;
      ghost var n;
      var pass, started;
      pass, started, n := OnePass(w, expiry, pinned, spawned, spawnPermitted);
      if pass.End? {
        return pass.outcome, passes, pinned;
      }
      spawned := spawned || started;
    }
    return Unavailable(Unreachable), passes, pinned;
  }
}
