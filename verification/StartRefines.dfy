/**
  Every run of a start, in the step system of the latch protocol, is a run of `Attempts` with one drive.
  So what is proved there over starts, resumes, crashes and sweeps holds of the timed protocol as it is.
*/
module StartRefines {
  import opened Wrappers
  import DispatchCells
  import Decisions
  import Attempts
  import D = DirectDrive
  import Safety = DirectDriveSafety

  /** The names of one execution: its attempt, its call, and the ids the store gives its pauses. */
  datatype Names = Names(attempt: nat, call: Decisions.Identity, callIds: map<nat, string>) {
    function CallId(c: nat): string { if c in callIds then callIds[c] else "" }

    function Pause(c: nat): Attempts.Pause { Attempts.Pending(CallId(c), call) }
  }

  predicate Sent(s: D.State) { s.cell == DispatchCells.Dispatched }

  /** The row, seen as the row all attempts share. */
  predicate SameRow(s: D.State, t: Attempts.State, n: Names) {
    if s.row.NoRow? then t.row == Attempts.NoRow
    else if s.row.Running? then t.row == Attempts.Running(n.attempt)
    else if s.row.Settled? && s.row.settle.SettlePaused? then
      t.row == Attempts.Paused && t.pause == Some(n.Pause(s.row.settle.callId))
    else t.row == Attempts.Done && t.pause.None?
  }

  /** The settle write, seen as the one write a drive may issue. */
  function Slot(s: D.State, n: Names): Attempts.WriteSlot {
    if s.write.None? then Attempts.NoWrite
    else if s.write.value.landed.Some? then Attempts.Landed
    else if s.write.value.plan.settle.SettlePaused? then Attempts.PauseWrite(n.Pause(s.write.value.plan.settle.callId))
    else Attempts.EndWrite
  }

  /** How far the call got. */
  predicate SamePhase(s: D.State, phase: Attempts.Phase) {
    && (phase == Attempts.Sent <==> Sent(s))
    && (s.pc.Creating? || s.pc.Invoking? ==> phase == if Sent(s) then Attempts.Sent else Attempts.Evaluating)
    && (s.pc.ReadingGeneration? ==> phase == Attempts.Denied)
  }

  predicate SameDrive(s: D.State, t: Attempts.State, n: Names) {
    && t.call == n.call && t.drives.Keys == {n.attempt}
    && t.sends == (if Sent(s) then [n.attempt] else [])
    && var d := t.drives[n.attempt];
       && d.alive && d.asked.None? && d.call == n.call
       && d.write == Slot(s, n) && SamePhase(s, d.phase)
  }

  predicate Simulates(s: D.State, t: Attempts.State, n: Names) {
    SameRow(s, t, n) && if s.row.NoRow? then t == Attempts.FRESH else SameDrive(s, t, n)
  }

  /** The steps of `Attempts` that one event of the protocol is: those of what it changed. */
  function Image(s: D.State, e: D.Event, n: Names): seq<Attempts.Event> {
    var t := D.Step(s, e);
    if e.CreateLands? then if t.row != s.row then [Attempts.Create(n.attempt, n.call)] else []
    else if e.Dispatch? then
      if Sent(t) && !Sent(s) then [Attempts.Decide(n.attempt, Attempts.Allow), Attempts.Gate(n.attempt, true)] else []
    else if e.InvokeDenied? then
      if t.pc != s.pc then [Attempts.Decide(n.attempt, Attempts.RequireApproval)] else []
    else if e.WriteLands? then if t.write != s.write then [Attempts.Land(n.attempt)] else []
    else if e.RowTaken? then if t.row != s.row then [Attempts.Takeover] else []
    else if s.write.None? && t.write.Some? then
      if t.write.value.plan.settle.SettlePaused?
      then [Attempts.IssuePause(n.attempt, n.CallId(t.write.value.plan.settle.callId))]
      else [Attempts.IssueEnd(n.attempt)]
    else []
  }

  function Images(s: D.State, es: seq<D.Event>, n: Names): seq<Attempts.Event>
    decreases |es|
  {
    if es == [] then [] else Image(s, es[0], n) + Images(D.Step(s, es[0]), es[1..], n)
  }

  predicate Start(s: D.State, n: Names) {
    Safety.Inv(s) && !s.ctx.resumed && s.ctx.attempt == n.attempt
  }

  lemma RunOne(t: Attempts.State, f: Attempts.Event)
    ensures Attempts.Run(t, [f]) == Attempts.Step(t, f)
  {
    assert [f][1..] == [];
  }

  lemma RunTwo(t: Attempts.State, f: Attempts.Event, g: Attempts.Event)
    ensures Attempts.Run(t, [f, g]) == Attempts.Step(Attempts.Step(t, f), g)
  {
    assert [f, g][1..] == [g];
    RunOne(Attempts.Step(t, f), g);
  }

  lemma {:induction false} RunAppend(t: Attempts.State, fs: seq<Attempts.Event>, gs: seq<Attempts.Event>)
    ensures Attempts.Run(t, fs + gs) == Attempts.Run(Attempts.Run(t, fs), gs)
    decreases |fs|
  {
    if fs == [] {
      assert fs + gs == gs;
    } else {
      assert (fs + gs)[1..] == fs[1..] + gs;
      RunAppend(Attempts.Step(t, fs[0]), fs[1..], gs);
    }
  }

  /** What the single steps need of the invariant. */
  predicate Kept(s: D.State, n: Names) {
    && s.ctx.attempt == n.attempt
    && (s.row.Running? ==> s.row.attempt == n.attempt)
    && (s.persisted ==> s.row != D.NoRow) && (s.write.Some? || s.pc.Invoking? ==> s.persisted)
    && (s.write.Some? ==> s.settled)
    && (s.row.NoRow? ==> !Sent(s))
  }

  lemma CreateIsCreate(s: D.State, t: Attempts.State, n: Names)
    requires Start(s, n) && Simulates(s, t, n)
    ensures Simulates(D.Step(s, D.CreateLands), Attempts.Run(t, Image(s, D.CreateLands, n)), n)
  {
    RunOne(t, Attempts.Create(n.attempt, n.call));
  }

  lemma DispatchIsGate(s: D.State, t: Attempts.State, remaining: int, n: Names)
    requires Kept(s, n) && Simulates(s, t, n)
    ensures Simulates(D.Step(s, D.Dispatch(remaining)), Attempts.Run(t, Image(s, D.Dispatch(remaining), n)), n)
  {
    RunTwo(t, Attempts.Decide(n.attempt, Attempts.Allow), Attempts.Gate(n.attempt, true));
  }

  lemma DeniedIsDecide(s: D.State, t: Attempts.State, n: Names)
    requires Kept(s, n) && !s.ctx.resumed && Simulates(s, t, n)
    ensures Simulates(D.Step(s, D.InvokeDenied), Attempts.Run(t, Image(s, D.InvokeDenied, n)), n)
  {
    RunOne(t, Attempts.Decide(n.attempt, Attempts.RequireApproval));
  }

  lemma LandIsLand(s: D.State, t: Attempts.State, n: Names)
    requires Kept(s, n) && Simulates(s, t, n)
    ensures Simulates(D.Step(s, D.WriteLands), Attempts.Run(t, Image(s, D.WriteLands, n)), n)
  {
    RunOne(t, Attempts.Land(n.attempt));
  }

  lemma TakenIsTakeover(s: D.State, t: Attempts.State, n: Names)
    requires Kept(s, n) && Simulates(s, t, n)
    ensures Simulates(D.Step(s, D.RowTaken), Attempts.Run(t, Image(s, D.RowTaken, n)), n)
  {
    RunOne(t, Attempts.Takeover);
  }

  predicate Special(e: D.Event) {
    e.CreateLands? || e.Dispatch? || e.InvokeDenied? || e.WriteLands? || e.RowTaken?
  }

  /** What every other event leaves alone, and where it may move the continuation. */
  predicate Quiet(s: D.State, u: D.State) {
    && u.row == s.row && (Sent(u) <==> Sent(s))
    && (u.pc.ReadingGeneration? ==> s.pc.ReadingGeneration?)
    && (u.pc.Creating? ==> s.pc.Creating?)
    && (u.pc.Invoking? ==> s.pc.Creating? || s.pc.Invoking?)
  }

  lemma OtherStepIsQuiet(s: D.State, e: D.Event)
    requires Safety.Phases(s) && !s.ctx.resumed && s.rowWrite.None? && !Special(e)
    ensures Quiet(s, D.Step(s, e))
  {
    if Safety.Settles(e) {
      Safety.SettlingKeepsPc(s, e);
    }
  }

  /** A settle write, once issued, keeps its plan; only `WriteLands` makes it land. */
  lemma WriteKeepsSlot(s: D.State, e: D.Event, n: Names)
    requires Start(s, n) && s.write.Some? && !e.WriteLands?
    ensures Slot(D.Step(s, e), n) == Slot(s, n)
  {
    Safety.WriteStays(s, e);
  }

  lemma QuietKeeps(s: D.State, u: D.State, t: Attempts.State, n: Names)
    requires Simulates(s, t, n) && Quiet(s, u) && Slot(u, n) == Slot(s, n)
    ensures Simulates(u, t, n)
  {
  }

  lemma IssueIsIssue(s: D.State, e: D.Event, t: Attempts.State, n: Names)
    requires Start(s, n) && Simulates(s, t, n) && !Special(e)
    requires s.write.None? && D.Step(s, e).write.Some?
    ensures Simulates(D.Step(s, e), Attempts.Run(t, Image(s, e, n)), n)
  {
    var u := D.Step(s, e);
    OtherStepIsQuiet(s, e);
    NewWriteWaits(s, e);
    RunOne(t, Image(s, e, n)[0]);
  }

  lemma NewWriteWaits(s: D.State, e: D.Event)
    requires Safety.Inv(s) && !s.ctx.resumed && s.write.None? && D.Step(s, e).write.Some?
    ensures
      var w := D.Step(s, e).write.value;
      && w.landed.None? && s.row != D.NoRow
      && (w.plan.settle.SettlePaused? ==> s.pc.ReadingGeneration?)
  {
  }

  lemma StepIsSteps(s: D.State, e: D.Event, t: Attempts.State, n: Names)
    requires Start(s, n) && Simulates(s, t, n)
    ensures Simulates(D.Step(s, e), Attempts.Run(t, Image(s, e, n)), n)
  {
    if e.CreateLands? {
      CreateIsCreate(s, t, n);
    } else if e.Dispatch? {
      DispatchIsGate(s, t, e.remaining, n);
    } else if e.InvokeDenied? {
      DeniedIsDecide(s, t, n);
    } else if e.WriteLands? {
      LandIsLand(s, t, n);
    } else if e.RowTaken? {
      TakenIsTakeover(s, t, n);
    } else if s.write.None? && D.Step(s, e).write.Some? {
      IssueIsIssue(s, e, t, n);
    } else {
      OtherStepIsQuiet(s, e);
      if s.write.Some? {
        WriteKeepsSlot(s, e, n);
      }
      QuietKeeps(s, D.Step(s, e), t, n);
    }
  }

  lemma {:induction false} RunIsRun(s: D.State, es: seq<D.Event>, t: Attempts.State, n: Names)
    requires Start(s, n) && Simulates(s, t, n)
    ensures Simulates(D.Run(s, es), Attempts.Run(t, Images(s, es, n)), n)
    decreases |es|
  {
    if es != [] {
      var first, rest := Image(s, es[0], n), Images(D.Step(s, es[0]), es[1..], n);
      StepIsSteps(s, es[0], t, n);
      Safety.StepKeepsInv(s, es[0]);
      RunIsRun(D.Step(s, es[0]), es[1..], Attempts.Run(t, first), n);
      RunAppend(t, first, rest);
    }
  }

  /**
    Refinement: whatever a start's continuation, timers, store replies and other writers do, the attempts
    see exactly its row, its one write, how far its call got and whether it was sent.
  */
  lemma EveryStartIsAnAttempt(b: D.Budgets, isJson: bool, es: seq<D.Event>, n: Names)
    ensures
      var s0 := D.Init(b, n.attempt, D.Start(isJson));
      Simulates(D.Run(s0, es), Attempts.Run(Attempts.FRESH, Images(s0, es, n)), n)
  {
    Safety.InitInv(b, n.attempt, D.Start(isJson));
    RunIsRun(D.Init(b, n.attempt, D.Start(isJson)), es, Attempts.FRESH, n);
  }
}
