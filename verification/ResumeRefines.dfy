/**
  Every run of a resume whose claim has won, in the step system of the latch protocol, is a run of
  `Attempts` from that claim: with a drive or without one, whatever its guard, its timers, late replies
  and other writers do.
*/
module ResumeRefines {
  import opened Wrappers
  import DispatchCells
  import Decisions
  import Attempts
  import D = DirectDrive
  import Safety = DirectDriveSafety
  import Starts = StartRefines

  /** The settle write, seen as the one write a drive may issue; a resume never pauses. */
  function Slot(s: D.State): Attempts.WriteSlot {
    if s.write.None? then Attempts.NoWrite
    else if s.write.value.landed.Some? then Attempts.Landed
    else Attempts.EndWrite
  }

  predicate Pauses(row: D.Row) { row.Settled? && row.settle.SettlePaused? }

  /** The shared row: still this resume's, as its claim left it, or ended, and never paused again. */
  predicate SameRow(s: D.State, t: Attempts.State, base: Attempts.State, a: nat) {
    if s.row.Running? then t.row == Attempts.Running(a) && t.pause == base.pause
    else !Pauses(s.row) && t.row == Attempts.Done && t.pause.None?
  }

  /** The resume's own drive: its write, and whether its call went out; until then it stands as it was. */
  predicate SameDrive(s: D.State, d: Attempts.Drive, was: Attempts.Drive) {
    && d.alive && d.asked == was.asked && d.claimed == was.claimed && d.call == was.call && d.write == Slot(s)
    && if Starts.Sent(s) then d.phase == Attempts.Sent else d.phase == was.phase && d.seam == was.seam
  }

  /** `base` is where the resume began to run; no other drive is touched. */
  ghost predicate Simulates(s: D.State, t: Attempts.State, base: Attempts.State, a: nat) {
    && SameRow(s, t, base, a) && t.call == base.call
    && t.sends == (if Starts.Sent(s) then base.sends + [a] else base.sends)
    && a in base.drives && t.drives.Keys == base.drives.Keys
    && (forall b :: b in base.drives && b != a ==> t.drives[b] == base.drives[b])
    && SameDrive(s, t.drives[a], base.drives[a])
  }

  /** A claim has won and nothing was written or sent under it yet. */
  predicate Begun(base: Attempts.State, a: nat) {
    && a in base.drives && base.row == Attempts.Running(a)
    && var d := base.drives[a]; d.alive && d.asked.Some? && d.write == Attempts.NoWrite && d.phase != Attempts.Sent
  }

  /** What its guard staged clears the call. */
  predicate Able(base: Attempts.State, a: nat)
    requires a in base.drives
  {
    var d := base.drives[a];
    d.phase == Attempts.Staging && Decisions.Taken(d.seam, Attempts.EXECUTION, d.call) == Some(Decisions.Approve)
  }

  /** The steps of `Attempts` that one event of the protocol is. */
  function Image(s: D.State, e: D.Event, a: nat): seq<Attempts.Event> {
    var t := D.Step(s, e);
    if e.Dispatch? then
      if Starts.Sent(t) && !Starts.Sent(s) then [Attempts.Invoke(a), Attempts.Gate(a, true)] else []
    else if e.WriteLands? then if t.write != s.write then [Attempts.Land(a)] else []
    else if e.CodeWriteLands? then
      if t.rowWrite == s.rowWrite then []
      else if s.rowWrite.value.form == D.FailRunning then [Attempts.FailClaimed(a)]
      else [Attempts.PutEnd(a)]
    else if e.RowTaken? then if t.row != s.row then [Attempts.Takeover] else []
    else if s.write.None? && t.write.Some? then [Attempts.IssueEnd(a)]
    else []
  }

  function Images(s: D.State, es: seq<D.Event>, a: nat): seq<Attempts.Event>
    decreases |es|
  {
    if es == [] then [] else Image(s, es[0], a) + Images(D.Step(s, es[0]), es[1..], a)
  }

  predicate Resuming(s: D.State, a: nat) {
    && Safety.Inv(s) && Safety.PausesUnsent(s) && s.ctx.resumed && s.ctx.attempt == a
  }

  /** What the single steps need of the invariant. */
  predicate Kept(s: D.State, a: nat) {
    && s.ctx.attempt == a && s.row != D.NoRow
    && (s.row.Running? ==> s.row.attempt == a)
    && (s.write.Some? ==> s.settled && !s.write.value.plan.settle.SettlePaused?)
  }

  lemma SentIsGate(s: D.State, u: D.State, t: Attempts.State, base: Attempts.State, a: nat)
    requires Begun(base, a) && Able(base, a) && Simulates(s, t, base, a)
    requires !Starts.Sent(s) && Starts.Sent(u) && s.write.None? && u.write.None? && u.row == s.row
    ensures Simulates(u, Attempts.Run(t, [Attempts.Invoke(a), Attempts.Gate(a, true)]), base, a)
  {
    Starts.RunTwo(t, Attempts.Invoke(a), Attempts.Gate(a, true));
  }

  lemma DispatchIsGate(s: D.State, t: Attempts.State, remaining: int, base: Attempts.State, a: nat)
    requires Kept(s, a) && Begun(base, a) && Simulates(s, t, base, a)
    requires Able(base, a) || !Starts.Sent(D.Step(s, D.Dispatch(remaining)))
    ensures Simulates(D.Step(s, D.Dispatch(remaining)), Attempts.Run(t, Image(s, D.Dispatch(remaining), a)), base, a)
  {
    var u := D.OnDispatch(s, remaining);
    if Starts.Sent(u) && !Starts.Sent(s) {
      SentIsGate(s, u, t, base, a);
    } else {
      QuietKeeps(s, u, t, base, a);
    }
  }

  lemma LandedIsLand(s: D.State, u: D.State, t: Attempts.State, base: Attempts.State, a: nat)
    requires Simulates(s, t, base, a) && Slot(s) == Attempts.EndWrite && Slot(u) == Attempts.Landed
    requires u.cell == s.cell && if s.row.Running? then !u.row.Running? && !Pauses(u.row) else u.row == s.row
    ensures Simulates(u, Attempts.Run(t, [Attempts.Land(a)]), base, a)
  {
    Starts.RunOne(t, Attempts.Land(a));
  }

  lemma LandIsLand(s: D.State, t: Attempts.State, base: Attempts.State, a: nat)
    requires Kept(s, a) && Simulates(s, t, base, a)
    ensures Simulates(D.Step(s, D.WriteLands), Attempts.Run(t, Image(s, D.WriteLands, a)), base, a)
  {
    var u := D.OnLands(s);
    if u.write != s.write {
      LandedIsLand(s, u, t, base, a);
    }
  }

  /** The row ends by another statement than the settle write. */
  lemma EndedIsEnd(s: D.State, u: D.State, t: Attempts.State, f: Attempts.Event, base: Attempts.State, a: nat)
    requires Begun(base, a) && Simulates(s, t, base, a) && u.write == s.write && u.cell == s.cell
    requires f == Attempts.PutEnd(a) || f == Attempts.FailClaimed(a) || f == Attempts.Takeover
    requires !u.row.Running? && !Pauses(u.row)
    ensures Simulates(u, Attempts.Run(t, [f]), base, a)
  {
    Starts.RunOne(t, f);
  }

  lemma RowLandsIsEnd(s: D.State, t: Attempts.State, base: Attempts.State, a: nat)
    requires Begun(base, a) && Simulates(s, t, base, a)
    ensures Simulates(D.Step(s, D.CodeWriteLands), Attempts.Run(t, Image(s, D.CodeWriteLands, a)), base, a)
  {
    var u := D.OnRowLands(s);
    if u.rowWrite != s.rowWrite {
      EndedIsEnd(s, u, t, if s.rowWrite.value.form == D.FailRunning then Attempts.FailClaimed(a)
                          else Attempts.PutEnd(a), base, a);
    }
  }

  lemma TakenIsTakeover(s: D.State, t: Attempts.State, base: Attempts.State, a: nat)
    requires Begun(base, a) && Simulates(s, t, base, a)
    ensures Simulates(D.Step(s, D.RowTaken), Attempts.Run(t, Image(s, D.RowTaken, a)), base, a)
  {
    if s.row.Running? {
      EndedIsEnd(s, s.(row := D.Taken), t, Attempts.Takeover, base, a);
    }
  }

  predicate Special(e: D.Event) { e.Dispatch? || e.WriteLands? || e.CodeWriteLands? || e.RowTaken? }

  /** Every other event leaves the row alone and sends nothing. */
  lemma OtherStepIsQuiet(s: D.State, e: D.Event)
    requires Safety.Phases(s) && s.ctx.resumed && !Special(e)
    ensures D.Step(s, e).row == s.row && (Starts.Sent(D.Step(s, e)) <==> Starts.Sent(s))
  {
    if !e.CreateLands? {
      Safety.RowStays(s, e);
      NothingSent(s, e);
    }
  }

  lemma NothingSent(s: D.State, e: D.Event)
    requires !e.Dispatch?
    ensures Starts.Sent(D.Step(s, e)) <==> Starts.Sent(s)
  {
    if Safety.Opens(e) {
      NothingSentOpening(s, e);
    } else if Safety.Settles(e) {
      NothingSentSettling(s, e);
    }
  }

  lemma NothingSentOpening(s: D.State, e: D.Event)
    requires Safety.Opens(e)
    ensures D.Step(s, e).cell == s.cell
  {
  }

  lemma NothingSentSettling(s: D.State, e: D.Event)
    requires Safety.Settles(e)
    ensures D.Step(s, e).cell == s.cell
  {
  }

  lemma WriteKeepsSlot(s: D.State, e: D.Event)
    requires Safety.Inv(s) && s.write.Some? && !e.WriteLands?
    ensures Slot(D.Step(s, e)) == Slot(s)
  {
    Safety.WriteStays(s, e);
  }

  lemma NewWriteWaits(s: D.State, e: D.Event)
    requires s.write.None? && D.Step(s, e).write.Some?
    ensures D.Step(s, e).write.value.landed.None?
  {
    if e.CreateOk? || e.ConflictReply? || e.TimerFires? || e.GuardPass? || e.GuardExit? {
      NewWriteWaitsEarly(s, e);
    }
  }

  lemma NewWriteWaitsEarly(s: D.State, e: D.Event)
    requires e.CreateOk? || e.ConflictReply? || e.TimerFires? || e.GuardPass? || e.GuardExit?
    requires s.write.None? && D.Step(s, e).write.Some?
    ensures D.Step(s, e).write.value.landed.None?
  {
  }

  lemma QuietKeeps(s: D.State, u: D.State, t: Attempts.State, base: Attempts.State, a: nat)
    requires Simulates(s, t, base, a) && u.row == s.row && Slot(u) == Slot(s)
    requires Starts.Sent(u) <==> Starts.Sent(s)
    ensures Simulates(u, t, base, a)
  {
  }

  lemma IssueIsIssue(s: D.State, u: D.State, t: Attempts.State, base: Attempts.State, a: nat)
    requires Simulates(s, t, base, a) && s.write.None? && Slot(u) == Attempts.EndWrite && u.row == s.row
    requires Starts.Sent(u) <==> Starts.Sent(s)
    ensures Simulates(u, Attempts.Run(t, [Attempts.IssueEnd(a)]), base, a)
  {
    Starts.RunOne(t, Attempts.IssueEnd(a));
  }

  lemma StepIsSteps(s: D.State, e: D.Event, t: Attempts.State, base: Attempts.State, a: nat)
    requires Resuming(s, a) && Begun(base, a) && Simulates(s, t, base, a)
    requires Able(base, a) || !Starts.Sent(D.Step(s, e))
    ensures Simulates(D.Step(s, e), Attempts.Run(t, Image(s, e, a)), base, a)
  {
    if e.Dispatch? {
      DispatchIsGate(s, t, e.remaining, base, a);
    } else if e.WriteLands? {
      LandIsLand(s, t, base, a);
    } else if e.CodeWriteLands? {
      RowLandsIsEnd(s, t, base, a);
    } else if e.RowTaken? {
      TakenIsTakeover(s, t, base, a);
    } else {
      OtherStepIsQuiet(s, e);
      if s.write.Some? {
        WriteKeepsSlot(s, e);
      }
      if s.write.None? && D.Step(s, e).write.Some? {
        NewWriteWaits(s, e);
        IssueIsIssue(s, D.Step(s, e), t, base, a);
      } else {
        QuietKeeps(s, D.Step(s, e), t, base, a);
      }
    }
  }

  lemma {:induction false} SentStays(s: D.State, es: seq<D.Event>)
    requires Starts.Sent(s)
    ensures Starts.Sent(D.Run(s, es))
    decreases |es|
  {
    if es != [] {
      if !es[0].Dispatch? {
        NothingSent(s, es[0]);
      }
      SentStays(D.Step(s, es[0]), es[1..]);
    }
  }

  lemma StepKeepsResuming(s: D.State, e: D.Event, a: nat)
    requires Resuming(s, a)
    ensures Resuming(D.Step(s, e), a)
  {
    Safety.StepKeepsInv(s, e);
    Safety.StepPausesUnsent(s, e);
  }

  lemma {:induction false} RunIsRun(s: D.State, es: seq<D.Event>, t: Attempts.State, base: Attempts.State, a: nat)
    requires Resuming(s, a) && Begun(base, a) && Simulates(s, t, base, a)
    requires Able(base, a) || !Starts.Sent(D.Run(s, es))
    ensures Simulates(D.Run(s, es), Attempts.Run(t, Images(s, es, a)), base, a)
    decreases |es|
  {
    if es != [] {
      var u, first, rest := D.Step(s, es[0]), Image(s, es[0], a), Images(D.Step(s, es[0]), es[1..], a);
      if Starts.Sent(u) {
        SentStays(u, es[1..]);
      }
      StepIsSteps(s, es[0], t, base, a);
      StepKeepsResuming(s, es[0], a);
      RunIsRun(u, es[1..], Attempts.Run(t, first), base, a);
      Starts.RunAppend(t, first, rest);
    }
  }

  /** A pause that names exactly the stored call, approved: then, and only then, may the call go out. */
  predicate Clears(t: Attempts.State, callId: string, decision: Decisions.Decision) {
    decision == Decisions.Approve && t.pause == Some(Attempts.Pending(callId, t.call))
  }

  /** How the attempts get to where the resume begins: the claim, and the guard's read if it finds the call clear. */
  function Opening(t: Attempts.State, a: nat, callId: string, decision: Decisions.Decision): seq<Attempts.Event> {
    if Clears(t, callId, decision) then [Attempts.Claim(a, callId, decision), Attempts.Read(a)]
    else [Attempts.Claim(a, callId, decision)]
  }

  lemma OpeningBegins(t: Attempts.State, a: nat, callId: string, decision: Decisions.Decision)
    requires a !in t.drives && Attempts.ClaimMatches(t, callId)
    ensures
      var base := Attempts.Run(t, Opening(t, a, callId, decision));
      && Begun(base, a) && base.call == t.call && base.sends == t.sends
      && (Clears(t, callId, decision) ==> Able(base, a))
  {
    Starts.RunOne(t, Attempts.Claim(a, callId, decision));
    Starts.RunTwo(t, Attempts.Claim(a, callId, decision), Attempts.Read(a));
  }

  /**
    Refinement: from any claim that wins, whatever was paused and decided, every run of the resume is a run
    of the attempts that sees exactly its row, its one write and whether its call went out; a run that
    sends is one for a resume whose pause and approval name the stored call.
  */
  lemma EveryResumeIsAnAttempt(b: D.Budgets, es: seq<D.Event>, t: Attempts.State, a: nat, callId: string,
                               decision: Decisions.Decision)
    requires a !in t.drives && Attempts.ClaimMatches(t, callId)
    requires Clears(t, callId, decision) || !Starts.Sent(D.Run(D.Init(b, a, D.Resume), es))
    ensures
      var s0, opening := D.Init(b, a, D.Resume), Opening(t, a, callId, decision);
      Simulates(D.Run(s0, es), Attempts.Run(t, opening + Images(s0, es, a)), Attempts.Run(t, opening), a)
  {
    var s0, opening := D.Init(b, a, D.Resume), Opening(t, a, callId, decision);
    var base := Attempts.Run(t, opening);
    Safety.InitInv(b, a, D.Resume);
    OpeningBegins(t, a, callId, decision);
    RunIsRun(s0, es, base, base, a);
    Starts.RunAppend(t, opening, Images(s0, es, a));
  }
}
