/**
  What becomes of an execution: who gets the claim, whose call goes out, and how each attempt leaves
  the row.
*/
module AttemptsProgress {
  import opened Wrappers
  import opened Decisions
  import opened Attempts

  /** What the state says about the row: everything but the drives. */
  predicate SameRow(s: State, t: State) { t.row == s.row && t.call == s.call && t.pause == s.pause }

  predicate OthersKept(s: State, t: State, a: nat) {
    t.drives.Keys == s.drives.Keys + {a} && forall b :: b in s.drives && b != a ==> t.drives[b] == s.drives[b]
  }

  // ------------------------------------------------------------------------- a paused row

  /** The row is paused on exactly the call it stores, under this id. */
  predicate AwaitsDecision(s: State, callId: string) {
    s.row == Paused && s.pause == Some(Pending(callId, s.call))
  }

  /** While a row is paused nothing has gone out, and the only drive is the start that paused it. */
  lemma PausedHasSentNothing(es: seq<Event>)
    requires Run(FRESH, es).row == Paused
    ensures Run(FRESH, es).sends == [] && |Run(FRESH, es).drives| == 1
  {
    RunKeepsInv(FRESH, es);
    var s := Run(FRESH, es);
    var first: nat :| InvWith(s, first);
    assert s.drives.Keys == {first};
  }

  /** A claim wins exactly on a paused row whose pause does not name another call. */
  lemma ClaimWinsIff(s: State, a: nat, callId: string, decision: Decision)
    requires a !in s.drives
    ensures
      var t := Step(s, Claim(a, callId, decision));
      var other := s.pause.Some? && s.pause.value.Pending? && s.pause.value.callId != callId;
      if s.row == Paused && !other then
        && t.row == Running(a) && Live(t, a) && OthersKept(s, t, a)
        && t.drives[a].asked == Some(Asked(callId, decision)) && t.drives[a].write == NoWrite
        && t.drives[a].phase == Claimed && t.drives[a].claimed == s.pause
        && t.call == s.call && t.pause == s.pause && t.sends == s.sends
      else t == s
  {
  }

  /** The steps of a resume that is not interrupted, up to its write. */
  function Resumes(a: nat, callId: string, decision: Decision): seq<Event> {
    [Claim(a, callId, decision), Read(a), Invoke(a), Gate(a, true)]
  }

  lemma RunFrom(s: State, e: Event, rest: seq<Event>)
    ensures Run(s, [e] + rest) == Run(Step(s, e), rest)
  {
    assert ([e] + rest)[1..] == rest;
  }

  lemma RunTwo(s: State, e: Event, f: Event)
    ensures Run(s, [e, f]) == Step(Step(s, e), f)
  {
    RunFrom(s, e, [f]);
    RunFrom(Step(s, e), f, []);
    assert [e, f] == [e] + [f] && [f] == [f] + [];
  }

  lemma RunFour(s: State, e: Event, f: Event, g: Event, h: Event)
    ensures Run(s, [e, f, g, h]) == Step(Step(Step(Step(s, e), f), g), h)
  {
    RunFrom(s, e, [f, g, h]);
    RunFrom(Step(s, e), f, [g, h]);
    RunTwo(Step(Step(s, e), f), g, h);
    assert [e, f, g, h] == [e] + [f, g, h] && [f, g, h] == [f] + [g, h];
  }

  /** A drive that has just won its claim. */
  predicate JustClaimed(s: State, a: nat, callId: string, decision: Decision) {
    Live(s, a) && s.drives[a] == Drive(true, Some(Asked(callId, decision)), s.pause, Claimed, s.call, EMPTY, NoWrite)
  }

  /** The read admits exactly the claim that names the pending call. */
  lemma ReadAdmitsIff(s: State, a: nat, callId: string, decision: Decision)
    requires JustClaimed(s, a, callId, decision)
    ensures
      var t := Step(s, Read(a));
      && SameRow(s, t) && t.sends == s.sends && Live(t, a)
      && t.drives[a].phase == (if s.pause == Some(Pending(callId, s.call)) then Staging else Refused)
      && t.drives[a].asked == s.drives[a].asked && t.drives[a].write == NoWrite && t.drives[a].call == s.call
      && (t.drives[a].phase == Staging ==>
            t.drives[a].seam == After(EMPTY, Stage(EXECUTION, Staged(s.call, decision))))
  {
  }

  lemma InvokeClearsIff(s: State, a: nat, call: Identity, decision: Decision)
    requires Live(s, a) && s.drives[a].call == call
    requires s.drives[a].phase == Staging ==> s.drives[a].seam == After(EMPTY, Stage(EXECUTION, Staged(call, decision)))
    requires s.drives[a].phase == Staging || s.drives[a].phase == Refused
    ensures
      var t := Step(s, Invoke(a));
      && SameRow(s, t) && t.sends == s.sends && Live(t, a) && t.drives[a].write == s.drives[a].write
      && t.drives[a].phase == (if s.drives[a].phase == Staging && decision == Approve then Cleared else Refused)
      && t.drives[a].asked == s.drives[a].asked
  {
  }

  lemma GateSendsIff(s: State, a: nat, open: bool)
    requires Live(s, a)
    ensures
      var t := Step(s, Gate(a, open));
      && SameRow(s, t) && Live(t, a) && t.drives[a].write == s.drives[a].write
      && t.drives[a].asked == s.drives[a].asked
      && t.sends ==
           if s.drives[a].phase == Cleared && open && s.drives[a].write == NoWrite then s.sends + [a] else s.sends
  {
  }

  /** From any paused row, a resume under a claim that wins sends exactly when it approves the pending stored call. */
  lemma ResumeSendsIff(s: State, a: nat, callId: string, decision: Decision)
    requires s.row == Paused && s.pause.Some? && a !in s.drives
    ensures
      var t := Run(s, Resumes(a, callId, decision));
      && t.sends == (if AwaitsDecision(s, callId) && decision == Approve then s.sends + [a] else s.sends)
      && t.call == s.call && t.pause == s.pause
      && if s.pause.value.Pending? && s.pause.value.callId != callId then t == s
         else t.row == Running(a) && Live(t, a) && t.drives[a].asked.Some? && t.drives[a].write == NoWrite
  {
    RunFour(s, Claim(a, callId, decision), Read(a), Invoke(a), Gate(a, true));
    ClaimWinsIff(s, a, callId, decision);
    if !(s.pause.value.Pending? && s.pause.value.callId != callId) {
      var s1 := Step(s, Claim(a, callId, decision));
      ReadAdmitsIff(s1, a, callId, decision);
      var s2 := Step(s1, Read(a));
      InvokeClearsIff(s2, a, s.call, decision);
      GateSendsIff(Step(s2, Invoke(a)), a, true);
    }
  }

  /**
    The approval does what it is for: whatever run led to the pause, resuming with an approve under the
    pending id sends the paused call, once, and no other decision or id does.
  */
  lemma ApprovedCallGoesOut(es: seq<Event>, a: nat, callId: string, decision: Decision)
    requires Run(FRESH, es).row == Paused && Run(FRESH, es).pause.Some? && a !in Run(FRESH, es).drives
    ensures
      var s := Run(FRESH, es);
      Run(s, Resumes(a, callId, decision)).sends == if AwaitsDecision(s, callId) && decision == Approve then [a] else []
  {
    PausedHasSentNothing(es);
    ResumeSendsIff(Run(FRESH, es), a, callId, decision);
  }

  // ------------------------------------------------------------------------- a start

  /** A start sends its call exactly when policy allows it; the call it would have paused on is stored by then. */
  lemma StartSendsIff(a: nat, call: Identity, verdict: Verdict)
    ensures
      var s := Step(FRESH, Create(a, call));
      var t := Step(Step(s, Attempts.Event.Decide(a, verdict)), Gate(a, true));
      && t.row == Running(a) && t.call == call && t.pause == None && Live(t, a) && t.drives[a].write == NoWrite
      && t.sends == (if verdict == Allow then [a] else [])
      && (t.drives[a].phase == Denied <==> verdict == RequireApproval)
  {
  }

  /** A start that policy sent to a human pauses, under the id it was given, on the call it was made with. */
  lemma DeniedStartPauses(a: nat, call: Identity, callId: string)
    ensures
      var s := Step(Step(FRESH, Create(a, call)), Attempts.Event.Decide(a, RequireApproval));
      AwaitsDecision(Run(s, [IssuePause(a, callId), Land(a)]), callId)
  {
    var s := Step(Step(FRESH, Create(a, call)), Attempts.Event.Decide(a, RequireApproval));
    RunTwo(s, IssuePause(a, callId), Land(a));
  }

  // ------------------------------------------------------------------------- how an attempt leaves the row

  /** A drive's end lands exactly while the row is still running under that attempt. */
  lemma EndLandsIff(s: State, a: nat)
    requires Live(s, a) && s.drives[a].write == NoWrite
    ensures
      var t := Run(s, [IssueEnd(a), Land(a)]);
      && Live(t, a) && t.drives[a].write == Landed && t.sends == s.sends && OthersKept(s, t, a) && t.call == s.call
      && if s.row == Running(a) then t.row == Done && t.pause == None else t.row == s.row && t.pause == s.pause
  {
    RunTwo(s, IssueEnd(a), Land(a));
  }

  /** A crash stops every drive and touches no row; the sweep after it ends a running row and no other. */
  lemma CrashThenSweep(s: State)
    ensures
      var t := Run(s, [Crash, Sweep]);
      && t.drives.Keys == s.drives.Keys && (forall a :: a in t.drives ==> t.drives[a] == s.drives[a].(alive := false))
      && t.call == s.call && t.sends == s.sends
      && if s.row.Running? then t.row == Done && t.pause == None else t.row == s.row && t.pause == s.pause
  {
    RunTwo(s, Crash, Sweep);
  }

  lemma {:induction false} CrashesKeepRow(s: State, n: nat)
    ensures
      var t := Run(s, seq(n, i => Crash));
      && SameRow(s, t) && t.sends == s.sends && t.drives.Keys == s.drives.Keys
    decreases n
  {
    var es := seq(n, i => Crash);
    if n > 0 {
      assert es[0] == Crash && es[1..] == seq(n - 1, i => Crash);
      CrashesKeepRow(Step(s, Crash), n - 1);
    }
  }

  /** A pause outlives any number of crashes: the same approval still sends the same call. */
  lemma PauseOutlivesCrashes(s: State, n: nat, a: nat, callId: string, decision: Decision)
    requires s.row == Paused && s.pause.Some? && a !in s.drives
    ensures
      Run(Run(s, seq(n, i => Crash)), Resumes(a, callId, decision)).sends == Run(s, Resumes(a, callId, decision)).sends
  {
    CrashesKeepRow(s, n);
    ResumeSendsIff(s, a, callId, decision);
    ResumeSendsIff(Run(s, seq(n, i => Crash)), a, callId, decision);
  }

  /** Which events may end a row, and which may move it at all. */
  predicate MayMove(e: Event) {
    match e
    case Create(_, _) => true
    case Claim(_, _, _) => true
    case Land(_) => true
    case FailClaimed(_) => true
    case PutEnd(_) => true
    case Invalidate => true
    case Takeover => true
    case Sweep => true
    case _ => false
  }

  /** The status column only ever goes running, paused, running, done, and each move has its one kind of cause. */
  lemma RowMovesOnlySo(s: State, e: Event)
    ensures
      var t := Step(s, e);
      && (t.row != s.row ==> MayMove(e))
      && (t.row == NoRow ==> s.row == NoRow && !e.Create?)
      && (t.row == Paused && s.row != Paused ==>
            e.Land? && Live(s, e.a) && s.row == Running(e.a) && s.drives[e.a].write.PauseWrite?)
      && (t.row.Running? && t.row != s.row ==>
            && (e.Create? || e.Claim?) && t.row == Running(e.a)
            && (if e.Create? then s.row == NoRow else s.row == Paused))
      && (t.call != s.call ==> (e.Create? && s.row == NoRow) || (e.TamperPaused? && s.row == Paused))
      && (t.sends != s.sends ==> e.Gate? || e.Create?)
      && (e.TamperPaused? && s.row == Paused ==> t.call == e.call && t.pause == e.pause && t.row == Paused)
  {
  }

  /** The writers that end a row do so exactly in the states their guards name, and change nothing else. */
  lemma WritersEndIff(s: State, a: nat)
    ensures
      var resume := Live(s, a) && s.drives[a].asked.Some?;
      && Step(s, FailClaimed(a)) == (if resume && s.row.Running? then s.(row := Done, pause := None) else s)
      && Step(s, PutEnd(a)) == (if resume then s.(row := Done, pause := None) else s)
      && Step(s, Invalidate) == (if s.row == Paused then s.(row := Done, pause := None) else s)
      && Step(s, Takeover) == (if s.row.Running? then s.(row := Done, pause := None) else s)
      && (s.row.Running? && Live(s, a) ==> Step(s, Sweep) == s)
  {
  }
}
