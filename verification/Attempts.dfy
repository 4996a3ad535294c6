/**
  One direct execution across its start, any number of resumes, crashes and recovery sweeps.

  Each attempt is one drive.  What a drive does on its own is proved in `DirectDriveSafety.DriveRules`
  and is taken here as its rules: it issues at most one settle write, it never dispatches once that
  write is issued, and a start pauses only when policy refused its call before any dispatch.
  `StartRefines` and `ResumeRefines` map every run of a start and of a resume to steps of this module.
  Here the drives share one stored row, whose updates are the guarded statements of the store.
*/
module Attempts {
  import opened Wrappers
  import opened Decisions

  /** The `paused_on` column.  A corrupt pause names no call id, and the claim admits it to fail it. */
  datatype Pause = Corrupt | Pending(callId: string, call: Identity)

  datatype Row = NoRow | Running(attempt: nat) | Paused | Done

  datatype Verdict = Allow | RequireApproval | Block

  datatype Phase = Evaluating | Denied | Claimed | Staging | Cleared | Refused | Sent

  datatype WriteSlot = NoWrite | PauseWrite(pause: Pause) | EndWrite | Landed

  /** `asked` is what `resume` was called with, `claimed` the pause its claim compared. */
  datatype Asked = Asked(callId: string, decision: Decision)

  datatype Drive = Drive(alive: bool, asked: Option<Asked>, claimed: Option<Pause>, phase: Phase, call: Identity,
                         seam: Seam, write: WriteSlot)

  datatype State = State(row: Row, call: Identity, pause: Option<Pause>, drives: map<nat, Drive>, sends: seq<nat>)

  datatype Event =
    | Create(a: nat, call: Identity)
    | Decide(a: nat, verdict: Verdict)
    | Claim(a: nat, callId: string, decision: Decision)
    | Read(a: nat)
    | Invoke(a: nat)
    | Gate(a: nat, open: bool)
    | IssuePause(a: nat, callId: string)
    | IssueEnd(a: nat)
    | Land(a: nat)
    | FailClaimed(a: nat)
    | PutEnd(a: nat)
    | TamperPaused(call: Identity, pause: Option<Pause>)
    | Invalidate
    | Takeover
    | Crash
    | Sweep

  const EXECUTION := "exec"

  predicate Live(s: State, a: nat) { a in s.drives && s.drives[a].alive }

  function With(s: State, a: nat, d: Drive): State { s.(drives := s.drives[a := d]) }

  /** Terminal rows carry no pause. */
  function End(s: State): State { s.(row := Done, pause := None) }

  /** `claimForResume`: one guarded update on status and call id, which a corrupt pause always passes. */
  predicate ClaimMatches(s: State, callId: string) {
    s.row == Paused && (s.pause.None? || s.pause.value.Corrupt? || s.pause.value.callId == callId)
  }

  function OnClaim(s: State, a: nat, callId: string, decision: Decision): State {
    if a in s.drives || !ClaimMatches(s, callId) then s
    else With(s.(row := Running(a)), a,
              Drive(true, Some(Asked(callId, decision)), s.pause, Claimed, s.call, EMPTY, NoWrite))
  }

  /** The read-side guard: the claim, the pause and the stored call must all name the same call. */
  function OnRead(s: State, a: nat): State {
    if !Live(s, a) || s.drives[a].phase != Claimed || s.drives[a].asked.None? then s
    else
      var d := s.drives[a];
      if s.pause.None? || s.pause.value.Corrupt? || s.pause.value.callId != d.asked.value.callId
          || s.pause.value.call != s.call
      then With(s, a, d.(phase := Refused))
      else With(s, a, d.(phase := Staging, call := s.call,
                         seam := After(EMPTY, Stage(EXECUTION, Staged(s.call, d.asked.value.decision)))))
  }

  /** The invoker consults the staged decision before any policy: only a matching approval clears the call. */
  function OnInvoke(s: State, a: nat): State {
    if !Live(s, a) || s.drives[a].phase != Staging then s
    else
      var d := s.drives[a];
      var taken := Taken(d.seam, EXECUTION, d.call);
      With(s, a, d.(seam := After(d.seam, Take(EXECUTION, d.call)),
                    phase := if taken == Some(Approve) then Cleared else Refused))
  }

  /** The pre-write gate.  A drive that has settled has no budget left, so it refuses. */
  function OnGate(s: State, a: nat, open: bool): State {
    if !Live(s, a) || s.drives[a].phase != Cleared then s
    else if open && s.drives[a].write == NoWrite then
      With(s, a, s.drives[a].(phase := Sent)).(sends := s.sends + [a])
    else With(s, a, s.drives[a].(phase := Refused))
  }

  /** `settleDirect`: the row must still be running under this very attempt. */
  function OnLand(s: State, a: nat): State {
    if !Live(s, a) || (!s.drives[a].write.PauseWrite? && !s.drives[a].write.EndWrite?) then s
    else
      var w := s.drives[a].write;
      var s1 := With(s, a, s.drives[a].(write := Landed));
      if s.row != Running(a) then s1
      else if w.PauseWrite? then s1.(row := Paused, pause := Some(w.pause))
      else End(s1)
  }

  function Step(s: State, e: Event): State {
    match e
    case Create(a, call) =>
      if s.row != NoRow then s
      else State(Running(a), call, None, map[a := Drive(true, None, None, Evaluating, call, EMPTY, NoWrite)], [])
    case Decide(a, verdict) =>
      if !Live(s, a) || s.drives[a].phase != Evaluating then s
      else With(s, a, s.drives[a].(phase := match verdict
                                            case Allow => Cleared
                                            case RequireApproval => Denied
                                            case Block => Refused))
    case Claim(a, callId, decision) => OnClaim(s, a, callId, decision)
    case Read(a) => OnRead(s, a)
    case Invoke(a) => OnInvoke(s, a)
    case Gate(a, open) => OnGate(s, a, open)
    case IssuePause(a, callId) =>
      if !Live(s, a) || s.drives[a].phase != Denied || s.drives[a].write != NoWrite then s
      else With(s, a, s.drives[a].(write := PauseWrite(Pending(callId, s.drives[a].call))))
    case IssueEnd(a) =>
      if !Live(s, a) || s.drives[a].write != NoWrite then s else With(s, a, s.drives[a].(write := EndWrite))
    case Land(a) => OnLand(s, a)
    case FailClaimed(a) => if Live(s, a) && s.drives[a].asked.Some? && s.row.Running? then End(s) else s
    // the unfenced put of a resume without a drive: it overwrites whatever the row holds
    case PutEnd(a) => if Live(s, a) && s.drives[a].asked.Some? then End(s) else s
    case TamperPaused(call, pause) => if s.row == Paused then s.(call := call, pause := pause) else s
    case Invalidate => if s.row == Paused then End(s) else s
    // any other writer that ends a running row, whoever it is
    case Takeover => if s.row.Running? then End(s) else s
    case Crash => s.(drives := map a | a in s.drives :: s.drives[a].(alive := false))
    case Sweep => if (forall a :: a in s.drives ==> !s.drives[a].alive) && s.row.Running? then End(s) else s
  }

  function Run(s: State, es: seq<Event>): State
    decreases |es|
  {
    if es == [] then s else Run(Step(s, es[0]), es[1..])
  }

  const FRESH := State(NoRow, Identity("", ""), None, map[], [])

  // ------------------------------------------------------------------------- the invariant

  /** The start gave its one write to the pause that landed, and its own call is over. */
  ghost predicate StartPaused(s: State, first: nat)
    requires first in s.drives
  {
    s.drives[first].phase == Denied && s.drives[first].write == Landed
  }

  /** What a resume has earned by the phase it is in. */
  ghost predicate Earned(s: State, d: Drive) {
    match d.phase
    case Evaluating => false
    case Denied => false
    case Claimed => s.pause.None? || s.pause == d.claimed
    case Staging =>
      && d.asked.Some? && d.claimed == Some(Pending(d.asked.value.callId, d.call)) && d.call == s.call
      && d.seam == After(EMPTY, Stage(EXECUTION, Staged(d.call, d.asked.value.decision)))
    case Refused => true
    case Cleared => Approved(s, d)
    case Sent => Approved(s, d)
  }

  /** An approve naming exactly the pending call won the claim, and it is the stored call. */
  ghost predicate Approved(s: State, d: Drive) {
    && d.asked.Some? && d.asked.value.decision == Approve
    && d.claimed == Some(Pending(d.asked.value.callId, d.call)) && d.call == s.call
  }

  /** `first` is the start; every other drive is the one resume whose claim won. */
  ghost predicate InvWith(s: State, first: nat) {
    && first in s.drives && s.drives[first].asked.None?
    && s.drives[first].phase != Claimed && s.drives[first].phase != Staging
    && (s.drives[first].write.PauseWrite? ==> s.drives[first].phase == Denied)
    && (s.row.Running? ==> s.row.attempt in s.drives)
    && (s.row == Running(first) ==> s.pause.None? && s.drives[first].write != Landed)
    && (s.row == Paused ==> StartPaused(s, first) && s.drives.Keys == {first})
    && (s.row == Done ==> s.pause.None?)
    && (forall a :: a in s.drives && a != first ==>
          && StartPaused(s, first) && s.row != Running(first)
          && s.drives[a].asked.Some? && !s.drives[a].write.PauseWrite? && Earned(s, s.drives[a]))
    && (forall a, b :: a in s.drives && b in s.drives && a != first && b != first ==> a == b)
    && (forall a :: a in s.drives && s.drives[a].phase == Sent ==> s.sends == [a])
    && (s.sends != [] ==> |s.sends| == 1 && s.sends[0] in s.drives && s.drives[s.sends[0]].phase == Sent)
  }

  ghost predicate Inv(s: State) {
    if s.row == NoRow then s.drives == map[] && s.sends == [] && s.pause.None? else exists first :: InvWith(s, first)
  }

  /** What a drive may do to its own record without touching the row. */
  ghost predicate Touches(s: State, a: nat, d: Drive, first: nat)
    requires a in s.drives
  {
    var was := s.drives[a];
    && d.asked == was.asked && d.claimed == was.claimed
    && (d.phase == Sent <==> was.phase == Sent)
    && (if a == first then
          && d.phase != Claimed && d.phase != Staging
          && (d.write.PauseWrite? ==> d.phase == Denied)
          && (d.write == Landed <==> was.write == Landed)
          && (was.phase == Denied ==> d.phase == Denied)
        else
          !d.write.PauseWrite? && Earned(s, d))
  }

  lemma TouchKeepsInv(s: State, a: nat, d: Drive, first: nat)
    requires InvWith(s, first) && a in s.drives && Touches(s, a, d, first)
    ensures InvWith(With(s, a, d), first)
  {
    var t := With(s, a, d);
    assert forall b :: b in t.drives <==> b in s.drives;
  }

  lemma DriveStepKeepsInv(s: State, e: Event, first: nat)
    requires s.row != NoRow && InvWith(s, first)
    requires e.Decide? || e.IssuePause? || e.IssueEnd? || e.Read? || e.Invoke?
    ensures Step(s, e).row == s.row && InvWith(Step(s, e), first)
  {
    if Step(s, e) != s {
      assert Step(s, e) == With(s, e.a, Step(s, e).drives[e.a]);
      TouchKeepsInv(s, e.a, Step(s, e).drives[e.a], first);
    }
  }

  lemma GateKeepsInv(s: State, a: nat, open: bool, first: nat)
    requires s.row != NoRow && InvWith(s, first)
    ensures OnGate(s, a, open).row == s.row && InvWith(OnGate(s, a, open), first)
  {
  }

  lemma LandKeepsInv(s: State, a: nat, first: nat)
    requires s.row != NoRow && InvWith(s, first)
    ensures OnLand(s, a).row != NoRow && InvWith(OnLand(s, a), first)
  {
  }

  lemma ClaimKeepsInv(s: State, a: nat, callId: string, decision: Decision, first: nat)
    requires s.row != NoRow && InvWith(s, first)
    ensures OnClaim(s, a, callId, decision).row != NoRow && InvWith(OnClaim(s, a, callId, decision), first)
  {
  }

  lemma EnvironmentKeepsInv(s: State, e: Event, first: nat)
    requires s.row != NoRow && InvWith(s, first)
    requires e.Create? || e.FailClaimed? || e.PutEnd? || e.Invalidate? || e.Takeover? || e.Sweep?
    ensures Step(s, e).row != NoRow && InvWith(Step(s, e), first)
  {
  }

  lemma CrashKeepsInv(s: State, e: Event, first: nat)
    requires s.row != NoRow && InvWith(s, first)
    requires e.TamperPaused? || e.Crash?
    ensures Step(s, e).row != NoRow && InvWith(Step(s, e), first)
  {
  }

  lemma StepKeepsInvWith(s: State, e: Event, first: nat)
    requires s.row != NoRow && InvWith(s, first)
    ensures Step(s, e).row != NoRow && InvWith(Step(s, e), first)
  {
    match e
    case Land(a) => LandKeepsInv(s, a, first);
    case Gate(a, open) => GateKeepsInv(s, a, open, first);
    case Claim(a, callId, decision) => ClaimKeepsInv(s, a, callId, decision, first);
    case Decide(_, _) => DriveStepKeepsInv(s, e, first);
    case IssuePause(_, _) => DriveStepKeepsInv(s, e, first);
    case IssueEnd(_) => DriveStepKeepsInv(s, e, first);
    case Read(_) => DriveStepKeepsInv(s, e, first);
    case Invoke(_) => DriveStepKeepsInv(s, e, first);
    case TamperPaused(_, _) => CrashKeepsInv(s, e, first);
    case Crash => CrashKeepsInv(s, e, first);
    case _ => EnvironmentKeepsInv(s, e, first);
  }

  lemma StepKeepsInv(s: State, e: Event)
    requires Inv(s)
    ensures Inv(Step(s, e))
  {
    if s.row == NoRow {
      if e.Create? {
        assert InvWith(Step(s, e), e.a);
      }
    } else {
      var first :| InvWith(s, first);
      StepKeepsInvWith(s, e, first);
    }
  }

  lemma {:induction false} RunKeepsInv(s: State, es: seq<Event>)
    requires Inv(s)
    ensures Inv(Run(s, es))
    decreases |es|
  {
    if es != [] {
      StepKeepsInv(s, es[0]);
      RunKeepsInv(Step(s, es[0]), es[1..]);
    }
  }

  // ------------------------------------------------------------------------- the results

  /**
    Whatever starts, resumes, crashes, sweeps and tampering do, the governed call is sent at most once.
    If it was sent after a pause, the sender is the resume whose claim won with an approve naming
    exactly the pending call, and the call it sent is both the paused one and the stored one.
  */
  lemma SentAtMostOnce(es: seq<Event>)
    ensures
      var s := Run(FRESH, es);
      && |s.sends| <= 1
      && (s.sends != [] ==>
            && s.sends[0] in s.drives
            && var d := s.drives[s.sends[0]];
               (d.asked.None? && s.drives.Keys == {s.sends[0]}) || Approved(s, d))
  {
    RunKeepsInv(FRESH, es);
  }

  /** Of all resumes, concurrent or repeated, one claim at most ever wins, and never after the start has sent. */
  lemma OneClaimWins(es: seq<Event>)
    ensures
      var s := Run(FRESH, es);
      forall a, b :: a in s.drives && b in s.drives && s.drives[a].asked.Some? && s.drives[b].asked.Some? ==>
        a == b && forall c :: c in s.sends ==> c == a
  {
    RunKeepsInv(FRESH, es);
  }

  lemma StepKeepsResume(s: State, e: Event, a: nat)
    requires Inv(s) && a in s.drives && s.drives[a].asked.Some?
    ensures a in Step(s, e).drives && Step(s, e).drives[a].asked.Some?
  {
  }

  /** A claimed row never pauses again, so a claim is spent for good. */
  lemma {:induction false} ClaimedNeverPausesAgain(s: State, es: seq<Event>, a: nat)
    requires Inv(s) && a in s.drives && s.drives[a].asked.Some?
    ensures Run(s, es).row != Paused
    decreases |es|
  {
    if es != [] {
      StepKeepsInv(s, es[0]);
      StepKeepsResume(s, es[0], a);
      ClaimedNeverPausesAgain(Step(s, es[0]), es[1..], a);
    }
  }
}
