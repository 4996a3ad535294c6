/**
  What a direct execution answers, and why: every answer is the verdict of one event of its run, and
  every such event, if the store then answers, is answered so.
*/
module DirectDriveAnswers {
  import opened Wrappers
  import opened DispatchCells
  import opened DirectDrive
  import opened DirectDriveSafety

  const DID_NOT_RUN := Plan(SettleFailed(NotDispatched), Failed(NotDispatched))

  const MAY_HAVE_RUN := Plan(SettleFailed(OutcomeAmbiguous), Failed(OutcomeAmbiguous))

  /** What the result of a call that went out calls for. */
  function ReturnVerdict(c: Context, value: nat, bytes: nat, serializable: bool): Plan {
    if !serializable then MAY_HAVE_RUN
    else if bytes > c.budgets.resultBytesMax then Plan(SettleDiscarded, TooLarge)
    else Plan(if c.resumed then SettleRetained(value) else SettleDelivered, Completed(value))
  }

  /** How a resume's guard may end: it refuses after any read but the last, and a pause can only be past its time. */
  function GuardVerdict(read: GuardRead, exit: GuardEnd): Option<Plan> {
    match exit
    case Refused => if read == GetPolicy then None else Some(DID_NOT_RUN)
    case PastTtl => if read == ClaimCallId then Some(Plan(SettleExpired, Expired)) else None
    case Faulted => Some(Plan(SettleFailed(NotDispatched), Threw))
  }

  /** What an event calls for where it happens: a table of everything that may take the latch. */
  function Verdict(s: State, e: Event): Option<Plan> {
    match s.pc
    case Creating =>
      if e == CreateOk(false) && s.row != NoRow then Some(DID_NOT_RUN) else TimerVerdict(s, e)
    case ConflictLookup =>
      if e == ConflictReply(true) then Some(Plan(SettleFailed(NotDispatched), Conflict))
      else if e == ConflictReply(false) then Some(DID_NOT_RUN)
      else TimerVerdict(s, e)
    case Guarding(read) =>
      if e.GuardExit? then GuardVerdict(read, e.exit)
      else if e.GuardPass? && read == GetPolicy && !(e.parsed && e.prepared) then Some(DID_NOT_RUN)
      else TimerVerdict(s, e)
    case Invoking =>
      if e.InvokeThrew? then Some(if s.cell == Dispatched || e.ambiguous then MAY_HAVE_RUN else DID_NOT_RUN)
      else if e.InvokeReturned? && s.cell == Dispatched then
        Some(ReturnVerdict(s.ctx, e.value, e.bytes, e.serializable))
      else if e.InvokeDenied? && s.cell != Dispatched && s.ctx.resumed then Some(DID_NOT_RUN)
      else TimerVerdict(s, e)
    case ReadingGeneration =>
      if e.GenerationReply? then
        Some(if e.generation.Present? then Plan(SettlePaused(e.generation.callId), Paused(e.generation.callId))
             else DID_NOT_RUN)
      else TimerVerdict(s, e)
    case _ => TimerVerdict(s, e)
  }

  /** The budget ran out: whether the call may have gone out is all that is known of it. */
  function TimerVerdict(s: State, e: Event): Option<Plan> {
    if e == TimerFires && s.timerOn && s.now >= s.due then
      Some(if s.cell == Dispatched then MAY_HAVE_RUN else Plan(SettleFailed(Interrupted), Failed(Interrupted)))
    else None
  }

  /** What follows from a verdict: its answer at once while no row exists, and its write once there is one. */
  predicate Takes(s: State, t: State, p: Plan) {
    && t.settled
    && if t.persisted then t.write == Some(Write(p, s.now, true, None, None, false)) && t.answer.None?
       else t.write.None? && t.answer == Some(p.answer) && t.answeredAt == s.now
  }

  /** While the latch is free, exactly the events with a verdict take it, and each for its own. */
  lemma LatchGoesToVerdict(s: State, e: Event)
    requires Inv(s) && !s.settled
    ensures var t := Step(s, e); if Verdict(s, e).Some? then Takes(s, t, Verdict(s, e).value) else !t.settled
  {
    if Runs(e) || e.GenerationReply? {
      CallGoesToVerdict(s, e);
    } else if Settles(e) {
      SettlingTakesNothing(s, e);
    } else if e.GuardPass? || e.GuardExit? {
      GuardGoesToVerdict(s, e);
    }
  }

  lemma CallGoesToVerdict(s: State, e: Event)
    requires Inv(s) && !s.settled && (Runs(e) || e.GenerationReply?)
    ensures var t := Step(s, e); if Verdict(s, e).Some? then Takes(s, t, Verdict(s, e).value) else !t.settled
  {
  }

  lemma GuardGoesToVerdict(s: State, e: Event)
    requires Inv(s) && !s.settled && (e.GuardPass? || e.GuardExit?)
    ensures var t := Step(s, e); if Verdict(s, e).Some? then Takes(s, t, Verdict(s, e).value) else !t.settled
  {
  }

  lemma SettlingTakesNothing(s: State, e: Event)
    requires Inv(s) && !s.settled && Settles(e)
    ensures Verdict(s, e).None? && !Step(s, e).settled
  {
  }

  // ------------------------------------------------------------------- from the answer to its cause

  /** An input that is not JSON is refused before anything is asked of the store. */
  predicate RefusedAtOnce(s: State, entry: Entry) { entry == Start(false) && s.answer == Some(Failed(NotDispatched)) }

  /** The verdict `p` that took the latch: its write is the one issued then, or its answer the one given then. */
  predicate HeldBy(s: State, p: Plan, since: nat) {
    match s.write
    case Some(w) =>
      if w.publishes then w.plan == p && w.since == since && (s.answer == Some(Threw) ==> p.answer == Threw)
      else s.answer == Some(p.answer)
    case None => s.answer == Some(p.answer) && s.answeredAt == since
  }

  lemma StepHolds(s: State, e: Event, p: Plan, since: nat)
    requires Inv(s) && s.settled && HeldBy(s, p, since)
    ensures HeldBy(Step(s, e), p, since)
  {
    StepKeepsInv(s, e);
    if s.write.Some? {
      HeldWrite(s, e);
      if s.answer.None? && Step(s, e).answer == Some(Threw) {
        ThrewByPlan(s, e);
      }
    }
    if s.answer.Some? {
      StepKeepsAnswer(s, e);
      AnsweredOnce(s, e);
    }
  }

  lemma HeldWrite(s: State, e: Event)
    requires Inv(s) && s.write.Some?
    ensures
      var t := Step(s, e);
      && t.write.Some? && t.write.value.plan == s.write.value.plan
      && t.write.value.publishes == s.write.value.publishes && t.write.value.since == s.write.value.since
  {
    if Opens(e) {
      HeldWhileOpening(s, e);
    } else if DirectDriveSafety.Settles(e) {
      HeldWhileSettling(s, e);
    }
  }

  lemma HeldWhileOpening(s: State, e: Event)
    requires Inv(s) && s.write.Some? && Opens(e)
    ensures Step(s, e).write == s.write
  {
  }

  lemma HeldWhileSettling(s: State, e: Event)
    requires s.write.Some? && DirectDriveSafety.Settles(e)
    ensures
      var t := Step(s, e);
      && t.write.Some? && t.write.value.plan == s.write.value.plan
      && t.write.value.publishes == s.write.value.publishes && t.write.value.since == s.write.value.since
  {
  }

  lemma ThrewByPlan(s: State, e: Event)
    requires Inv(s) && s.write.Some? && s.answer.None? && Step(s, e).answer == Some(Threw)
    ensures s.write.value.plan.answer == Threw
  {
    if !e.WriteReplies? && !e.WriteTimesOut? {
      OthersAnswerNothing(s, e);
    }
  }

  /** Once its write is issued, a drive is answered by that write's reply or by its timeout. */
  lemma OthersAnswerNothing(s: State, e: Event)
    requires Inv(s) && s.write.Some? && !e.WriteReplies? && !e.WriteTimesOut?
    ensures Step(s, e).answer == s.answer
  {
    if Opens(e) {
      OpeningAnswersNothing(s, e);
    }
  }

  lemma OpeningAnswersNothing(s: State, e: Event)
    requires Inv(s) && s.write.Some? && Opens(e)
    ensures Step(s, e).answer == s.answer
  {
  }

  /** An answer is dated when it is given. */
  lemma AnsweredOnce(s: State, e: Event)
    requires Inv(s)
    ensures
      var t := Step(s, e);
      t.answeredAt == if s.answer.None? && t.answer.Some? then s.now else s.answeredAt
  {
    if Opens(e) {
      DatedOpening(s, e);
    }
  }

  lemma DatedOpening(s: State, e: Event)
    requires Inv(s) && Opens(e)
    ensures
      var t := Step(s, e);
      t.answeredAt == if s.answer.None? && t.answer.Some? then s.now else s.answeredAt
  {
  }

  /** Event `i` of the run took the latch, by its verdict. */
  predicate Won(s0: State, es: seq<Event>, i: nat)
    requires i < |es|
  {
    var u := Run(s0, es[..i]);
    !u.settled && Verdict(u, es[i]).Some? && HeldBy(Run(s0, es), Verdict(u, es[i]).value, u.now)
  }

  lemma {:induction false} RunHolds(s: State, es: seq<Event>, p: Plan, since: nat)
    requires Inv(s) && s.settled && HeldBy(s, p, since)
    ensures HeldBy(Run(s, es), p, since)
    decreases |es|
  {
    if es != [] {
      StepKeepsInv(s, es[0]);
      StepHolds(s, es[0], p, since);
      SettledStep(s, es[0]);
      RunHolds(Step(s, es[0]), es[1..], p, since);
    }
  }

  lemma {:induction false} SomeEventWon(s: State, es: seq<Event>) returns (i: nat)
    requires Inv(s) && !s.settled && Run(s, es).settled
    ensures i < |es| && Won(s, es, i)
    decreases |es|
  {
    var t := Step(s, es[0]);
    StepKeepsInv(s, es[0]);
    LatchGoesToVerdict(s, es[0]);
    if t.settled {
      i := 0;
      RunHolds(t, es[1..], Verdict(s, es[0]).value, s.now);
      assert es[..0] == [];
    } else {
      var j := SomeEventWon(t, es[1..]);
      i := j + 1;
      assert es[..i][1..] == es[1..][..j] && es[..i][0] == es[0];
    }
  }

  /**
    Every answer of a drive has its cause: one event of the run took the latch, and what the client is told,
    if it claims anything, is the verdict of that very event.  The one answer without such an event
    refuses an input that is not JSON.
  */
  lemma AnswerHasItsCause(b: Budgets, attempt: nat, entry: Entry, es: seq<Event>)
    ensures
      var s0 := Init(b, attempt, entry);
      var s := Run(s0, es);
      s.settled && Claims(s) ==>
        RefusedAtOnce(s, entry) || exists i: nat :: Caused(s0, es, i)
  {
    var s0 := Init(b, attempt, entry);
    InitInv(b, attempt, entry);
    RunKeepsInv(s0, es);
    if s0.settled {
      RunHolds(s0, es, DID_NOT_RUN, 0);
      if Claims(Run(s0, es)) {
        HeldAnswer(Run(s0, es), DID_NOT_RUN, 0);
      }
    } else if Run(s0, es).settled {
      var i := SomeEventWon(s0, es);
      var u := Run(s0, es[..i]);
      if Claims(Run(s0, es)) {
        HeldAnswer(Run(s0, es), Verdict(u, es[i]).value, u.now);
        assert Caused(s0, es, i);
      }
    }
  }

  predicate Claims(s: State) { s.answer.Some? && !s.answer.value.Unknown() }

  /** What is answered at the end is what event `i` called for where it happened. */
  predicate Caused(s0: State, es: seq<Event>, i: nat) {
    i < |es| && Won(s0, es, i) && Run(s0, es).answer == Some(Verdict(Run(s0, es[..i]), es[i]).value.answer)
  }

  lemma HeldAnswer(s: State, p: Plan, since: nat)
    requires Inv(s) && s.settled && HeldBy(s, p, since) && Claims(s)
    ensures s.answer == Some(p.answer)
  {
  }

  /** Event `i` is a result of the call, of that size, that came while the call was out. */
  predicate Returned(s0: State, es: seq<Event>, i: nat, bytes: nat) {
    && i < |es| && es[i].InvokeReturned? && es[i].bytes == bytes && es[i].serializable
    && Run(s0, es[..i]).cell == Dispatched && Run(s0, es[..i]).pc == Invoking
  }

  /** The value a client is told is the one its call returned, within the limit; past it the client is told so. */
  lemma CompletedIsReturned(b: Budgets, attempt: nat, entry: Entry, es: seq<Event>)
    ensures
      var s0 := Init(b, attempt, entry);
      var s := Run(s0, es);
      s.answer.Some? && (s.answer.value.Completed? || s.answer.value.TooLarge?) ==>
        && s.write.Some?
        && exists i: nat, bytes: nat :: Returned(s0, es, i, bytes) &&
             if s.answer.value.TooLarge? then bytes > b.resultBytesMax && s.write.value.plan.settle == SettleDiscarded
             else
               && bytes <= b.resultBytesMax && s.answer == Some(Completed(es[i].value))
               && s.write.value.plan.settle == if entry.Resume? then SettleRetained(es[i].value) else SettleDelivered
  {
    var s0 := Init(b, attempt, entry);
    var s := Run(s0, es);
    InitInv(b, attempt, entry);
    RunKeepsInv(s0, es);
    if s.answer.Some? && (s.answer.value.Completed? || s.answer.value.TooLarge?) {
      AnswerHasItsCause(b, attempt, entry, es);
      var i: nat :| Caused(s0, es, i);
      assert Run(s0, es[..i]).ctx == s0.ctx;
      assert Returned(s0, es, i, es[i].bytes);
    }
  }

  // ------------------------------------------------------------------- from the cause to the answer

  /** The settle write lands and its reply arrives. */
  const CONFIRMED := [WriteLands, WriteReplies(false)]

  lemma RunTwo(s: State, a: Event, b: Event)
    ensures Run(s, [a, b]) == Step(Step(s, a), b)
  {
    assert [a, b][1..] == [b];
    assert Run(Step(s, a), [b]) == Run(Step(Step(s, a), b), [b][1..]) && [b][1..] == [];
  }

  lemma WriteConfirmed(t: State, w: Write)
    requires t.write == Some(w) && w.publishes && w.landed.None? && w.reply.None? && !w.decided && t.answer.None?
    requires t.row == Running(t.ctx.attempt)
    ensures
      var u := Step(Step(t, WriteLands), WriteReplies(false));
      u.answer == Some(w.plan.answer) && u.row == Settled(w.plan.settle) && u.answeredAt == t.now
  {
  }

  /**
    Wherever an event has a verdict while the latch is free, the client is told that verdict: at once
    while no row exists, and as soon as the write lands and is confirmed on a row still its own.
  */
  lemma VerdictIsAnswered(s: State, e: Event)
    requires Inv(s) && !s.settled && Verdict(s, e).Some?
    ensures
      var p, t := Verdict(s, e).value, Step(s, e);
      var u := Run(t, CONFIRMED);
      && (!t.persisted ==> t.answer == Some(p.answer))
      && (t.persisted && t.row.Running? ==> u.answer == Some(p.answer) && u.row == Settled(p.settle))
  {
    var t := Step(s, e);
    LatchGoesToVerdict(s, e);
    StepKeepsInv(s, e);
    if t.persisted && t.row.Running? {
      RunTwo(t, WriteLands, WriteReplies(false));
      WriteConfirmed(t, t.write.value);
    }
  }

  /** What an unconfirmed write is answered with: the fault itself if it was one, else that nothing is known. */
  function Unconfirmed(p: Plan, unknown: Answer): Option<Answer> { Some(if p.answer.Threw? then Threw else unknown) }

  predicate AwaitsReply(s: State) { s.write.Some? && s.write.value.publishes && !s.write.value.decided }

  /** And a write that is rejected is answered as unknown, whether or not it landed. */
  lemma RejectedIsUnknown(s: State)
    requires Inv(s) && AwaitsReply(s)
    ensures Step(s, WriteReplies(true)).answer == Unconfirmed(s.write.value.plan, UnknownFailed)
  {
    Undecided(s);
    assert Step(s, WriteReplies(true)) == OnReply(s, true);
  }

  /** So is one whose time is up. */
  lemma LateIsUnknown(s: State)
    requires Inv(s) && AwaitsReply(s) && s.now >= s.write.value.since + s.ctx.budgets.settleWrite
    ensures Step(s, WriteTimesOut).answer == Unconfirmed(s.write.value.plan, UnknownTimeout)
  {
    Undecided(s);
    assert Step(s, WriteTimesOut) == OnWriteTimeout(s);
  }

  /** And one that finds the row no longer its own. */
  lemma TakenIsUnknown(s: State)
    requires Inv(s) && AwaitsReply(s) && s.row == Taken
    ensures Run(s, CONFIRMED).answer == Unconfirmed(s.write.value.plan, UnknownFailed)
  {
    Undecided(s);
    RunTwo(s, WriteLands, WriteReplies(false));
    TakenReplyIsUnknown(s);
  }

  lemma TakenReplyIsUnknown(s: State)
    requires AwaitsReply(s) && s.row == Taken && s.answer.None? && s.write.value.reply.None?
    requires s.write.value.landed.Some? ==> !s.write.value.landed.value
    ensures Step(Step(s, WriteLands), WriteReplies(false)).answer == Unconfirmed(s.write.value.plan, UnknownFailed)
  {
    var t := OnLands(s);
    assert Step(s, WriteLands) == t && t.write.value.landed == Some(false);
  }

  lemma Undecided(s: State)
    requires Inv(s) && AwaitsReply(s)
    ensures s.answer.None? && s.write.value.reply.None?
    ensures s.row == Taken && s.write.value.landed.Some? ==> !s.write.value.landed.value
  {
  }

  // ------------------------------------------------------------------- every answer can be reached

  const GUARD := [GetRow, ClaimCallId, GetTool, GetGeneration, CheckScope, GetPolicy]

  /** How many of its guard reads a resume has behind it. */
  function Passed(pc: Pc): nat {
    match pc
    case Guarding(read) =>
      (match read
       case GetRow => 0
       case ClaimCallId => 1
       case GetTool => 2
       case GetGeneration => 3
       case CheckScope => 4
       case GetPolicy => 5)
    case Invoking => 6
    case _ => 0
  }

  function Passes(es: seq<Event>): nat {
    if es == [] then 0 else (if es[0].GuardPass? then 1 else 0) + Passes(es[1..])
  }

  lemma StepPasses(s: State, e: Event)
    requires Inv(s) && s.ctx.resumed
    ensures Passed(Step(s, e).pc) <= Passed(s.pc) + if e.GuardPass? then 1 else 0
  {
    if DirectDriveSafety.Settles(e) {
      SettlingKeepsPc(s, e);
    }
  }

  lemma {:induction false} RunPasses(s: State, es: seq<Event>)
    requires Inv(s) && s.ctx.resumed
    ensures Passed(Run(s, es).pc) <= Passed(s.pc) + Passes(es)
    decreases |es|
  {
    if es != [] {
      StepPasses(s, es[0]);
      StepKeepsInv(s, es[0]);
      RunPasses(Step(s, es[0]), es[1..]);
    }
  }

  /** No guard read is skipped: a resume invokes its call only after all six have passed. */
  lemma NoReadSkipped(b: Budgets, attempt: nat, es: seq<Event>)
    ensures Run(Init(b, attempt, Resume), es).pc == Invoking ==> Passes(es) >= |GUARD|
  {
    InitInv(b, attempt, Resume);
    RunPasses(Init(b, attempt, Resume), es);
  }

  function PassAll(n: nat): seq<Event> { if n == 0 then [] else PassAll(n - 1) + [GuardPass(true, true)] }

  lemma RunOneMore(s: State, es: seq<Event>, e: Event)
    ensures Run(s, es + [e]) == Step(Run(s, es), e)
  {
    RunAppend(s, es, [e]);
    assert [e][1..] == [];
  }

  /** And the reads come in the order of the guard, each once. */
  lemma {:induction false} GuardRunsThrough(b: Budgets, attempt: nat, n: nat)
    requires n <= |GUARD|
    ensures
      var s := Run(Init(b, attempt, Resume), [KindReply(KindDirect)] + PassAll(n));
      && s.pc == (if n < |GUARD| then Guarding(GUARD[n]) else Invoking)
      && !s.settled && s.row == Running(attempt) && s.now == 0 && s.timerOn && s.due == b.drive
      && s.cell == NoDispatch && s.persisted && s.answer.None?
    decreases n
  {
    var s0 := Init(b, attempt, Resume);
    if n == 0 {
      assert [KindReply(KindDirect)] + PassAll(0) == [] + [KindReply(KindDirect)];
      RunOneMore(s0, [], KindReply(KindDirect));
    } else {
      GuardRunsThrough(b, attempt, n - 1);
      var before := [KindReply(KindDirect)] + PassAll(n - 1);
      assert [KindReply(KindDirect)] + PassAll(n) == before + [GuardPass(true, true)];
      RunOneMore(s0, before, GuardPass(true, true));
    }
  }

  /** A start whose row is created, and prepared, stands before its call. */
  lemma StartRunsThrough(b: Budgets, attempt: nat)
    ensures
      var s := Run(Init(b, attempt, Start(true)), [CreateLands, CreateOk(true)]);
      && s.pc == Invoking && !s.settled && s.row == Running(attempt) && s.now == 0 && s.timerOn && s.due == b.drive
      && s.cell == NoDispatch && s.persisted && s.answer.None?
  {
    RunTwo(Init(b, attempt, Start(true)), CreateLands, CreateOk(true));
  }

  /** The call goes out, comes back with this, and the store confirms. */
  function Answered(remaining: int, value: nat, bytes: nat): seq<Event> {
    [Dispatch(remaining), InvokeReturned(value, bytes, true)] + CONFIRMED
  }

  lemma CallAnswered(s: State, remaining: int, value: nat, bytes: nat)
    requires Inv(s) && s.pc == Invoking && !s.settled && s.persisted && s.row == Running(s.ctx.attempt)
    requires remaining > 0
    ensures
      var u, p := Run(s, Answered(remaining, value, bytes)), ReturnVerdict(s.ctx, value, bytes, true);
      u.answer == Some(p.answer) && u.row == Settled(p.settle)
  {
    var e1, e2 := Dispatch(remaining), InvokeReturned(value, bytes, true);
    RunAppend(s, [e1, e2], CONFIRMED);
    RunTwo(s, e1, e2);
    var s1 := Step(s, e1);
    StepKeepsInv(s, e1);
    LatchGoesToVerdict(s1, e2);
    OutIsDispatched(s, remaining);
    VerdictIsAnswered(s1, e2);
    ReturnLeavesRow(s1, value, bytes);
  }

  lemma OutIsDispatched(s: State, remaining: int)
    requires s.pc == Invoking && !s.settled && remaining > 0
    ensures
      var t := Step(s, Dispatch(remaining));
      t.cell == Dispatched && t.pc == s.pc && !t.settled && t.row == s.row && t.persisted == s.persisted
  {
  }

  lemma ReturnLeavesRow(s: State, value: nat, bytes: nat)
    requires s.pc == Invoking
    ensures
      var t := Step(s, InvokeReturned(value, bytes, true));
      t.row == s.row && t.persisted == s.persisted
  {
  }

  /** A start, from the first event to the answer: its client is told what the call returned. */
  lemma StartIsAnswered(b: Budgets, attempt: nat, remaining: int, value: nat, bytes: nat)
    requires remaining > 0
    ensures
      var u := Run(Init(b, attempt, Start(true)), [CreateLands, CreateOk(true)] + Answered(remaining, value, bytes));
      if bytes > b.resultBytesMax then u.answer == Some(TooLarge) && u.row == Settled(SettleDiscarded)
      else u.answer == Some(Completed(value)) && u.row == Settled(SettleDelivered)
  {
    var s0 := Init(b, attempt, Start(true));
    InitInv(b, attempt, Start(true));
    RunKeepsInv(s0, [CreateLands, CreateOk(true)]);
    StartRunsThrough(b, attempt);
    CallAnswered(Run(s0, [CreateLands, CreateOk(true)]), remaining, value, bytes);
    RunAppend(s0, [CreateLands, CreateOk(true)], Answered(remaining, value, bytes));
  }

  /** A resume of a direct row, through its whole guard. */
  lemma ResumeIsAnswered(b: Budgets, attempt: nat, remaining: int, value: nat, bytes: nat)
    requires remaining > 0
    ensures
      var guard := [KindReply(KindDirect)] + PassAll(|GUARD|);
      var u := Run(Init(b, attempt, Resume), guard + Answered(remaining, value, bytes));
      if bytes > b.resultBytesMax then u.answer == Some(TooLarge) && u.row == Settled(SettleDiscarded)
      else u.answer == Some(Completed(value)) && u.row == Settled(SettleRetained(value))
  {
    var s0, guard := Init(b, attempt, Resume), [KindReply(KindDirect)] + PassAll(|GUARD|);
    InitInv(b, attempt, Resume);
    RunKeepsInv(s0, guard);
    GuardRunsThrough(b, attempt, |GUARD|);
    CallAnswered(Run(s0, guard), remaining, value, bytes);
    RunAppend(s0, guard, Answered(remaining, value, bytes));
  }

  /** A start whose call policy refuses pauses, and its row waits under that call. */
  lemma DeniedStartPauses(b: Budgets, attempt: nat, callId: nat)
    ensures
      var denied := [InvokeDenied, GenerationReply(Present(callId))];
      var u := Run(Init(b, attempt, Start(true)), [CreateLands, CreateOk(true)] + denied + CONFIRMED);
      u.answer == Some(Paused(callId)) && u.row == Settled(SettlePaused(callId))
  {
    var s0, made := Init(b, attempt, Start(true)), [CreateLands, CreateOk(true)];
    var denied := [InvokeDenied, GenerationReply(Present(callId))];
    InitInv(b, attempt, Start(true));
    RunKeepsInv(s0, made);
    StartRunsThrough(b, attempt);
    var s := Run(s0, made);
    RunTwo(s, InvokeDenied, GenerationReply(Present(callId)));
    StepKeepsInv(s, InvokeDenied);
    var s1 := Step(s, InvokeDenied);
    assert s1.pc == ReadingGeneration && s1.row == s.row && !s1.settled && s1.persisted;
    VerdictIsAnswered(s1, GenerationReply(Present(callId)));
    RunAppend(s0, made, denied);
    RunAppend(s0, made + denied, CONFIRMED);
  }

  /** A start whose row cannot be created is answered at once: somebody else's row, or a call that did not run. */
  lemma RejectedStartIsAnswered(b: Budgets, attempt: nat, found: bool)
    ensures
      var u := Run(Init(b, attempt, Start(true)), [CreateRejected, ConflictReply(found)]);
      u.answer == Some(if found then Conflict else Failed(NotDispatched)) && u.answeredAt == 0 && u.row == NoRow
  {
    RunTwo(Init(b, attempt, Start(true)), CreateRejected, ConflictReply(found));
  }

  /** A start whose budget runs out before its row is there is answered then, and a row that still comes is ended. */
  lemma ExpiredCreateIsSettled(s: State, prepared: bool)
    requires Inv(s) && s.pc == Creating && !s.settled && s.now >= s.due && s.row == NoRow
    ensures
      var t := Run(s, [TimerFires, CreateLands, CreateOk(prepared)]);
      && t.answer == Some(Failed(Interrupted)) && t.answeredAt == s.now
      && Step(t, WriteLands).row == Settled(SettleFailed(Interrupted))
  {
    RunThree(s, TimerFires, CreateLands, CreateOk(prepared));
    ExpiresFirst(s);
    LateCreateIsEnded(Step(s, TimerFires), prepared);
  }

  lemma ExpiresFirst(s: State)
    requires Inv(s) && s.pc == Creating && !s.settled && s.now >= s.due && s.row == NoRow
    ensures
      var t := Step(s, TimerFires);
      && t.settled && t.answer == Some(Failed(Interrupted)) && t.answeredAt == s.now
      && t.pc == Creating && t.row == NoRow && t.write.None?
  {
    assert Step(s, TimerFires) == OnTimer(s);
  }

  lemma LateCreateIsEnded(s: State, prepared: bool)
    requires s.settled && s.pc == Creating && s.row == NoRow && s.write.None?
    ensures
      var t := Step(Step(s, CreateLands), CreateOk(prepared));
      && t.answer == s.answer && t.answeredAt == s.answeredAt
      && Step(t, WriteLands).row == Settled(SettleFailed(Interrupted))
  {
    var t := s.(row := Running(s.ctx.attempt));
    assert Step(s, CreateLands) == t && Step(t, CreateOk(prepared)) == OnCreateOk(t, prepared);
  }

  /** Refused before anything was written: the continuation only has to stop. */
  predicate RefusedUnwritten(s: State) {
    && s.settled && (s.pc == Closing || s.pc == Finished) && s.row == NoRow && s.cell == NoDispatch
    && s.write.None? && s.rowWrite.None? && s.answer == Some(Failed(NotDispatched))
  }

  lemma {:induction false} RefusalStays(s: State, es: seq<Event>)
    requires RefusedUnwritten(s)
    ensures RefusedUnwritten(Run(s, es))
    decreases |es|
  {
    if es != [] {
      RefusalStays(Step(s, es[0]), es[1..]);
    }
  }

  /** An input that is not JSON is refused before anything happens: no run creates a row or sends a call for it. */
  lemma NonJsonIsRefused(b: Budgets, attempt: nat, es: seq<Event>)
    ensures
      var s := Run(Init(b, attempt, Start(false)), es);
      s.answer == Some(Failed(NotDispatched)) && s.row == NoRow && s.cell == NoDispatch && s.issued == 0
  {
    InitInv(b, attempt, Start(false));
    RunKeepsInv(Init(b, attempt, Start(false)), es);
    RefusalStays(Init(b, attempt, Start(false)), es);
  }

  /** A kind lookup whose time is up is answered as unknown, and the row it leaves behind is failed. */
  lemma SilentLookupIsGivenUp(s: State)
    requires Inv(s) && s.pc == KindRead && s.now >= s.ctx.budgets.drive && s.row.Running?
    ensures
      var t := Run(s, [KindTimesOut, CodeWriteLands, KindFailEnds]);
      t.answer == Some(UnknownTimeout) && t.row == Settled(SettleFailed(NotDispatched))
  {
    RunThree(s, KindTimesOut, CodeWriteLands, KindFailEnds);
  }

  /** Without a drive: a refusal and an expiry are told once their own write is carried out, a fault is thrown. */
  lemma DrivelessIsAnswered(s: State, end: GuardEnd)
    requires Inv(s) && s.pc == CodeGuard && s.row.Running?
    ensures
      var t := Run(s, [CodeGuardEnds(end), CodeWriteLands, CodeWriteEnds(true)]);
      && t.answer == Some(match end
                          case Refused => Failed(NotDispatched)
                          case PastTtl => Expired
                          case Faulted => Threw)
      && t.row == Settled(if end == PastTtl then SettleExpired else SettleFailed(NotDispatched))
  {
    RunThree(s, CodeGuardEnds(end), CodeWriteLands, CodeWriteEnds(true));
    var t := OnRowLands(OnCodeGuardEnds(s, end));
    assert t.rowWrite.value.landed == Some(true) && t.row.Settled?;
  }

  /** And an expiry whose put is rejected is failed instead, by the same budget, and ends as a fault. */
  lemma RejectedExpiryThrows(s: State)
    requires Inv(s) && s.pc == CodeGuard && s.row.Running?
    ensures
      var rejected := Run(s, [CodeGuardEnds(PastTtl), CodeWriteEnds(false), CodeWriteLands]);
      var t := Run(rejected, [CodeWriteEnds(true), CodeWriteLands, CodeWriteEnds(true)]);
      && rejected.row == Settled(SettleFailed(NotDispatched)) && rejected.answer.None?
      && t.answer == Some(Threw) && t.row == rejected.row
  {
    RunThree(s, CodeGuardEnds(PastTtl), CodeWriteEnds(false), CodeWriteLands);
    ExpiryRejected(s);
    var rejected := Run(s, [CodeGuardEnds(PastTtl), CodeWriteEnds(false), CodeWriteLands]);
    RunThree(rejected, CodeWriteEnds(true), CodeWriteLands, CodeWriteEnds(true));
    FallbackEnds(rejected);
  }

  lemma ExpiryRejected(s: State)
    requires Inv(s) && s.pc == CodeGuard && s.row.Running?
    ensures
      var t := Step(Step(Step(s, CodeGuardEnds(PastTtl)), CodeWriteEnds(false)), CodeWriteLands);
      && t.row == Settled(SettleFailed(NotDispatched)) && t.answer.None? && t.pc.CodeFailing? && t.pc.end == PastTtl
      && t.rowWrite == Some(RowWrite(FailedPut, Some(true), false))
  {
    var t := OnCodeGuardEnds(s, PastTtl);
    assert OnCodeWriteEnds(t, false) == IssueRow(t, FailedPut);
  }

  lemma FallbackEnds(s: State)
    requires s.rowWrite == Some(RowWrite(FailedPut, Some(true), false)) && s.answer.None? && s.row.Settled?
    requires s.pc.CodeFailing? && s.pc.end == PastTtl
    ensures
      var t := Step(Step(Step(s, CodeWriteEnds(true)), CodeWriteLands), CodeWriteEnds(true));
      t.answer == Some(Threw) && t.row == s.row
  {
    var t := OnCodeWriteEnds(s, true);
    assert t.rowWrite == Some(RowWrite(FailRunning, None, false)) && t.pc == CodeFailing(s.now, Faulted);
    assert OnRowLands(t).rowWrite == Some(RowWrite(FailRunning, Some(false), false));
  }

  /**
    A row without a drive whose write the store does not answer in time: the client is told it is unknown,
    unless the resume ends as a fault anyway; the write stays what it is.
  */
  lemma SilentWriteIsGivenUp(s: State)
    requires Inv(s) && s.pc.CodeFailing? && s.now >= s.pc.since + s.ctx.budgets.settleWrite
    ensures
      var t := Step(s, CodeWriteTimesOut);
      && t.answer == Some(if s.pc.end == Faulted then Threw else UnknownTimeout) && t.answeredAt == s.now
      && t.row == s.row && t.rowWrite == s.rowWrite && t.pc == Closing
  {
    assert Step(s, CodeWriteTimesOut) == OnCodeWriteTimesOut(s);
  }

  /** A guard read that lost to the expiry does nothing: it waits for the outcome the expiry has settled. */
  lemma LostGuardDefers(s: State, parsed: bool, prepared: bool, exit: GuardEnd)
    requires Inv(s) && s.pc.Guarding? && s.settled
    ensures Step(s, GuardPass(parsed, prepared)) == s.(pc := AwaitingExpiry)
    ensures Step(s, GuardExit(exit)) == s.(pc := AwaitingExpiry) || Step(s, GuardExit(exit)) == s
    ensures s.write.Some? || s.answer.Some?
  {
    assert Step(s, GuardPass(parsed, prepared)) == OnGuardPass(s, parsed, prepared);
    assert Step(s, GuardExit(exit)) == OnGuardExit(s, exit);
  }

  /** Once the continuation and its write have stopped, the drive is over and its slot is free. */
  lemma FinishReleases(s: State)
    requires Inv(s) && s.pc == Closing && (s.write.Some? ==> s.write.value.reply.Some?)
    ensures
      var t := Step(s, Finish);
      t.pc == Finished && !t.timerOn && t.retention == Some(if s.retention.Some? then s.retention.value else Released)
  {
    assert Step(s, Finish) == OnFinish(s);
  }

  // ------------------------------------------------------------------- no timer is early

  /** Whoever waits, waits for all of its budget. */
  predicate Armed(s: State) {
    && (s.timerOn ==> s.due >= s.ctx.budgets.drive && (!s.ctx.resumed ==> s.due == s.ctx.budgets.drive))
    && (s.pc.KindRead? ==> s.ctx.resumed)
    && (s.pc.KindFailing? ==> s.now >= s.ctx.budgets.drive)
  }

  predicate Interrupts(s: State) {
    (s.write.Some? && s.write.value.plan.answer == Failed(Interrupted)) || s.answer == Some(Failed(Interrupted))
  }

  predicate InterruptedLate(s: State) { Interrupts(s) ==> s.now >= s.ctx.budgets.drive }

  predicate GivenUpLate(s: State) {
    && (s.answer == Some(UnknownTimeout) ==>
          if s.write.Some? then s.now >= s.write.value.since + s.ctx.budgets.settleWrite
          else s.now >= s.ctx.budgets.drive || s.now >= s.ctx.budgets.settleWrite)
    && (s.retention == Some(Abandoned) ==> s.answer.Some? && s.now >= s.answeredAt + s.ctx.budgets.slotRetention)
  }

  predicate Unhurried(s: State) { Armed(s) && InterruptedLate(s) && GivenUpLate(s) }

  lemma StepStaysArmed(s: State, e: Event)
    requires Armed(s)
    ensures Armed(Step(s, e)) && Step(s, e).now >= s.now
  {
    if Opens(e) {
      OpeningStaysArmed(s, e);
    } else if DirectDriveSafety.Settles(e) {
      SettlingStaysArmed(s, e);
    }
  }

  lemma OpeningStaysArmed(s: State, e: Event)
    requires Armed(s) && Opens(e)
    ensures Armed(Step(s, e)) && Step(s, e).now >= s.now
  {
    if Guards(e) {
      GuardStaysArmed(s, e);
    }
  }

  predicate Guards(e: Event) {
    e.GuardPass? || e.GuardExit? || e.CodeWriteLands? || e.CodeWriteEnds? || e.CodeWriteTimesOut?
  }

  lemma GuardStaysArmed(s: State, e: Event)
    requires Guards(e)
    ensures
      var t := Step(s, e);
      && (t.timerOn ==> s.timerOn && t.due == s.due) && t.now == s.now
      && (t.pc == s.pc || (!t.pc.KindRead? && !t.pc.KindFailing?))
  {
    if e.GuardPass? || e.GuardExit? {
      PassStaysArmed(s, e);
    }
  }

  lemma PassStaysArmed(s: State, e: Event)
    requires e.GuardPass? || e.GuardExit?
    ensures
      var t := Step(s, e);
      && (t.timerOn ==> s.timerOn) && t.due == s.due && t.now == s.now
      && (t.pc == s.pc || (!t.pc.KindRead? && !t.pc.KindFailing?))
  {
  }

  lemma SettlingStaysArmed(s: State, e: Event)
    requires Armed(s) && DirectDriveSafety.Settles(e)
    ensures Armed(Step(s, e)) && Step(s, e).now >= s.now
  {
  }

  lemma StepInterruptsLate(s: State, e: Event)
    requires Inv(s) && Armed(s) && InterruptedLate(s)
    ensures InterruptedLate(Step(s, e))
  {
    StepStaysArmed(s, e);
    if Interrupts(s) || e.TimerFires? {
    } else if s.settled {
      NeverInterruptsAgain(s, e);
    } else {
      LatchGoesToVerdict(s, e);
      OnlyTimerInterrupts(s, e);
    }
  }

  lemma NeverInterruptsAgain(s: State, e: Event)
    requires Inv(s) && !Interrupts(s) && s.settled
    ensures !Interrupts(Step(s, e))
  {
    if s.write.Some? {
      HeldWrite(s, e);
      StepKeepsInv(s, e);
    } else {
      StepKeepsAnswer(s, e);
      NoLateWrite(s, e);
    }
  }

  /** A latch taken without a write was answered at once, and only an interrupted start writes after that. */
  lemma NoLateWrite(s: State, e: Event)
    requires Inv(s) && s.settled && s.write.None? && !Interrupts(s)
    ensures Step(s, e).write.None?
  {
  }

  lemma OnlyTimerInterrupts(s: State, e: Event)
    requires Inv(s) && !s.settled && !e.TimerFires? && !Interrupts(s)
    ensures !Interrupts(Step(s, e))
  {
    LatchGoesToVerdict(s, e);
    StepKeepsInv(s, e);
    if Verdict(s, e).None? {
      DrivelessNeverInterrupts(s, e);
      UnsettledWritesNothing(Step(s, e));
    } else {
      OnlyTimerVerdictInterrupts(s, e);
      TakesWhatItSays(s, Step(s, e), Verdict(s, e).value);
    }
  }

  lemma UnsettledWritesNothing(t: State)
    requires Inv(t) && !t.settled
    ensures t.write.None?
  {
  }

  lemma OnlyTimerVerdictInterrupts(s: State, e: Event)
    requires !e.TimerFires? && Verdict(s, e).Some?
    ensures Verdict(s, e).value.answer != Failed(Interrupted)
  {
  }

  lemma TakesWhatItSays(s: State, t: State, p: Plan)
    requires Takes(s, t, p) && p.answer != Failed(Interrupted)
    ensures !Interrupts(t)
  {
  }

  lemma DrivelessNeverInterrupts(s: State, e: Event)
    requires Inv(s) && !s.settled && !Interrupts(s) && !e.TimerFires? && !Step(s, e).settled
    ensures Step(s, e).answer != Some(Failed(Interrupted))
  {
  }

  /** The events that give up waiting. */
  predicate GivesUp(e: Event) { e.WriteTimesOut? || e.RetentionFires? || e.KindFailEnds? || e.CodeWriteTimesOut? }

  lemma OthersGiveNothingUp(s: State, e: Event)
    requires !GivesUp(e) && (s.write.Some? ==> !s.write.value.plan.answer.UnknownTimeout?)
    ensures
      var t := Step(s, e);
      && (t.answer == Some(UnknownTimeout) ==> s.answer == Some(UnknownTimeout))
      && (t.retention == Some(Abandoned) ==> s.retention == Some(Abandoned))
  {
    if Opens(e) {
      OpeningGivesNothingUp(s, e);
    } else if DirectDriveSafety.Settles(e) {
      SettlingGivesNothingUp(s, e);
    }
  }

  lemma OpeningGivesNothingUp(s: State, e: Event)
    requires !GivesUp(e) && Opens(e)
    ensures
      var t := Step(s, e);
      (t.answer == Some(UnknownTimeout) ==> s.answer == Some(UnknownTimeout)) && t.retention == s.retention
  {
    if Guards(e) {
      GuardGivesNothingUp(s, e);
    }
  }

  lemma GuardGivesNothingUp(s: State, e: Event)
    requires !GivesUp(e) && Guards(e)
    ensures
      var t := Step(s, e);
      (t.answer == Some(UnknownTimeout) ==> s.answer == Some(UnknownTimeout)) && t.retention == s.retention
  {
    if e.GuardPass? || e.GuardExit? {
      PassGivesNothingUp(s, e);
    }
  }

  lemma PassGivesNothingUp(s: State, e: Event)
    requires e.GuardPass? || e.GuardExit?
    ensures
      var t := Step(s, e);
      (t.answer == Some(UnknownTimeout) ==> s.answer == Some(UnknownTimeout)) && t.retention == s.retention
  {
  }

  lemma SettlingGivesNothingUp(s: State, e: Event)
    requires !GivesUp(e) && DirectDriveSafety.Settles(e)
    requires s.write.Some? ==> !s.write.value.plan.answer.UnknownTimeout?
    ensures
      var t := Step(s, e);
      && (t.answer == Some(UnknownTimeout) ==> s.answer == Some(UnknownTimeout))
      && (t.retention == Some(Abandoned) ==> s.retention == Some(Abandoned))
  {
  }

  lemma GivingUpIsLate(s: State, e: Event)
    requires Inv(s) && Armed(s) && GivenUpLate(s) && GivesUp(e)
    ensures GivenUpLate(Step(s, e))
  {
  }

  lemma StepGivesUpLate(s: State, e: Event)
    requires Inv(s) && Armed(s) && GivenUpLate(s)
    ensures GivenUpLate(Step(s, e))
  {
    if GivesUp(e) {
      GivingUpIsLate(s, e);
    } else {
      OthersGiveNothingUp(s, e);
      if s.answer.Some? {
        GivenUpStays(s, e);
      }
    }
  }

  /** What has been given up stays so, and time only goes on. */
  lemma GivenUpStays(s: State, e: Event)
    requires Inv(s) && Armed(s) && GivenUpLate(s) && s.answer.Some? && !GivesUp(e)
    ensures GivenUpLate(Step(s, e))
  {
    StepStaysArmed(s, e);
    StepKeepsAnswer(s, e);
    AnsweredOnce(s, e);
    OthersGiveNothingUp(s, e);
    if s.write.Some? {
      HeldWrite(s, e);
    } else if s.answer == Some(UnknownTimeout) {
      TimedOutWritesNothing(s, e);
    }
  }

  lemma TimedOutWritesNothing(s: State, e: Event)
    requires Inv(s) && s.answer == Some(UnknownTimeout) && s.write.None?
    ensures Step(s, e).write.None?
  {
  }

  lemma {:induction false} RunUnhurried(s: State, es: seq<Event>)
    requires Inv(s) && Unhurried(s)
    ensures Unhurried(Run(s, es))
    decreases |es|
  {
    if es != [] {
      StepKeepsInv(s, es[0]);
      StepStaysArmed(s, es[0]);
      StepInterruptsLate(s, es[0]);
      StepGivesUpLate(s, es[0]);
      RunUnhurried(Step(s, es[0]), es[1..]);
    }
  }

  /**
    No timer is early, in any run: the budget is called elapsed only once it is, a write is given up only
    after its whole time, a lookup or a row's own write only after one of the two budgets, and a slot is
    let go behind an unfinished continuation only after the retention.
  */
  lemma NothingGivenUpEarly(b: Budgets, attempt: nat, entry: Entry, es: seq<Event>)
    ensures
      var s := Run(Init(b, attempt, entry), es);
      && (s.answer == Some(Failed(Interrupted)) ==> s.now >= b.drive)
      && (s.answer == Some(UnknownTimeout) ==>
            if s.write.Some? then s.now >= s.write.value.since + b.settleWrite
            else s.now >= b.drive || s.now >= b.settleWrite)
      && (s.retention == Some(Abandoned) ==> s.now >= s.answeredAt + b.slotRetention)
  {
    InitInv(b, attempt, entry);
    RunUnhurried(Init(b, attempt, entry), es);
  }
}
