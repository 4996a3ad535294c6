/** What every run of the direct-execution latch protocol keeps, and what follows for its answers. */
module DirectDriveSafety {
  import opened Wrappers
  import opened DispatchCells
  import opened DirectDrive

  // ------------------------------------------------------------------------- the invariant

  /** The latch, the write and the promise are each spent at most once. */
  predicate Counted(s: State) {
    && s.wins == (if s.settled then 1 else 0)
    && s.issued == (if s.write.Some? then 1 else 0)
    && s.resolves == (if s.answer.Some? then 1 else 0)
  }

  /** Waits that end in a settle: until the latch is taken the timer guards them. */
  predicate Guarded(pc: Pc) {
    pc.Creating? || pc.ConflictLookup? || pc.Guarding? || pc.Invoking? || pc.ReadingGeneration?
  }

  /** Waits of a resume that has no drive. */
  predicate Driveless(pc: Pc) {
    pc.KindRead? || pc.KindFailing? || pc.CodeGuard? || pc.CodeFailing?
  }

  predicate Phases(s: State) {
    && (s.ctx.resumed ==> s.persisted && !s.pc.Creating? && !s.pc.ConflictLookup? && !s.pc.ReadingGeneration?)
    && (!s.ctx.resumed ==> !Driveless(s.pc) && !s.pc.Guarding? && !s.pc.AwaitingExpiry?)
    && (!s.persisted ==> !s.pc.Invoking? && !s.pc.ReadingGeneration? && s.write.None? && s.cell == NoDispatch)
    && (s.pc.Creating? || s.pc.ConflictLookup? ==> !s.persisted)
    && (s.pc.Guarding? || s.pc.AwaitingExpiry? || Driveless(s.pc) ==> s.cell == NoDispatch)
    && (s.pc.ReadingGeneration? ==> s.cell != Dispatched)
    && (Guarded(s.pc) && !s.settled ==> s.timerOn && s.answer.None?)
    && (Driveless(s.pc) ==> !s.settled && !s.timerOn && s.answer.None?)
    && (s.pc.AwaitingExpiry? ==> s.settled)
    && (s.pc.Closing? || s.pc.Finished? ==> s.settled || (s.ctx.resumed && s.answer.Some? && !s.timerOn))
    && (s.pc.Creating? && s.settled ==> s.answer == Some(Failed(Interrupted)))
  }

  /** Claims that the governed call did not run. */
  predicate DeniesDispatch(a: Answer) {
    (a.Failed? && a.error != OutcomeAmbiguous) || a.Paused? || a.Expired? || a.Conflict? || a.Threw?
  }

  predicate Truthful(a: Answer, cell: DispatchState) {
    && (DeniesDispatch(a) ==> cell != Dispatched)
    && (a.Completed? || a.TooLarge? ==> cell == Dispatched)
  }

  predicate Written(s: State) {
    && (s.settled ==> if s.persisted then s.write.Some? else s.answer.Some?)
    && (s.answer.Some? && s.write.None? ==> s.cell == NoDispatch)
    && (s.answer.Some? ==> Truthful(s.answer.value, s.cell))
    && (s.row.Settled? ==> s.rowWrite.Some? || (s.write.Some? && s.write.value.landed == Some(true)))
    && (s.write.Some? ==>
          var w := s.write.value;
          && s.settled && s.persisted
          && Agrees(w.plan) && Truthful(w.plan.answer, s.cell)
          && (w.publishes ==> (w.decided <==> s.answer.Some?))
          && (!w.publishes ==>
                s.answer == Some(Failed(Interrupted)) && w.plan == FailPlan(Interrupted)
                && !s.ctx.resumed && s.cell == NoDispatch && !s.pc.Invoking?)
          && (w.reply.Some? ==> w.decided)
          && (w.reply == Some(Matched) ==> w.landed == Some(true))
          && (w.landed == Some(true) ==> s.row == Settled(w.plan.settle))
          && (w.publishes && s.answer.Some? && !s.answer.value.Unknown() && !s.answer.value.Threw?
              ==> s.answer == Some(w.plan.answer) && w.reply == Some(Matched)))
  }

  /** The latest moment the drive's timer can be due. */
  function DueBound(s: State): nat {
    if s.ctx.resumed then 2 * s.ctx.budgets.drive else s.ctx.budgets.drive
  }

  predicate Timed(s: State) {
    && (s.timerOn ==> s.now <= s.due <= DueBound(s))
    && (s.write.Some? && s.write.value.publishes && !s.write.value.decided ==>
          s.write.value.since <= DueBound(s) && s.now <= s.write.value.since + s.ctx.budgets.settleWrite)
    && (s.pc.KindRead? ==> s.now <= s.ctx.budgets.drive)
    && (s.pc.KindFailing? ==> s.pc.since <= s.ctx.budgets.drive && s.now <= s.pc.since + s.ctx.budgets.settleWrite)
    && (!s.ctx.resumed && s.answer.Some? ==>
          s.answeredAt <= s.now && s.answeredAt <= s.ctx.budgets.drive + s.ctx.budgets.settleWrite)
    && (!s.ctx.resumed && s.answer.Some? && s.retention.None? ==> s.now <= s.answeredAt + s.ctx.budgets.slotRetention)
    && (s.retention.None? ==> !s.pc.Finished?)
  }

  /** Which of its writes a resume without a drive is waiting for. */
  predicate AtForm(s: State, w: RowWrite) {
    if s.pc.KindFailing? then w.form == FailRunning
    else if s.pc.CodeFailing? then !w.ended && (s.pc.end == PastTtl <==> w.form != FailRunning)
    else s.pc.Closing? || s.pc.Finished?
  }

  /** What the answer of such a resume says about its row. */
  predicate AnsweredBy(s: State, w: RowWrite) {
    if s.answer.None? then s.pc.KindFailing? || s.pc.CodeFailing?
    else if s.answer.value.Expired? then w.form == ExpiredPut && w.landed.Some? && w.ended
    else if s.answer.value.Failed? then
      && s.answer.value.error == NotDispatched && w.form == FailRunning && w.landed.Some? && w.ended
      && (w.landed.value || s.row == Taken)
    else s.answer.value.Unknown() || s.answer.value.Threw?
  }

  /** A row without a drive is ended by its own writes alone, one at a time. */
  predicate Ended(s: State) {
    && (s.persisted ==> s.row != NoRow)
    && (s.row.Running? ==> s.row == Running(s.ctx.attempt))
    && (s.ctx.resumed && !s.settled && (s.pc.Closing? || s.pc.Finished?) ==> s.rowWrite.Some?)
    && (s.pc.KindFailing? || s.pc.CodeFailing? ==> s.rowWrite.Some?)
    && (s.rowWrite.Some? ==>
          var w := s.rowWrite.value;
          && s.ctx.resumed && !s.settled && s.write.None?
          && AtForm(s, w) && AnsweredBy(s, w)
          && (w.landed.Some? ==> if w.landed.value then s.row == Settled(FormSettle(w.form))
                                 else w.form == FailRunning && !s.row.Running?)
          && (s.pc.CodeFailing? && s.pc.end == Refused ==>
                s.row.Settled? ==> w.landed == Some(true)))
  }

  predicate Inv(s: State) { Counted(s) && Phases(s) && Written(s) && Timed(s) && Ended(s) }

  lemma CreateKeepsInv(s: State, prepared: bool)
    requires Inv(s)
    ensures Inv(OnCreateOk(s, prepared))
  {
  }

  lemma ConflictKeepsInv(s: State, found: bool)
    requires Inv(s)
    ensures Inv(OnConflictReply(s, found))
  {
  }

  lemma KindKeepsInv(s: State, kind: KindAnswer)
    requires Inv(s)
    ensures Inv(OnKindReply(s, kind))
  {
  }

  lemma GuardPassKeepsInv(s: State, parsed: bool, prepared: bool)
    requires Inv(s)
    ensures Inv(OnGuardPass(s, parsed, prepared))
  {
  }

  lemma GuardExitKeepsInv(s: State, exit: GuardEnd)
    requires Inv(s)
    ensures Inv(OnGuardExit(s, exit))
  {
  }

  lemma DrivelessKeepsInv(s: State, written: bool)
    requires Inv(s)
    ensures Inv(OnCodeWriteEnds(s, written))
  {
    if s.pc.CodeFailing? {
      CodeWriteKeepsInv(s, written);
    }
  }

  lemma CodeWriteKeepsInv(s: State, written: bool)
    requires Inv(s) && s.pc.CodeFailing?
    ensures Inv(OnCodeWriteEnds(s, written))
  {
  }

  lemma DrivelessTimeoutKeepsInv(s: State)
    requires Inv(s)
    ensures Inv(OnCodeWriteTimesOut(s)) && Inv(OnKindTimesOut(s))
  {
  }

  lemma RowLandsKeepsInv(s: State)
    requires Inv(s)
    ensures Inv(OnRowLands(s))
  {
  }

  lemma ReturnedKeepsInv(s: State, value: nat, bytes: nat, serializable: bool)
    requires Inv(s)
    ensures Inv(OnReturned(s, value, bytes, serializable))
  {
  }

  lemma ThrewKeepsInv(s: State, ambiguous: bool)
    requires Inv(s)
    ensures Inv(OnThrew(s, ambiguous))
  {
  }

  lemma DeniedKeepsInv(s: State)
    requires Inv(s)
    ensures Inv(OnDenied(s))
  {
  }

  lemma GenerationKeepsInv(s: State, g: Generation)
    requires Inv(s)
    ensures Inv(OnGeneration(s, g))
  {
  }

  lemma DispatchKeepsInv(s: State, remaining: int)
    requires Inv(s)
    ensures Inv(OnDispatch(s, remaining))
  {
  }

  lemma TimerKeepsInv(s: State)
    requires Inv(s)
    ensures Inv(OnTimer(s))
  {
  }

  lemma LandsKeepsInv(s: State)
    requires Inv(s)
    ensures Inv(OnLands(s))
  {
  }

  lemma ReplyKeepsInv(s: State, rejected: bool)
    requires Inv(s)
    ensures Inv(OnReply(s, rejected))
  {
  }

  lemma WriteTimeoutKeepsInv(s: State)
    requires Inv(s)
    ensures Inv(OnWriteTimeout(s))
  {
  }

  lemma EndKeepsInv(s: State)
    requires Inv(s)
    ensures Inv(OnFinish(s)) && Inv(OnRetention(s))
  {
  }

  lemma TickKeepsInv(s: State)
    requires Inv(s)
    ensures Inv(Step(s, Tick))
  {
  }

  /** The steps up to the first guard, and the timer. */
  predicate Opens(e: Event) {
    || e.CreateOk? || e.ConflictReply? || e.KindReply? || e.KindTimesOut? || e.GuardPass? || e.GuardExit?
    || e.CodeWriteLands? || e.CodeWriteEnds? || e.CodeWriteTimesOut? || e.GenerationReply? || e.TimerFires?
  }

  lemma OpeningStepKeepsInv(s: State, e: Event)
    requires Inv(s) && Opens(e)
    ensures Inv(Step(s, e))
  {
    if e.CreateOk? {
      CreateKeepsInv(s, e.prepared);
    } else if e.ConflictReply? {
      ConflictKeepsInv(s, e.found);
    } else if e.KindReply? {
      KindKeepsInv(s, e.kind);
    } else if e.GuardPass? {
      GuardPassKeepsInv(s, e.parsed, e.prepared);
    } else if e.GuardExit? {
      GuardExitKeepsInv(s, e.exit);
    } else if e.CodeWriteEnds? {
      DrivelessKeepsInv(s, e.written);
    } else if e.CodeWriteTimesOut? || e.KindTimesOut? {
      DrivelessTimeoutKeepsInv(s);
    } else if e.CodeWriteLands? {
      RowLandsKeepsInv(s);
    } else if e.GenerationReply? {
      GenerationKeepsInv(s, e.generation);
    } else {
      TimerKeepsInv(s);
    }
  }

  predicate Runs(e: Event) { e.Dispatch? || e.InvokeReturned? || e.InvokeThrew? || e.InvokeDenied? }

  predicate Settles(e: Event) {
    e.WriteLands? || e.WriteReplies? || e.WriteTimesOut? || e.Finish? || e.RetentionFires? || e.Tick?
  }

  lemma RunningStepKeepsInv(s: State, e: Event)
    requires Inv(s) && Runs(e)
    ensures Inv(Step(s, e))
  {
    if e.Dispatch? {
      DispatchKeepsInv(s, e.remaining);
    } else if e.InvokeReturned? {
      ReturnedKeepsInv(s, e.value, e.bytes, e.serializable);
    } else if e.InvokeThrew? {
      ThrewKeepsInv(s, e.ambiguous);
    } else {
      DeniedKeepsInv(s);
    }
  }

  lemma SettlingStepKeepsInv(s: State, e: Event)
    requires Inv(s) && Settles(e)
    ensures Inv(Step(s, e))
  {
    if e.WriteLands? {
      LandsKeepsInv(s);
    } else if e.WriteReplies? {
      ReplyKeepsInv(s, e.rejected);
    } else if e.WriteTimesOut? {
      WriteTimeoutKeepsInv(s);
    } else if e.Tick? {
      TickKeepsInv(s);
    } else {
      EndKeepsInv(s);
    }
  }

  lemma StepKeepsInv(s: State, e: Event)
    requires Inv(s)
    ensures Inv(Step(s, e))
  {
    if Opens(e) {
      OpeningStepKeepsInv(s, e);
    } else if Runs(e) {
      RunningStepKeepsInv(s, e);
    } else if Settles(e) {
      SettlingStepKeepsInv(s, e);
    } else {
      SmallStepsKeepInv(s, e);
    }
  }

  lemma SmallStepsKeepInv(s: State, e: Event)
    requires Inv(s)
    requires e.CreateLands? || e.CreateRejected? || e.KindFailEnds? || e.CodeGuardEnds?
          || e.Handshake? || e.RowTaken?
    ensures Inv(Step(s, e))
  {
  }

  lemma {:induction false} RunKeepsInv(s: State, es: seq<Event>)
    requires Inv(s)
    ensures Inv(Run(s, es))
    decreases |es|
  {
    if es != [] {
      StepKeepsInv(s, es[0]);
      RunKeepsInv(Step(s, es[0]), es[1..]);
    }
  }

  lemma InitInv(b: Budgets, attempt: nat, entry: Entry)
    ensures Inv(Init(b, attempt, entry))
  {
  }

  // --------------------------------------------------- one latch, one write, one true answer

  /** In every interleaving the latch has one winner, one settle write is issued and `outcome` resolves once. */
  lemma SettledOnce(b: Budgets, attempt: nat, entry: Entry, es: seq<Event>)
    ensures var s := Run(Init(b, attempt, entry), es); s.wins <= 1 && s.issued <= 1 && s.resolves <= 1
  {
    InitInv(b, attempt, entry);
    RunKeepsInv(Init(b, attempt, entry), es);
  }

  /**
    Without a drive, `expired` is what the row holds, and `failed` is what it holds unless another
    writer took the row first: the statement then matches nothing and is still reported as carried out.
  */
  predicate RowSays(s: State)
    requires s.answer.Some?
  {
    && s.rowWrite.Some?
    && var w := s.rowWrite.value;
       && w.ended && w.landed.Some?
       && if s.answer.value.Expired? then w.form == ExpiredPut && s.row == Settled(SettleExpired)
          else
            && s.answer.value == Failed(NotDispatched) && w.form == FailRunning
            && s.row == if w.landed.value then Settled(SettleFailed(NotDispatched)) else Taken
  }

  /**
    An answer that claims a state is the state the fenced write put in the row and confirmed.
    A start answers without it only before its row exists, and a row created after that is settled to
    say the same.  A resume answers without it only when it has no drive; `RowSays` is what its own
    write then left in the row.  Either way nothing can have been dispatched.
  */
  lemma AnswerIsWhatTheRowSays(b: Budgets, attempt: nat, entry: Entry, es: seq<Event>)
    ensures
      var s := Run(Init(b, attempt, entry), es);
      s.answer.Some? && !s.answer.value.Unknown() && !s.answer.value.Threw? ==>
        match s.write
        case None => s.cell == NoDispatch && if s.ctx.resumed then RowSays(s) else !s.persisted
        case Some(w) =>
          && Agrees(w.plan) && s.answer.value == w.plan.answer
          && (w.publishes ==> w.reply == Some(Matched) && s.row == Settled(w.plan.settle))
          && (!w.publishes ==> !s.ctx.resumed && s.cell == NoDispatch && w.plan.settle == SettleFailed(Interrupted))
  {
    InitInv(b, attempt, entry);
    RunKeepsInv(Init(b, attempt, entry), es);
  }

  /** A write on its way that will overwrite the row whatever it holds. */
  predicate PutPending(s: State) {
    s.rowWrite.Some? && s.rowWrite.value.form != FailRunning && s.rowWrite.value.landed.None?
    && !s.rowWrite.value.ended
  }

  /**
    Wherever a resume without a drive has refused its call and the row is still its own, another writer
    may take the row and the client is told `failed` all the same.
  */
  lemma FailedOverATakenRow(b: Budgets, attempt: nat, es: seq<Event>)
    ensures
      var s := Run(Init(b, attempt, Resume), es);
      var t := Run(s, [RowTaken, CodeWriteLands, CodeWriteEnds(true)]);
      s.pc.CodeFailing? && s.pc.end == Refused && s.row.Running? ==>
        t.row == Taken && t.answer == Some(Failed(NotDispatched))
  {
    InitInv(b, attempt, Resume);
    RunKeepsInv(Init(b, attempt, Resume), es);
    RunThree(Run(Init(b, attempt, Resume), es), RowTaken, CodeWriteLands, CodeWriteEnds(true));
  }

  lemma StepKeepsAnswer(s: State, e: Event)
    requires Inv(s) && s.answer.Some?
    ensures Step(s, e).answer == s.answer
  {
    StepKeepsInv(s, e);
  }

  /** What a client was told never changes afterwards. */
  lemma {:induction false} AnswerIsFinal(s: State, es: seq<Event>)
    requires Inv(s) && s.answer.Some?
    ensures Run(s, es).answer == s.answer
    decreases |es|
  {
    if es != [] {
      StepKeepsInv(s, es[0]);
      StepKeepsAnswer(s, es[0]);
      AnswerIsFinal(Step(s, es[0]), es[1..]);
    }
  }

  /** "Did not run" is true when it is said and stays true, and a dispatched call is never denied. */
  lemma DidNotRunIsTrue(b: Budgets, attempt: nat, entry: Entry, es: seq<Event>, later: seq<Event>)
    ensures
      var s := Run(Init(b, attempt, entry), es);
      var t := Run(s, later);
      s.answer.Some? ==>
        && (DeniesDispatch(s.answer.value) ==> t.cell != Dispatched)
        && (t.cell == Dispatched ==>
              s.answer.value.Completed? || s.answer.value.TooLarge? || s.answer.value.Unknown()
              || s.answer.value == Failed(OutcomeAmbiguous))
  {
    InitInv(b, attempt, entry);
    var s := Run(Init(b, attempt, entry), es);
    RunKeepsInv(Init(b, attempt, entry), es);
    RunKeepsInv(s, later);
    if s.answer.Some? {
      AnswerIsFinal(s, later);
    }
  }

  /** A start's last-resort answer is never needed: every path to `finished` has taken the latch. */
  lemma BackstopNeverAnswers(b: Budgets, attempt: nat, isJson: bool, es: seq<Event>)
    ensures
      var s := Run(Init(b, attempt, Start(isJson)), es);
      Step(s, Finish).wins == s.wins && Step(s, Finish).answer == s.answer
  {
    InitInv(b, attempt, Start(isJson));
    RunKeepsInv(Init(b, attempt, Start(isJson)), es);
  }

  /** Only a start writes a pause, and only before anything went out. */
  predicate PausesUnsent(s: State) {
    s.write.Some? && s.write.value.plan.settle.SettlePaused? ==>
      !s.ctx.resumed && s.write.value.plan.answer.Paused? && s.cell != Dispatched
  }

  /** The write a step leaves behind is the old one, or the one it issued to settle. */
  lemma StepPausesUnsent(s: State, e: Event)
    requires Inv(s) && PausesUnsent(s)
    ensures PausesUnsent(Step(s, e))
  {
    if s.write.Some? {
      WriteStays(s, e);
      StepKeepsInv(s, e);
    } else {
      FirstWriteUnsent(s, e);
    }
  }

  lemma WriteStays(s: State, e: Event)
    requires Inv(s) && s.write.Some?
    ensures var t := Step(s, e); t.write.Some? && t.write.value.plan == s.write.value.plan && t.ctx == s.ctx
  {
  }

  lemma FirstWriteUnsent(s: State, e: Event)
    requires Phases(s) && s.write.None?
    ensures PausesUnsent(Step(s, e))
  {
    if e.CreateOk? || e.ConflictReply? || e.TimerFires? {
      OpeningNeverPauses(s, e);
    } else if e.GuardPass? || e.GuardExit? {
      GuardNeverPauses(s, e);
    }
  }

  lemma OpeningNeverPauses(s: State, e: Event)
    requires s.write.None? && (e.CreateOk? || e.ConflictReply? || e.TimerFires?)
    ensures var w := Step(s, e).write; w.Some? ==> !w.value.plan.settle.SettlePaused?
  {
  }

  lemma GuardNeverPauses(s: State, e: Event)
    requires s.write.None? && (e.GuardPass? || e.GuardExit?)
    ensures var w := Step(s, e).write; w.Some? ==> !w.value.plan.settle.SettlePaused?
  {
  }

  lemma {:induction false} RunPausesUnsent(s: State, es: seq<Event>)
    requires Inv(s) && PausesUnsent(s)
    ensures Inv(Run(s, es)) && PausesUnsent(Run(s, es))
    decreases |es|
  {
    if es != [] {
      StepKeepsInv(s, es[0]);
      StepPausesUnsent(s, es[0]);
      RunPausesUnsent(Step(s, es[0]), es[1..]);
    }
  }

  /**
    The rules by which `Attempts` lets a drive move: it issues one write at most, nothing goes out once
    that write is issued, only a start pauses and only unsent, and its write changes no row but its own
    running attempt's.  The one write that overwrites a row some other writer has taken is the put of a
    resume without a drive; it never makes a row run or pause.
  */
  lemma DriveRules(b: Budgets, attempt: nat, entry: Entry, es: seq<Event>, e: Event)
    ensures
      var s := Run(Init(b, attempt, entry), es);
      var t := Step(s, e);
      && s.issued <= 1
      && (s.write.Some? && t.cell == Dispatched ==> s.cell == Dispatched)
      && (s.write.Some? && s.write.value.plan.settle.SettlePaused? ==> entry.Start? && s.cell != Dispatched)
      && (t.row.Settled? && t.row != s.row ==> s.row == Running(attempt) || (e == CodeWriteLands && PutPending(s)))
      && (s.row == Taken ==> (t.row != Taken <==> e == CodeWriteLands && PutPending(s)))
      && (PutPending(s) ==> s.ctx.resumed && s.write.None? && s.cell == NoDispatch)
  {
    InitInv(b, attempt, entry);
    RunPausesUnsent(Init(b, attempt, entry), es);
    RunKeepsContext(Init(b, attempt, entry), es);
    RulesHold(Run(Init(b, attempt, entry), es), e);
  }

  lemma RulesHold(s: State, e: Event)
    requires Inv(s) && PausesUnsent(s)
    ensures
      var t := Step(s, e);
      && s.issued <= 1
      && (s.write.Some? && t.cell == Dispatched ==> s.cell == Dispatched)
      && (s.write.Some? && s.write.value.plan.settle.SettlePaused? ==> !s.ctx.resumed && s.cell != Dispatched)
      && (t.row.Settled? && t.row != s.row ==>
            s.row == Running(s.ctx.attempt) || (e == CodeWriteLands && PutPending(s)))
      && (s.row == Taken ==> (t.row != Taken <==> e == CodeWriteLands && PutPending(s)))
      && (PutPending(s) ==> s.ctx.resumed && s.write.None? && s.cell == NoDispatch)
  {
    if s.settled {
      SettledStep(s, e);
    }
    RowStaysUnlessWritten(s, e);
  }

  /** What taking the latch shuts off for good: nothing goes out after it, in any continuation. */
  lemma {:induction false} NothingGoesOutOnceSettled(s: State, es: seq<Event>)
    requires s.settled
    ensures var t := Run(s, es); t.settled && (t.cell == Dispatched ==> s.cell == Dispatched)
    decreases |es|
  {
    if es != [] {
      SettledStep(s, es[0]);
      NothingGoesOutOnceSettled(Step(s, es[0]), es[1..]);
    }
  }

  lemma SettledStep(s: State, e: Event)
    requires s.settled
    ensures var t := Step(s, e); t.settled && (t.cell == Dispatched ==> s.cell == Dispatched)
  {
    if Opens(e) {
      SettledOpening(s, e);
    }
  }

  lemma SettledOpening(s: State, e: Event)
    requires s.settled && Opens(e)
    ensures var t := Step(s, e); t.settled && t.cell == s.cell
  {
  }

  lemma RowStaysUnlessWritten(s: State, e: Event)
    ensures var t := Step(s, e);
            t.row != s.row ==>
              || (e == CreateLands && s.row == NoRow) || (e == RowTaken && s.row.Running?)
              || (e == WriteLands && s.row == Running(s.ctx.attempt))
              || (e == CodeWriteLands && t.row.Settled? && (s.row.Running? || PutPending(s)))
  {
    if !e.CreateLands? && !e.RowTaken? && !e.WriteLands? && !e.CodeWriteLands? {
      RowStays(s, e);
    }
  }

  lemma RowStays(s: State, e: Event)
    requires !e.CreateLands? && !e.RowTaken? && !e.WriteLands? && !e.CodeWriteLands?
    ensures Step(s, e).row == s.row
  {
    if Opens(e) {
      RowStaysOpening(s, e);
    } else if Settles(e) {
      RowStaysSettling(s, e);
    }
  }

  lemma RowStaysOpening(s: State, e: Event)
    requires Opens(e) && !e.CodeWriteLands?
    ensures Step(s, e).row == s.row
  {
  }

  lemma RowStaysSettling(s: State, e: Event)
    requires Settles(e) && !e.WriteLands?
    ensures Step(s, e).row == s.row
  {
  }

  lemma {:induction false} RunKeepsContext(s: State, es: seq<Event>)
    requires Inv(s)
    ensures Run(s, es).ctx == s.ctx
    decreases |es|
  {
    if es != [] {
      StepKeepsInv(s, es[0]);
      RunKeepsContext(Step(s, es[0]), es[1..]);
    }
  }

  /** A start answers through its outcome alone: it never rejects with the fault itself. */
  predicate NeverThrows(s: State) {
    (s.answer.Some? ==> !s.answer.value.Threw?) && (s.write.Some? ==> !s.write.value.plan.answer.Threw?)
  }

  lemma StepNeverThrows(s: State, e: Event)
    requires Phases(s) && s.rowWrite.None? && !s.ctx.resumed && NeverThrows(s)
    ensures NeverThrows(Step(s, e)) && !Step(s, e).ctx.resumed
  {
  }

  lemma {:induction false} RunNeverThrows(s: State, es: seq<Event>)
    requires Inv(s) && !s.ctx.resumed && NeverThrows(s)
    ensures NeverThrows(Run(s, es))
    decreases |es|
  {
    if es != [] {
      StepKeepsInv(s, es[0]);
      StepNeverThrows(s, es[0]);
      RunNeverThrows(Step(s, es[0]), es[1..]);
    }
  }

  lemma StartNeverThrows(b: Budgets, attempt: nat, isJson: bool, es: seq<Event>)
    ensures var s := Run(Init(b, attempt, Start(isJson)), es); s.answer.Some? ==> !s.answer.value.Threw?
  {
    InitInv(b, attempt, Start(isJson));
    RunNeverThrows(Init(b, attempt, Start(isJson)), es);
  }

  // ------------------------------------------------------------------------- timed liveness

  /** Whatever store calls hang, reject or throw, a start is answered and its slot let go in time. */
  lemma StartAnswersInTime(b: Budgets, attempt: nat, isJson: bool, es: seq<Event>)
    ensures
      var s := Run(Init(b, attempt, Start(isJson)), es);
      && (s.now > b.drive + b.settleWrite ==> s.answer.Some?)
      && (s.now > b.drive + b.settleWrite + b.slotRetention ==> s.retention.Some?)
  {
    InitInv(b, attempt, Start(isJson));
    RunKeepsInv(Init(b, attempt, Start(isJson)), es);
  }

  predicate ResumeInTime(s: State) {
    s.answer.None? ==> s.now <= 2 * s.ctx.budgets.drive + s.ctx.budgets.settleWrite
  }

  lemma LateIsDriveless(s: State)
    requires Inv(s) && s.ctx.resumed && !ResumeInTime(s)
    ensures s.pc.CodeGuard? || s.pc.CodeFailing?
  {
  }

  /** Only a kind lookup that answers anything but `direct` leads to the arm without a drive. */
  lemma {:induction false} NeverCodeArm(s: State, es: seq<Event>)
    requires Inv(s) && s.ctx.resumed && !s.pc.CodeGuard? && !s.pc.CodeFailing?
    requires KindReply(KindOther) !in es
    ensures var t := Run(s, es); Inv(t) && t.ctx == s.ctx && !t.pc.CodeGuard? && !t.pc.CodeFailing?
    decreases |es|
  {
    if es != [] {
      StepKeepsInv(s, es[0]);
      assert es[0] in es;
      StepOutsideCodeArm(s, es[0]);
      NeverCodeArm(Step(s, es[0]), es[1..]);
    }
  }

  lemma StepOutsideCodeArm(s: State, e: Event)
    requires !s.pc.CodeGuard? && !s.pc.CodeFailing?
    ensures
      var t := Step(s, e);
      t.pc.CodeGuard? || t.pc.CodeFailing? ==> s.pc == KindRead && e == KindReply(KindOther)
  {
    if Settles(e) {
      SettlingKeepsPc(s, e);
    }
  }

  lemma SettlingKeepsPc(s: State, e: Event)
    requires Settles(e)
    ensures var t := Step(s, e); t.pc == s.pc || t.pc == Finished
  {
  }

  /**
    A claimed direct row is answered within two drive budgets and a write budget in every run whose kind
    lookup says `direct`, times out or never comes back; a resume past the bound waits without a drive.
  */
  lemma LateResumeHasNoDrive(b: Budgets, attempt: nat, es: seq<Event>)
    ensures
      var s := Run(Init(b, attempt, Resume), es);
      !ResumeInTime(s) ==> KindReply(KindOther) in es && (s.pc.CodeGuard? || s.pc.CodeFailing?)
  {
    var s0 := Init(b, attempt, Resume);
    InitInv(b, attempt, Resume);
    RunKeepsInv(s0, es);
    if !ResumeInTime(Run(s0, es)) {
      LateIsDriveless(Run(s0, es));
      if KindReply(KindOther) !in es {
        NeverCodeArm(s0, es);
      }
    }
  }

  lemma {:induction false} DriveStays(s: State, es: seq<Event>)
    requires Inv(s) && s.ctx.resumed && !Driveless(s.pc)
    ensures Inv(Run(s, es)) && !Driveless(Run(s, es).pc)
    decreases |es|
  {
    if es != [] {
      StepKeepsInv(s, es[0]);
      StepDriveStays(s, es[0]);
      DriveStays(Step(s, es[0]), es[1..]);
    }
  }

  lemma StepDriveStays(s: State, e: Event)
    requires !Driveless(s.pc)
    ensures !Driveless(Step(s, e).pc)
  {
    if Settles(e) {
      SettlingKeepsPc(s, e);
    }
  }

  function Ticks(n: nat): seq<Event> { if n == 0 then [] else [Tick] + Ticks(n - 1) }

  lemma {:induction false} CodeGuardWaits(s: State, n: nat)
    requires Inv(s) && s.ctx.resumed && s.pc == CodeGuard
    ensures var t := Run(s, Ticks(n)); t.now == s.now + n && t.answer.None?
    decreases n
  {
    if n > 0 {
      assert NothingDue(s);
      StepKeepsInv(s, Tick);
      assert Ticks(n)[1..] == Ticks(n - 1);
      CodeGuardWaits(Step(s, Tick), n - 1);
    }
  }

  /**
    Whenever the kind lookup answers, the reply decides: every continuation of the run is in time exactly
    when it says `direct`.  A lookup that rejects leaves the resume without a drive, so no timer covers
    the guard reads that follow.
  */
  lemma ResumeInTimeIffKindKnown(b: Budgets, attempt: nat, es: seq<Event>, kind: KindAnswer)
    ensures
      var s := Run(Init(b, attempt, Resume), es);
      s.pc == KindRead ==>
        ((forall later :: ResumeInTime(Run(Step(s, KindReply(kind)), later))) <==> kind == KindDirect)
  {
    InitInv(b, attempt, Resume);
    RunKeepsInv(Init(b, attempt, Resume), es);
    var s := Run(Init(b, attempt, Resume), es);
    if s.pc == KindRead {
      ReplyDecides(s, kind);
    }
  }

  lemma ReplyDecides(s: State, kind: KindAnswer)
    requires Inv(s) && s.ctx.resumed && s.pc == KindRead
    ensures (forall later :: ResumeInTime(Run(Step(s, KindReply(kind)), later))) <==> kind == KindDirect
  {
    StepKeepsInv(s, KindReply(kind));
    var t := Step(s, KindReply(kind));
    if kind == KindDirect {
      forall later ensures ResumeInTime(Run(t, later)) {
        DriveStays(t, later);
        if !ResumeInTime(Run(t, later)) {
          LateIsDriveless(Run(t, later));
        }
      }
    } else {
      var n := 2 * s.ctx.budgets.drive + s.ctx.budgets.settleWrite + 1;
      CodeGuardWaits(t, n);
      assert !ResumeInTime(Run(t, Ticks(n)));
    }
  }

  /** A kind lookup that never comes back is answered within one drive and one write budget. */
  lemma SilentKindAnswersInTime(b: Budgets, attempt: nat, es: seq<Event>)
    requires forall k :: KindReply(k) !in es
    ensures
      var s := Run(Init(b, attempt, Resume), es);
      s.now > b.drive + b.settleWrite ==> s.answer == Some(UnknownTimeout)
  {
    InitInv(b, attempt, Resume);
    SilentKind(Init(b, attempt, Resume), es);
  }

  predicate KindSilent(s: State) {
    s.pc.KindRead? || s.pc.KindFailing? || ((s.pc.Closing? || s.pc.Finished?) && !s.settled
        && s.answer == Some(UnknownTimeout))
  }

  lemma {:induction false} SilentKind(s: State, es: seq<Event>)
    requires Inv(s) && s.ctx.resumed && KindSilent(s)
    requires forall k :: KindReply(k) !in es
    ensures Inv(Run(s, es)) && KindSilent(Run(s, es))
    decreases |es|
  {
    if es != [] {
      StepKeepsInv(s, es[0]);
      assert es[0] in es;
      SilentKind(Step(s, es[0]), es[1..]);
    }
  }

  lemma RunThree(s: State, a: Event, b: Event, c: Event)
    ensures Run(s, [a, b, c]) == Step(Step(Step(s, a), b), c)
  {
    var s1, s2 := Step(s, a), Step(Step(s, a), b);
    assert Run(s, [a, b, c]) == Run(s1, [a, b, c][1..]) && [a, b, c][1..] == [b, c];
    assert Run(s1, [b, c]) == Run(s2, [b, c][1..]) && [b, c][1..] == [c];
    assert Run(s2, [c]) == Run(Step(s2, c), [c][1..]) && [c][1..] == [];
  }

  lemma {:induction false} RunAppend(s: State, es: seq<Event>, fs: seq<Event>)
    ensures Run(s, es + fs) == Run(Run(s, es), fs)
    decreases |es|
  {
    if es == [] {
      assert es + fs == fs;
    } else {
      assert (es + fs)[1..] == es[1..] + fs;
      RunAppend(Step(s, es[0]), es[1..], fs);
    }
  }

  lemma StoreCallsFire(s: State)
    ensures var t := Step(Step(Step(s, KindTimesOut), KindFailEnds), CodeWriteTimesOut);
            t.now == s.now && !StoreCallDue(t)
  {
    var t := Step(Step(s, KindTimesOut), KindFailEnds);
    assert t.now == s.now && !t.pc.KindFailing? && !(t.pc == KindRead && StoreCallDue(t));
  }

  lemma TimersFire(s: State)
    requires !StoreCallDue(s)
    ensures var t := Step(Step(Step(s, TimerFires), WriteTimesOut), RetentionFires); t.now == s.now && NothingDue(t)
  {
    var t := Step(s, TimerFires);
    assert t.now == s.now && t.pc == s.pc && !TimerDue(t);
    var u := Step(t, WriteTimesOut);
    assert u.now == s.now && u.pc == s.pc && !TimerDue(u) && !WriteDue(u);
  }

  /** Firing whatever is due always lets time go on, so no run can hold the clock before a bound. */
  lemma ClockNeverStuck(s: State)
    ensures exists es :: NothingDue(Run(s, es)) && Run(s, es).now == s.now
  {
    var calls, timers := [KindTimesOut, KindFailEnds, CodeWriteTimesOut], [TimerFires, WriteTimesOut, RetentionFires];
    RunThree(s, KindTimesOut, KindFailEnds, CodeWriteTimesOut);
    StoreCallsFire(s);
    RunThree(Run(s, calls), TimerFires, WriteTimesOut, RetentionFires);
    TimersFire(Run(s, calls));
    RunAppend(s, calls, timers);
  }
}
