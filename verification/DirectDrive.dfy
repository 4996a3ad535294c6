/**
  The direct-execution latch protocol: one drive of one execution, from the moment its
  budget timer is armed to the moment its slot is given back.

  A continuation and a timer race for one latch.  The winner makes one fenced,
  time-bounded settle write and publishes one answer.  The model is a step system: a state,
  a list of events, and a total function `Step`.  Synchronous code between two awaits is one
  event, and an event that is not enabled leaves the state alone, so quantifying over event
  sequences quantifies over every interleaving of continuation, timers and store replies.

  Time is the timers' clock in milliseconds.  It advances only by `Tick`, and only when no
  armed timer is due: timers fire when they are due and synchronous code takes no time.  The
  clock that `deadline()` reads is a different, injectable one, so `Dispatch` carries its
  reading as a parameter the environment chooses.
*/
module DirectDrive {
  import opened Wrappers
  import opened DispatchCells

  /** Budgets of the direct arm. */
  datatype Budgets = Budgets(drive: nat, settleWrite: nat, slotRetention: nat, resultBytesMax: nat)

  /** `Interrupted` and `NotDispatched` both tell the client that the call did not run. */
  datatype Error = Interrupted | OutcomeAmbiguous | NotDispatched

  /** What the one settle write puts in the row. */
  datatype Settle =
    | SettleDelivered | SettleRetained(result: nat) | SettleDiscarded
    | SettleFailed(error: Error)
    | SettlePaused(callId: nat)
    | SettleExpired

  /** What the client is told.  `Threw`: `resume` rejected with the original fault. */
  datatype Answer =
    | Completed(value: nat) | TooLarge
    | Failed(error: Error)
    | Paused(callId: nat)
    | Expired
    | Conflict
    | UnknownTimeout | UnknownFailed
    | Threw
  {
    predicate Unknown() { UnknownTimeout? || UnknownFailed? }
  }

  /** The settle and the answer, both built before the latch is taken. */
  datatype Plan = Plan(settle: Settle, answer: Answer)

  /** The plan tells the client what it stores. */
  predicate Agrees(p: Plan) {
    match p.answer
    case Completed(v) => p.settle == SettleDelivered || p.settle == SettleRetained(v)
    case TooLarge => p.settle == SettleDiscarded
    case Failed(e) => p.settle == SettleFailed(e)
    case Paused(c) => p.settle == SettlePaused(c)
    case Expired => p.settle == SettleExpired
    case Conflict => true
    case UnknownTimeout => false
    case UnknownFailed => false
    case Threw => p.settle == SettleFailed(NotDispatched)
  }

  /** The stored row.  `Taken` is a terminal state some other writer gave it. */
  datatype Row = NoRow | Running(attempt: nat) | Settled(settle: Settle) | Taken

  datatype Reply = Matched | NoRows | Rejected

  /**
    The one fenced settle write.  It is never cancelled: it may land, and reply, late.
    `publishes` is false for the reconciliation of a row created after its drive had expired.
  */
  datatype Write = Write(plan: Plan, since: nat, publishes: bool, landed: Option<bool>, reply: Option<Reply>,
      decided: bool)

  /**
    How a resume without a drive ends its row: a statement that matches only a running row, or a put
    that overwrites whatever the row holds.  `FailedPut` is the fallback of an `ExpiredPut` that rejected.
  */
  datatype RowForm = FailRunning | ExpiredPut | FailedPut

  /** One such write, never cancelled either.  `landed`: whether the statement changed the row. */
  datatype RowWrite = RowWrite(form: RowForm, landed: Option<bool>, ended: bool)

  datatype GuardRead = GetRow | ClaimCallId | GetTool | GetGeneration | CheckScope | GetPolicy

  /** How a resume's guard ends without handing over to the drive. */
  datatype GuardEnd = Refused | PastTtl | Faulted

  /** What the continuation is waiting for. */
  datatype Pc =
    | Creating | ConflictLookup
    | KindRead | KindFailing(since: nat)
    | CodeGuard | CodeFailing(since: nat, end: GuardEnd)
    | Guarding(read: GuardRead) | AwaitingExpiry
    | Invoking | ReadingGeneration
    | Closing | Finished

  datatype Retention = Released | Abandoned

  /** What stays fixed: the budgets, whether `resume` made the drive, the attempt its writes are fenced on. */
  datatype Context = Context(budgets: Budgets, resumed: bool, attempt: nat)

  datatype State = State(
    ctx: Context,
    now: nat, pc: Pc,
    timerOn: bool, due: nat,
    settled: bool, wins: nat,
    persisted: bool,
    cell: DispatchState,
    row: Row,
    write: Option<Write>, issued: nat, rowWrite: Option<RowWrite>,
    answer: Option<Answer>, answeredAt: nat, resolves: nat,
    retention: Option<Retention>)

  datatype KindAnswer = KindDirect | KindOther
  datatype Generation = Present(callId: nat) | Absent | ReadRejected

  datatype Event =
    // startDirect
    | CreateLands | CreateOk(prepared: bool) | CreateRejected | ConflictReply(found: bool)
    // resume
    | KindReply(kind: KindAnswer) | KindTimesOut | KindFailEnds
    | GuardPass(parsed: bool, prepared: bool) | GuardExit(exit: GuardEnd)
    | CodeGuardEnds(end: GuardEnd) | CodeWriteLands | CodeWriteEnds(written: bool) | CodeWriteTimesOut
    // runDirect
    | Handshake | Dispatch(remaining: int)
    | InvokeReturned(value: nat, bytes: nat, serializable: bool) | InvokeDenied | InvokeThrew(ambiguous: bool)
    | GenerationReply(generation: Generation)
    // the timer, the store, other writers, the clock
    | TimerFires
    | WriteLands | WriteReplies(rejected: bool) | WriteTimesOut
    | RowTaken
    | Finish | RetentionFires
    | Tick

  // ---------------------------------------------------------------- the two halves of settling

  /** Resolves the client's promise; `resolves` counts the calls. */
  function Publish(s: State, a: Answer): State {
    if s.answer.None? then s.(answer := Some(a), answeredAt := s.now, resolves := s.resolves + 1)
    else s.(resolves := s.resolves + 1)
  }

  function IssueWrite(s: State, p: Plan, publishes: bool): State {
    s.(write := Some(Write(p, s.now, publishes, None, None, false)), issued := s.issued + 1)
  }

  /** `settleBounded`: without a row there is nothing to write, so the plan is published as it is. */
  function SettleBounded(s: State, p: Plan): State {
    if !s.persisted then Publish(s, p.answer) else IssueWrite(s, p, true)
  }

  /** `if (!drive.settle()) return; await settleBounded(...)`: the loser writes and publishes nothing. */
  function SettleOrYield(s: State, p: Plan): State {
    if s.settled then s else SettleBounded(s.(settled := true, wins := s.wins + 1), p)
  }

  function FailPlan(e: Error): Plan { Plan(SettleFailed(e), Failed(e)) }

  /** The dispatch cell, never elapsed time, decides what a failure means. */
  function Classify(cell: DispatchState, ambiguousCause: bool): Error {
    if cell == Dispatched || ambiguousCause then OutcomeAmbiguous else NotDispatched
  }

  // ------------------------------------------------------------------------------ the steps

  /** The first synchronous stretch of `runDirect`: parse the stored request, build the invoker. */
  function EnterRun(s: State, parsed: bool, prepared: bool): State {
    if !parsed || !prepared then SettleOrYield(s, FailPlan(NotDispatched)).(pc := Closing)
    else s.(pc := Invoking)
  }

  function OnCreateOk(s: State, prepared: bool): State {
    if s.pc != Creating || s.row.NoRow? then s
    else
      var s1 := s.(persisted := true);
      if s.settled then IssueWrite(s1, FailPlan(Interrupted), false).(pc := Closing)
      else EnterRun(s1, true, prepared)
  }

  function OnConflictReply(s: State, found: bool): State {
    if s.pc != ConflictLookup then s
    else SettleOrYield(s, Plan(SettleFailed(NotDispatched), if found then Conflict
        else Failed(NotDispatched))).(pc := Closing)
  }

  function OnKindReply(s: State, kind: KindAnswer): State {
    if s.pc != KindRead then s
    else if kind == KindOther then s.(pc := CodeGuard)
    else s.(pc := Guarding(GetRow), timerOn := true, due := s.now + s.ctx.budgets.drive)
  }

  function NextRead(r: GuardRead): Option<GuardRead> {
    match r
    case GetRow => Some(ClaimCallId)
    case ClaimCallId => Some(GetTool)
    case GetTool => Some(GetGeneration)
    case GetGeneration => Some(CheckScope)
    case CheckScope => Some(GetPolicy)
    case GetPolicy => None
  }

  /** `raceGuard`: once the latch is gone, a guard read that answers is a loser whatever it says. */
  function OnGuardPass(s: State, parsed: bool, prepared: bool): State {
    if !s.pc.Guarding? then s
    else if s.settled then s.(pc := AwaitingExpiry)
    else
      match NextRead(s.pc.read)
      case Some(r) => s.(pc := Guarding(r))
      case None => EnterRun(s, parsed, prepared)
  }

  /** Where the guard can refuse: every read but the last has a check behind it. */
  predicate Allowed(r: GuardRead, exit: GuardEnd) {
    match exit
    case Refused => r != GetPolicy
    case PastTtl => r == ClaimCallId
    case Faulted => true
  }

  function GuardPlan(exit: GuardEnd): Plan {
    match exit
    case Refused => FailPlan(NotDispatched)
    case PastTtl => Plan(SettleExpired, Expired)
    case Faulted => Plan(SettleFailed(NotDispatched), Threw)
  }

  /** `terminalizeDirect`: take the latch, or defer to whoever holds it. */
  function OnGuardExit(s: State, exit: GuardEnd): State {
    if !s.pc.Guarding? || !Allowed(s.pc.read, exit) then s
    else if s.settled then s.(pc := AwaitingExpiry)
    else SettleOrYield(s.(timerOn := false), GuardPlan(exit)).(pc := Closing)
  }

  /** Issues the next write of a row without a drive. */
  function IssueRow(s: State, f: RowForm): State { s.(rowWrite := Some(RowWrite(f, None, false))) }

  /** The kind is unknown, so the settle cannot be routed: the row is failed as far as the store allows. */
  function OnKindTimesOut(s: State): State {
    if s.pc != KindRead || !StoreCallDue(s) then s else IssueRow(s.(pc := KindFailing(s.now)), FailRunning)
  }

  function OnCodeGuardEnds(s: State, end: GuardEnd): State {
    if s.pc != CodeGuard then s
    else IssueRow(s.(pc := CodeFailing(s.now, end)), if end == PastTtl then ExpiredPut else FailRunning)
  }

  /** What the row holds once such a write has changed it. */
  function FormSettle(f: RowForm): Settle { if f == ExpiredPut then SettleExpired else SettleFailed(NotDispatched) }

  function OnRowLands(s: State): State {
    if s.rowWrite.None? || s.rowWrite.value.landed.Some? || s.rowWrite.value.ended then s
    else
      var w := s.rowWrite.value;
      var changes := w.form != FailRunning || s.row.Running?;
      s.(row := if changes then Settled(FormSettle(w.form)) else s.row, rowWrite := Some(w.(landed := Some(changes))))
  }

  /**
    The store's reply to such a write.  It says only that the statement was carried out, not that it
    matched a row.  A put of `expired` that rejects is tried again as `failed` under the same budget,
    and the resume then ends as a fault whatever became of that.
  */
  function OnCodeWriteEnds(s: State, written: bool): State {
    if s.rowWrite.None? || s.rowWrite.value.ended || (written && s.rowWrite.value.landed.None?) then s
    else if s.rowWrite.value.form == ExpiredPut && !written then IssueRow(s, FailedPut)
    else
      var s1 := s.(rowWrite := Some(s.rowWrite.value.(ended := true)));
      if !s.pc.CodeFailing? then s1
      else
        match s.pc.end
        case Faulted => Publish(s1, Threw).(pc := Closing)
        case Refused => Publish(s1, if written then Failed(NotDispatched) else UnknownFailed).(pc := Closing)
        case PastTtl =>
          if s.rowWrite.value.form == ExpiredPut then Publish(s1, Expired).(pc := Closing)
          else IssueRow(s.(pc := CodeFailing(s.now, Faulted)), FailRunning)
  }

  function OnCodeWriteTimesOut(s: State): State {
    if !s.pc.CodeFailing? || !StoreCallDue(s) then s
    else Publish(s, if s.pc.end == Faulted then Threw else UnknownTimeout).(pc := Closing)
  }

  /** `deadline()` is latch-aware: a taken latch leaves no budget, whatever the clock says. */
  function Deadline(s: State, remaining: int): int { if s.settled then 0 else remaining }

  function OnDispatch(s: State, remaining: int): State {
    if s.pc != Invoking || Deadline(s, remaining) <= 0 then s
    else s.(cell := Raise(s.cell, Dispatched))
  }

  function OnReturned(s: State, value: nat, bytes: nat, serializable: bool): State {
    if s.pc != Invoking || s.cell != Dispatched then s
    else
      var p := if !serializable then FailPlan(Classify(s.cell, false))
               else if bytes > s.ctx.budgets.resultBytesMax then Plan(SettleDiscarded, TooLarge)
               else if s.ctx.resumed then Plan(SettleRetained(value), Completed(value))
               else Plan(SettleDelivered, Completed(value));
      SettleOrYield(s, p).(pc := Closing)
  }

  function OnThrew(s: State, ambiguous: bool): State {
    if s.pc != Invoking then s
    else SettleOrYield(s, FailPlan(Classify(s.cell, ambiguous))).(pc := Closing)
  }

  /** A policy refusal happens before any dispatch.  A start pauses; a resume fails. */
  function OnDenied(s: State): State {
    if s.pc != Invoking || s.cell == Dispatched then s
    else if s.ctx.resumed then SettleOrYield(s, FailPlan(Classify(s.cell, false))).(pc := Closing)
    else s.(pc := ReadingGeneration)
  }

  function OnGeneration(s: State, g: Generation): State {
    if s.pc != ReadingGeneration then s
    else
      var p := if g.Present? then Plan(SettlePaused(g.callId), Paused(g.callId)) else FailPlan(NotDispatched);
      SettleOrYield(s, p).(pc := Closing)
  }

  /** The timer's handler: the guard's while the guard runs, `expireDirect` otherwise. */
  function OnTimer(s: State): State {
    if !TimerDue(s) then s
    else SettleOrYield(s.(timerOn := false), FailPlan(if s.cell == Dispatched then OutcomeAmbiguous else Interrupted))
  }

  /** The fence: the update matches a row that is `running` under this very attempt. */
  function OnLands(s: State): State {
    if s.write.None? || s.write.value.landed.Some? || s.write.value.reply.Some? then s
    else if s.row == Running(s.ctx.attempt) then
      s.(row := Settled(s.write.value.plan.settle), write := Some(s.write.value.(landed := Some(true))))
    else s.(write := Some(s.write.value.(landed := Some(false))))
  }

  /** The bounded result of the write, known once: by its reply or by its timeout. */
  function Decide(s: State, a: Answer): State {
    if s.write.None? || s.write.value.decided then s
    else
      var s1 := s.(write := Some(s.write.value.(decided := true)));
      if !s.write.value.publishes then s1
      else Publish(s1, if s.write.value.plan.answer.Threw? then Threw else a)
  }

  function OnReply(s: State, rejected: bool): State {
    if s.write.None? || s.write.value.reply.Some? || (!rejected && s.write.value.landed.None?) then s
    else
      var w := s.write.value;
      var r := if rejected then Rejected else if w.landed.value then Matched else NoRows;
      Decide(s.(write := Some(w.(reply := Some(r)))), if r == Matched then w.plan.answer else UnknownFailed)
  }

  function OnWriteTimeout(s: State): State {
    if !WriteDue(s) then s
    else Decide(s, UnknownTimeout)
  }

  /** `finished`: the continuation and its tracked write have stopped.  A start's backstop takes a free latch. */
  function OnFinish(s: State): State {
    if s.pc != Closing || (s.write.Some? && s.write.value.reply.None?) then s
    else
      var s1 := s.(pc := Finished, timerOn := false, retention := if s.retention.None? then Some(Released)
          else s.retention);
      if s.settled || s.ctx.resumed then s1
      else Publish(s1.(settled := true, wins := s1.wins + 1), UnknownFailed)
  }

  function OnRetention(s: State): State {
    if !RetentionDue(s) then s
    else s.(retention := Some(Abandoned))
  }

  predicate TimerDue(s: State) { s.timerOn && s.now >= s.due }

  predicate WriteDue(s: State) {
    s.write.Some? && !s.write.value.decided && s.now >= s.write.value.since + s.ctx.budgets.settleWrite
  }

  /** The bounded store calls of a resume that has no drive yet, or gets none. */
  predicate StoreCallDue(s: State) {
    || (s.pc == KindRead && s.now >= s.ctx.budgets.drive)
    || (s.pc.KindFailing? && s.now >= s.pc.since + s.ctx.budgets.settleWrite)
    || (s.pc.CodeFailing? && s.now >= s.pc.since + s.ctx.budgets.settleWrite)
  }

  predicate RetentionDue(s: State) {
    !s.ctx.resumed && s.retention.None? && s.answer.Some? && s.now >= s.answeredAt + s.ctx.budgets.slotRetention
  }

  /** No armed timer is due, so time may pass. */
  predicate NothingDue(s: State) {
    !TimerDue(s) && !WriteDue(s) && !StoreCallDue(s) && !RetentionDue(s)
  }

  function Step(s: State, e: Event): (t: State)
    ensures t.ctx == s.ctx
  {
    match e
    case CreateLands => if s.pc == Creating && s.row == NoRow then s.(row := Running(s.ctx.attempt)) else s
    case CreateOk(prepared) => OnCreateOk(s, prepared)
    case CreateRejected => if s.pc == Creating then s.(pc := ConflictLookup) else s
    case ConflictReply(found) => OnConflictReply(s, found)
    case KindReply(kind) => OnKindReply(s, kind)
    case KindTimesOut => OnKindTimesOut(s)
    case KindFailEnds => if s.pc.KindFailing? then Publish(s, UnknownTimeout).(pc := Closing) else s
    case GuardPass(parsed, prepared) => OnGuardPass(s, parsed, prepared)
    case GuardExit(exit) => OnGuardExit(s, exit)
    case CodeGuardEnds(end) => OnCodeGuardEnds(s, end)
    case CodeWriteLands => OnRowLands(s)
    case CodeWriteEnds(written) => OnCodeWriteEnds(s, written)
    case CodeWriteTimesOut => OnCodeWriteTimesOut(s)
    case Handshake => if s.pc == Invoking then s.(cell := Raise(s.cell, Initializing)) else s
    case Dispatch(remaining) => OnDispatch(s, remaining)
    case InvokeReturned(value, bytes, serializable) => OnReturned(s, value, bytes, serializable)
    case InvokeDenied => OnDenied(s)
    case InvokeThrew(ambiguous) => OnThrew(s, ambiguous)
    case GenerationReply(g) => OnGeneration(s, g)
    case TimerFires => OnTimer(s)
    case WriteLands => OnLands(s)
    case WriteReplies(rejected) => OnReply(s, rejected)
    case WriteTimesOut => OnWriteTimeout(s)
    case RowTaken => if s.row.Running? then s.(row := Taken) else s
    case Finish => OnFinish(s)
    case RetentionFires => OnRetention(s)
    case Tick => if NothingDue(s) then s.(now := s.now + 1) else s
  }

  function Run(s: State, es: seq<Event>): (t: State)
    ensures t.ctx == s.ctx
    decreases |es|
  {
    if es == [] then s else Run(Step(s, es[0]), es[1..])
  }

  datatype Entry = Start(isJson: bool) | Resume

  /**
    A start arms the timer before its first write, and refuses at once an input that is not JSON.
    A resume begins when its claim has won: its row runs under this attempt and no timer is armed.
  */
  function Init(b: Budgets, attempt: nat, entry: Entry): State {
    match entry
    case Resume =>
      State(Context(b, true, attempt), 0, KindRead, false, 0, false, 0, true, NoDispatch, Running(attempt),
            None, 0, None, None, 0, 0, None)
    case Start(isJson) =>
      var s := State(Context(b, false, attempt), 0, Creating, true, b.drive, false, 0, false, NoDispatch, NoRow,
                     None, 0, None, None, 0, 0, None);
      if isJson then s else SettleOrYield(s, FailPlan(NotDispatched)).(pc := Closing)
  }

  /**
    The latch and the latch-aware deadline, as the object both racing settlers share.  `Holds` ties it
    to the drive it belongs to.
  */
  class Latch {
    const end: int
    var settled: bool

    ghost predicate Holds(s: State)
      reads this
    {
      settled == s.settled
    }

    constructor (now: int, budget: nat)
      ensures end == now + budget && !settled
    {
      end := now + budget;
      settled := false;
    }

    /** True for the first caller alone, and it alone goes on to the settle write. */
    method Settle(ghost s: State, ghost p: Plan) returns (won: bool)
      requires Holds(s)
      modifies this
      ensures won == !old(settled)
      ensures SettleOrYield(s, p) == if won then SettleBounded(s.(settled := true, wins := s.wins + 1), p) else s
      ensures Holds(SettleOrYield(s, p))
    {
      won := !settled;
      settled := true;
    }

    /** The budget the invoker's gate reads: positive exactly when a call about to go out may still go. */
    method Remaining(now: int, ghost s: State) returns (ms: int)
      requires Holds(s)
      ensures ms == Deadline(s, end - now)
      ensures s.pc == Invoking && s.cell != Dispatched ==> (OnDispatch(s, end - now).cell == Dispatched <==> ms > 0)
    {
      ms := if settled then 0 else end - now;
    }
  }
}
