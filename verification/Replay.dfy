/**
  Pause and resume of a code execution by deterministic replay.

  The guest is a deterministic program: what it does next is a function of the outcomes it has seen.
  The sandbox keeps no live machine across a tool call; it re-runs the guest from the start against
  the journal, performs the first call the journal does not answer, appends, and goes round again.
  The journaling host stores a row before handing an outcome on, and stores nothing at a pause.
  What the host answers, when policy asks for approval and what the operator decides are events.
*/
module Replay {
  import opened Wrappers
  import opened Causes
  import opened ReplayJournal

  datatype Action = Emit(request: Request) | Return(value: Text) | Throw(name: Text, message: Text)

  type Guest = seq<Outcome> -> Action

  datatype Sandboxed = Suspended(request: Request) | Finished(action: Action) | Nondeterministic

  function Seen(journal: seq<Entry>): (outcomes: seq<Outcome>) {
    seq(|journal|, i requires 0 <= i < |journal| => journal[i].outcome)
  }

  /** One guest run: journaled calls are answered by position, and must be the calls the guest emits. */
  function RunFrom(guest: Guest, journal: seq<Entry>, cursor: nat): Sandboxed
    requires cursor <= |journal|
    decreases |journal| - cursor
  {
    var action := guest(Seen(journal[..cursor]));
    if !action.Emit? then Finished(action)
    else if cursor == |journal| then Suspended(action.request)
    else if journal[cursor].request != action.request then Nondeterministic
    else RunFrom(guest, journal, cursor + 1)
  }

  /** The run as the sandbox performs it, with the cursor the bridge advances. */
  method RunOnce(guest: Guest, journal: seq<Entry>) returns (run: Sandboxed)
    ensures run == RunFrom(guest, journal, 0)
  {
    var cursor := 0;
    while true
      invariant cursor <= |journal|
      invariant RunFrom(guest, journal, 0) == RunFrom(guest, journal, cursor)
      decreases |journal| - cursor
    {
      var action := guest(Seen(journal[..cursor]));
      if !action.Emit? {
        return Finished(action);
      }
      if cursor == |journal| {
        return Suspended(action.request);
      }
      if journal[cursor].request != action.request {
        return Nondeterministic;
      }
      cursor := cursor + 1;
    }
  }

  // ---------------------------------------------------------------- the execution

  /** What the store keeps of an outcome: a failure's texts are made printable, a value is kept. */
  function Stored(o: Outcome): Outcome {
    match o
    case Ok(_) => o
    case Failed(name, message) => Failed(FormatCause(name), FormatCause(message))
  }

  datatype Decision = Approve | Deny

  datatype Staged = Staged(call: Request, decision: Decision)

  datatype End =
    | ByGuest(action: Action)
    | ReplayFailed
    | Diverged
    | Ambiguous
    | PauseRefused
    | Interrupted
    | ResumeRefused
    | Swept

  datatype Phase =
    | Driving(journal: seq<Entry>, ordinal: nat, staged: Option<Staged>)
    | Paused(call: Request)
    | Ended(end: End)

  /** `asked` and `answers`: every operation the host was asked for while live, and what it answered. */
  datatype State = State(rows: seq<Row>, phase: Phase, asked: seq<Request>, answers: seq<Outcome>)

  /**
    `Early` is a failed lookup of the tool or of its scope, before any decision or policy is consulted:
    a decision staged for the call stays staged.
  */
  datatype Reply =
    | Answer(outcome: Outcome, stored: bool)
    | Early(name: Text, message: Text, stored: bool)
    | NeedsApproval(recorded: bool)
    | Lost

  datatype Event = Turn(reply: Reply, late: bool) | Resume(admitted: bool, decision: Decision) | Crash

  const START := State([], Driving([], 0, None), [], [])

  function Close(s: State, end: End): State { s.(phase := Ended(end)) }

  /** A repeated identical row is a no-op, a different row under the same ordinal is an error. */
  function Append(rows: seq<Row>, row: Row): Option<seq<Row>> {
    if forall r :: r in rows ==> r.ordinal != row.ordinal then Some(rows + [row])
    else if row in rows then Some(rows)
    else None
  }

  /** The barrier: an outcome is stored before it is handed on; an unstored one ends the execution. */
  function Answered(s: State, request: Request, outcome: Outcome, stored: bool, late: bool): State
    requires s.phase.Driving?
  {
    var s1 := s.(asked := s.asked + [request]);
    var rows := Append(s.rows, Row(s.phase.ordinal, Entry(request, Stored(outcome))));
    if !stored || rows.None? then Close(s1, Ambiguous)
    else
      var s2 := s1.(rows := rows.value, answers := s.answers + [outcome]);
      if late then Close(s2, Interrupted)
      else s2.(phase := Driving(s.phase.journal + [Entry(request, outcome)], s.phase.ordinal + 1, s.phase.staged))
  }

  /** The host side of one live call.  A staged decision is consulted before policy, and only by a call. */
  function Perform(s: State, request: Request, reply: Reply, late: bool): State
    requires s.phase.Driving?
  {
    if reply.Early? then Answered(s, request, Failed(reply.name, reply.message), reply.stored, late)
    else if request.op == Call && s.phase.staged.Some? then
      var staged := s.phase.staged.value;
      var s1 := s.(phase := s.phase.(staged := None));
      if staged.call != request then Close(s1, Diverged)
      else match reply
        case Lost => Close(s1.(asked := s.asked + [request]), Ambiguous)
        case Answer(outcome, stored) =>
          if staged.decision == Deny && !outcome.Failed? then s
          else Answered(s1, request, outcome, stored, late)
        case NeedsApproval(_) => s
    else match reply
      case Lost => Close(s.(asked := s.asked + [request]), Ambiguous)
      case Answer(outcome, stored) => Answered(s, request, outcome, stored, late)
      case NeedsApproval(recorded) =>
        if request.op == Call && recorded then s.(phase := Paused(request)) else Close(s, PauseRefused)
  }

  function OnTurn(guest: Guest, s: State, reply: Reply, late: bool): State {
    if !s.phase.Driving? then s
    else match RunFrom(guest, s.phase.journal, 0)
      case Finished(action) => Close(s, ByGuest(action))
      case Nondeterministic => Close(s, ReplayFailed)
      case Suspended(request) => Perform(s, request, reply, late)
  }

  /** An admitted resume rebuilds the prefix from the rows and stages the decision for the paused call. */
  function OnResume(s: State, admitted: bool, decision: Decision): State {
    if !s.phase.Paused? then s
    else if !admitted then Close(s, ResumeRefused)
    else match ToSandboxJournal(s.rows)
      case None => Close(s, ResumeRefused)
      case Some(prefix) => s.(phase := Driving(prefix, |prefix|, Some(Staged(s.phase.call, decision))))
  }

  function Step(guest: Guest, s: State, e: Event): State {
    match e
    case Turn(reply, late) => OnTurn(guest, s, reply, late)
    case Resume(admitted, decision) => OnResume(s, admitted, decision)
    case Crash => if s.phase.Driving? then Close(s, Swept) else s
  }

  function Run(guest: Guest, events: seq<Event>): State {
    if events == [] then START
    else Step(guest, Run(guest, events[..|events| - 1]), events[|events| - 1])
  }

  lemma RunOne(guest: Guest, before: seq<Event>, e: Event)
    ensures Run(guest, before + [e]) == Step(guest, Run(guest, before), e)
  {
    assert (before + [e])[..|before|] == before;
  }

  // ---------------------------------------------------------------- rows, whatever the guest does

  predicate RowsInv(s: State) {
    && Contiguous(s.rows) && |s.answers| == |s.rows|
    && (forall i :: 0 <= i < |s.rows| ==> i < |s.asked| && s.rows[i].entry == Entry(s.asked[i], Stored(s.answers[i])))
    && (|s.asked| == |s.answers| || (s.phase.Ended? && |s.asked| == |s.answers| + 1))
    && (s.phase.Driving? ==> s.phase.ordinal == |s.rows| == |s.phase.journal|)
  }

  lemma AnsweredKeepsRows(s: State, request: Request, outcome: Outcome, stored: bool, late: bool)
    requires RowsInv(s) && s.phase.Driving?
    ensures RowsInv(Answered(s, request, outcome, stored, late))
  {
    assert forall r :: r in s.rows ==> r.ordinal < |s.rows|;
  }

  lemma PerformKeepsRows(s: State, request: Request, reply: Reply, late: bool)
    requires RowsInv(s) && s.phase.Driving?
    ensures RowsInv(Perform(s, request, reply, late))
  {
    if reply.Early? {
      AnsweredKeepsRows(s, request, Failed(reply.name, reply.message), reply.stored, late);
    } else if reply.Answer? {
      AnsweredKeepsRows(s, request, reply.outcome, reply.stored, late);
      AnsweredKeepsRows(s.(phase := s.phase.(staged := None)), request, reply.outcome, reply.stored, late);
    }
  }

  lemma TurnKeepsRows(guest: Guest, s: State, reply: Reply, late: bool)
    requires RowsInv(s)
    ensures RowsInv(OnTurn(guest, s, reply, late))
  {
    if s.phase.Driving? {
      var run := RunFrom(guest, s.phase.journal, 0);
      if run.Suspended? { PerformKeepsRows(s, run.request, reply, late); }
    }
  }

  lemma ResumeKeepsRows(s: State, admitted: bool, decision: Decision)
    requires RowsInv(s)
    ensures RowsInv(OnResume(s, admitted, decision))
    ensures s.phase.Paused? && admitted ==>
              OnResume(s, admitted, decision).phase == Driving(Entries(s.rows), |s.rows|, Some(Staged(s.phase.call,
                  decision)))
  {
    OrderedRowsComeBack(s.rows);
  }

  /**
    In every run the stored ordinals are exactly 0..n-1 and row `i` is the `i`-th operation performed,
    so every pause is resumable and no row is ever dropped or refused by the store's duplicate check.
  */
  lemma {:induction false} RowsAreTheAnswers(guest: Guest, events: seq<Event>)
    ensures RowsInv(Run(guest, events))
    decreases |events|
  {
    if events != [] {
      var before := events[..|events| - 1];
      RowsAreTheAnswers(guest, before);
      match events[|events| - 1]
      case Turn(reply, late) => TurnKeepsRows(guest, Run(guest, before), reply, late);
      case Resume(admitted, decision) => ResumeKeepsRows(Run(guest, before), admitted, decision);
      case Crash =>
    }
  }

  // ---------------------------------------------------------------- the replay is invisible

  /** Storing changes no answer: values always, failures whose texts are kept as they are. */
  predicate Stable(answers: seq<Outcome>) {
    forall o :: o in answers ==> Stored(o) == o
  }

  lemma StableIsCheckable(o: Outcome)
    ensures Stored(o) == o <==> o.Ok? || (Unchanged(o.name) && Unchanged(o.message))
  {
    if o.Failed? {
      FormatKeepsExactly(o.name);
      FormatKeepsExactly(o.message);
    }
  }

  function Zip(asked: seq<Request>, answers: seq<Outcome>): seq<Entry>
    requires |asked| == |answers|
  {
    seq(|asked|, i requires 0 <= i < |asked| => Entry(asked[i], answers[i]))
  }

  /** The execution so far is one uninterrupted guest run on the answers given, and replay never failed. */
  predicate Faithful(guest: Guest, s: State) {
    && |s.answers| <= |s.asked| <= |s.answers| + 1
    && (forall i :: 0 <= i < |s.asked| ==> guest(s.answers[..i]) == Emit(s.asked[i]))
    && (match s.phase
        case Driving(journal, _, staged) =>
          && |s.asked| == |s.answers| && journal == Zip(s.asked, s.answers)
          && (staged.Some? ==> staged.value.call.op == Call)
        case Paused(call) => |s.asked| == |s.answers| && call.op == Call && guest(s.answers) == Emit(call)
        case Ended(ByGuest(action)) => |s.asked| == |s.answers| && !action.Emit? && guest(s.answers) == action
        case Ended(end) => end != ReplayFailed)
  }

  /** Run against its own journal, the guest passes every entry and does next what it would do live. */
  lemma {:induction false} RunsThroughOwnJournal(guest: Guest, asked: seq<Request>, answers: seq<Outcome>, cursor: nat)
    requires |asked| == |answers| && cursor <= |asked|
    requires forall i :: 0 <= i < |asked| ==> guest(answers[..i]) == Emit(asked[i])
    ensures RunFrom(guest, Zip(asked, answers), cursor) ==
              if guest(answers).Emit? then Suspended(guest(answers).request) else Finished(guest(answers))
    decreases |asked| - cursor
  {
    assert Seen(Zip(asked, answers)[..cursor]) == answers[..cursor];
    if cursor < |asked| {
      RunsThroughOwnJournal(guest, asked, answers, cursor + 1);
    } else {
      assert answers[..cursor] == answers;
    }
  }

  lemma AnsweredKeepsFaith(guest: Guest, s: State, request: Request, outcome: Outcome, stored: bool, late: bool)
    requires RowsInv(s) && Faithful(guest, s) && s.phase.Driving? && guest(s.answers) == Emit(request)
    ensures Faithful(guest, Answered(s, request, outcome, stored, late))
  {
    assert s.answers[..|s.answers|] == s.answers;
    var answers := s.answers + [outcome];
    assert forall i :: 0 <= i <= |s.answers| ==> answers[..i] == s.answers[..i];
    assert Zip(s.asked + [request], answers) == Zip(s.asked, s.answers) + [Entry(request, outcome)];
  }

  lemma PerformKeepsFaith(guest: Guest, s: State, request: Request, reply: Reply, late: bool)
    requires RowsInv(s) && Faithful(guest, s) && s.phase.Driving? && guest(s.answers) == Emit(request)
    ensures Faithful(guest, Perform(s, request, reply, late))
  {
    var undecided := s.(phase := s.phase.(staged := None));
    assert s.answers[..|s.answers|] == s.answers;
    if reply.Answer? {
      AnsweredKeepsFaith(guest, s, request, reply.outcome, reply.stored, late);
      AnsweredKeepsFaith(guest, undecided, request, reply.outcome, reply.stored, late);
    } else if reply.Early? {
      AnsweredKeepsFaith(guest, s, request, Failed(reply.name, reply.message), reply.stored, late);
    }
  }

  lemma TurnKeepsFaith(guest: Guest, s: State, reply: Reply, late: bool)
    requires RowsInv(s) && Faithful(guest, s)
    ensures Faithful(guest, OnTurn(guest, s, reply, late))
  {
    if s.phase.Driving? {
      RunsThroughOwnJournal(guest, s.asked, s.answers, 0);
      if guest(s.answers).Emit? { PerformKeepsFaith(guest, s, guest(s.answers).request, reply, late); }
    }
  }

  lemma ResumeKeepsFaith(guest: Guest, s: State, admitted: bool, decision: Decision)
    requires RowsInv(s) && Faithful(guest, s) && Stable(s.answers)
    ensures Faithful(guest, OnResume(s, admitted, decision))
  {
    ResumeKeepsRows(s, admitted, decision);
    if s.phase.Paused? {
      assert Entries(s.rows) == Zip(s.asked, s.answers);
    }
  }

  lemma AnswersOnlyGrow(guest: Guest, s: State, e: Event)
    ensures s.answers <= Step(guest, s, e).answers
  {
  }

  /** The answers the last admitted resume read back from the rows; later ones were only ever seen live. */
  function Reread(guest: Guest, events: seq<Event>): (reread: seq<Outcome>)
    ensures reread <= Run(guest, events).answers
    decreases |events|
  {
    if events == [] then []
    else
      var before, e := events[..|events| - 1], events[|events| - 1];
      AnswersOnlyGrow(guest, Run(guest, before), e);
      if e.Resume? && e.admitted && Run(guest, before).phase.Paused? then Run(guest, before).answers
      else Reread(guest, before)
  }

  lemma RereadBefore(guest: Guest, events: seq<Event>)
    requires events != []
    ensures
      var before, e := events[..|events| - 1], events[|events| - 1];
      && Reread(guest, before) <= Reread(guest, events)
      && (Run(guest, before).phase.Paused? && e.Resume? && e.admitted ==>
            Reread(guest, events) == Run(guest, before).answers)
  {
  }

  lemma PrefixStable(answers: seq<Outcome>, more: seq<Outcome>)
    requires Stable(more) && answers <= more
    ensures Stable(answers)
  {
    forall o | o in answers ensures Stored(o) == o {
      assert o in more;
    }
  }

  /**
    For every guest, every run of pauses, decisions, crashes and host answers: if storing changed none of
    the answers a resume read back, the whole run is one uninterrupted run of the guest on its answers.
    Each operation was performed once, in the guest's order; replay never fails; a paused execution waits
    for exactly the guest's next call; and a result is the one the guest gives to those answers.
  */
  lemma {:induction false} ReplayIsInvisible(guest: Guest, events: seq<Event>)
    requires Stable(Reread(guest, events))
    ensures Faithful(guest, Run(guest, events))
    decreases |events|
  {
    if events != [] {
      var before := events[..|events| - 1];
      var s, e := Run(guest, before), events[|events| - 1];
      RereadBefore(guest, events);
      PrefixStable(Reread(guest, before), Reread(guest, events));
      ReplayIsInvisible(guest, before);
      RowsAreTheAnswers(guest, before);
      match e
      case Turn(reply, late) => TurnKeepsFaith(guest, s, reply, late);
      case Resume(admitted, decision) =>
        if s.phase.Paused? && admitted {
          ResumeKeepsFaith(guest, s, admitted, decision);
        }
      case Crash =>
    }
  }

  /** One live round after a journal the guest agrees with, policy or the operator allowing the call. */
  lemma LiveTurn(guest: Guest, s: State, calls: seq<Request>, seen: seq<Outcome>, outcome: Outcome)
    requires RowsInv(s) && s.phase.Driving? && |calls| == |seen| && s.phase.journal == Zip(calls, seen)
    requires forall i :: 0 <= i < |calls| ==> guest(seen[..i]) == Emit(calls[i])
    requires guest(seen).Emit?
    requires var request := guest(seen).request;
             s.phase.staged == None || (request.op == Call && s.phase.staged == Some(Staged(request, Approve)))
    ensures var request := guest(seen).request;
            var t := OnTurn(guest, s, Answer(outcome, true), false);
            && t.phase == Driving(Zip(calls + [request], seen + [outcome]), s.phase.ordinal + 1, None)
            && t.asked == s.asked + [request] && t.answers == s.answers + [outcome]
  {
    RunsThroughOwnJournal(guest, calls, seen, 0);
    var request := guest(seen).request;
    assert forall r :: r in s.rows ==> r.ordinal < |s.rows|;
    assert Zip(calls + [request], seen + [outcome]) == Zip(calls, seen) + [Entry(request, outcome)];
  }

  /** A run in which policy allowed every call: the answers arrive one after another and nothing pauses. */
  function InPlace(answers: seq<Outcome>): seq<Event> {
    seq(|answers|, i requires 0 <= i < |answers| => Turn(Answer(answers[i], true), false))
  }

  predicate RanInPlace(guest: Guest, asked: seq<Request>, answers: seq<Outcome>) {
    var s := Run(guest, InPlace(answers));
    && |asked| == |answers| && s.asked == asked && s.answers == answers
    && s.phase == Driving(Zip(asked, answers), |answers|, None)
  }

  lemma InPlaceExtends(guest: Guest, asked: seq<Request>, answers: seq<Outcome>, last: Outcome)
    requires RanInPlace(guest, asked, answers) && guest(answers).Emit? && Emitted(guest, asked, answers)
    ensures RanInPlace(guest, asked + [guest(answers).request], answers + [last])
  {
    RowsAreTheAnswers(guest, InPlace(answers));
    LiveTurn(guest, Run(guest, InPlace(answers)), asked, answers, last);
    RunOne(guest, InPlace(answers), Turn(Answer(last, true), false));
    assert InPlace(answers + [last]) == InPlace(answers) + [Turn(Answer(last, true), false)];
  }

  lemma NothingInPlace(guest: Guest)
    ensures RanInPlace(guest, [], [])
  {
    assert InPlace([]) == [];
  }

  predicate Emitted(guest: Guest, asked: seq<Request>, answers: seq<Outcome>) {
    |asked| == |answers| && forall i :: 0 <= i < |asked| ==> guest(answers[..i]) == Emit(asked[i])
  }

  lemma EmittedPrefix(guest: Guest, asked: seq<Request>, answers: seq<Outcome>, n: nat)
    requires Emitted(guest, asked, answers) && n <= |asked|
    ensures Emitted(guest, asked[..n], answers[..n])
    ensures n < |asked| ==> guest(answers[..n]) == Emit(asked[n])
  {
    assert forall i :: 0 <= i < n ==> answers[..n][..i] == answers[..i];
  }

  lemma {:induction false} InPlaceRun(guest: Guest, asked: seq<Request>, answers: seq<Outcome>)
    requires Emitted(guest, asked, answers)
    ensures RanInPlace(guest, asked, answers)
    decreases |answers|
  {
    if answers == [] {
      NothingInPlace(guest);
      assert asked == [] && answers == [];
    } else {
      var n := |answers| - 1;
      var a, o := asked[..n], answers[..n];
      EmittedPrefix(guest, asked, answers, n);
      InPlaceRun(guest, a, o);
      InPlaceExtends(guest, a, o, answers[n]);
      assert asked == a + [asked[n]] && answers == o + [answers[n]];
    }
  }

  /**
    If storing changed none of the answers a resume read back, an execution that paused and resumed any
    number of times and then finished performed the same operations, got the same answers, stored the same
    rows and ended the same way as the run approved in place on those answers.
  */
  lemma SameAsApprovedInPlace(guest: Guest, events: seq<Event>, reply: Reply, late: bool)
    requires Run(guest, events).phase.Ended? && Run(guest, events).phase.end.ByGuest?
    requires Stable(Reread(guest, events))
    ensures var s := Run(guest, events);
            Run(guest, InPlace(s.answers) + [Turn(reply, late)]) == s
  {
    var s := Run(guest, events);
    ReplayIsInvisible(guest, events);
    RowsAreTheAnswers(guest, events);
    InPlaceRun(guest, s.asked, s.answers);
    RunsThroughOwnJournal(guest, s.asked, s.answers, 0);
    RunOne(guest, InPlace(s.answers), Turn(reply, late));
    RowsAreTheAnswers(guest, InPlace(s.answers));
    assert Run(guest, InPlace(s.answers)).rows == s.rows;
  }

  // ---------------------------------------------------------------- what a resume goes on with

  function AsStored(answers: seq<Outcome>): (stored: seq<Outcome>)
    ensures |stored| == |answers| && (Stable(answers) ==> stored == answers)
  {
    seq(|answers|, i requires 0 <= i < |answers| => Stored(answers[i]))
  }

  /** What the guest is shown: what a resume read back, as stored, and everything later as it was answered. */
  function Shown(guest: Guest, events: seq<Event>): seq<Outcome> {
    var reread := Reread(guest, events);
    AsStored(reread) + Run(guest, events).answers[|reread|..]
  }

  lemma ShownIfStable(guest: Guest, events: seq<Event>)
    requires Stable(Reread(guest, events))
    ensures Shown(guest, events) == Run(guest, events).answers
  {
    var reread, answers := Reread(guest, events), Run(guest, events).answers;
    assert AsStored(reread) == reread;
    assert reread + answers[|reread|..] == answers;
  }

  predicate ShownJournal(s: State, shown: seq<Outcome>) {
    s.phase.Driving? ==> |s.asked| == |shown| && s.phase.journal == Zip(s.asked, shown)
  }

  lemma PerformShows(s: State, request: Request, reply: Reply, late: bool, shown: seq<Outcome>)
    requires RowsInv(s) && s.phase.Driving? && ShownJournal(s, shown)
    ensures
      var t := Perform(s, request, reply, late);
      ShownJournal(t, if t.answers == s.answers then shown else shown + t.answers[|s.answers|..])
  {
    var t := Perform(s, request, reply, late);
    if t.phase.Driving? && t.answers != s.answers {
      var last := t.answers[|s.answers|];
      assert t.answers == s.answers + [last];
      assert Zip(s.asked + [request], shown + [last]) == Zip(s.asked, shown) + [Entry(request, last)];
    }
  }

  /** In every run, stable or not, the journal of a drive pairs what was asked with what is shown. */
  lemma {:induction false} JournalIsShown(guest: Guest, events: seq<Event>)
    ensures ShownJournal(Run(guest, events), Shown(guest, events))
    decreases |events|
  {
    if events != [] {
      var before := events[..|events| - 1];
      var s, e := Run(guest, before), events[|events| - 1];
      JournalIsShown(guest, before);
      RowsAreTheAnswers(guest, before);
      if e.Turn? && s.phase.Driving? {
        TurnShows(guest, before, s, e.reply, e.late);
        assert Reread(guest, events) == Reread(guest, before);
      } else if e.Resume? && s.phase.Paused? {
        ResumeKeepsRows(s, e.admitted, e.decision);
        assert Entries(s.rows) == Zip(s.asked, AsStored(s.answers));
        assert e.admitted ==> Shown(guest, events) == AsStored(s.answers);
      }
    }
  }

  lemma TurnShows(guest: Guest, before: seq<Event>, s: State, reply: Reply, late: bool)
    requires s == Run(guest, before) && RowsInv(s) && s.phase.Driving? && ShownJournal(s, Shown(guest, before))
    ensures
      var t := OnTurn(guest, s, reply, late);
      && s.answers <= t.answers
      && ShownJournal(t, AsStored(Reread(guest, before)) + t.answers[|Reread(guest, before)|..])
  {
    var t, n := OnTurn(guest, s, reply, late), |Reread(guest, before)|;
    AnswersOnlyGrow(guest, s, Turn(reply, late));
    var run := RunFrom(guest, s.phase.journal, 0);
    if run.Suspended? {
      PerformShows(s, run.request, reply, late, Shown(guest, before));
      assert t.answers[n..] == s.answers[n..] + t.answers[|s.answers|..];
    }
  }

  /** A guest goes on live exactly when it passes its whole journal, each entry being what it asks for. */
  lemma {:induction false} GoesOnIff(guest: Guest, asked: seq<Request>, shown: seq<Outcome>, cursor: nat)
    requires |asked| == |shown| && cursor <= |asked|
    ensures
      RunFrom(guest, Zip(asked, shown), cursor).Suspended? <==>
        guest(shown).Emit? && forall i :: cursor <= i < |asked| ==> guest(shown[..i]) == Emit(asked[i])
    ensures
      RunFrom(guest, Zip(asked, shown), cursor).Suspended? ==>
        guest(shown) == Emit(RunFrom(guest, Zip(asked, shown), cursor).request)
    decreases |asked| - cursor
  {
    assert Seen(Zip(asked, shown)[..cursor]) == shown[..cursor];
    if cursor < |asked| {
      GoesOnIff(guest, asked, shown, cursor + 1);
    } else {
      assert shown[..cursor] == shown;
    }
  }

  /** Shown these answers, the guest repeats what was asked and then does this. */
  predicate Repeats(guest: Guest, asked: seq<Request>, shown: seq<Outcome>, request: Request) {
    Emitted(guest, asked, shown) && guest(shown) == Emit(request)
  }

  /**
    After an admitted approval the next live operation is the paused call, answered once, exactly when the
    guest, shown its answers as stored, repeats itself up to that call; it always does when storing
    changed none of them.
  */
  lemma ApprovedCallRunsNext(guest: Guest, events: seq<Event>, outcome: Outcome)
    requires Run(guest, events).phase.Paused?
    ensures
      var s := Run(guest, events);
      var t := Run(guest, events + [Resume(true, Approve), Turn(Answer(outcome, true), false)]);
      && (t.asked == s.asked + [s.phase.call] && t.answers == s.answers + [outcome] && t.phase.Driving?
            && t.phase.staged.None?
          <==> Repeats(guest, s.asked, AsStored(s.answers), s.phase.call))
      && (Stable(s.answers) ==> Repeats(guest, s.asked, AsStored(s.answers), s.phase.call))
  {
    var s := Run(guest, events);
    var e1 := events + [Resume(true, Approve)];
    RunOne(guest, events, Resume(true, Approve));
    RunOne(guest, e1, Turn(Answer(outcome, true), false));
    assert e1 + [Turn(Answer(outcome, true), false)]
        == events + [Resume(true, Approve), Turn(Answer(outcome, true), false)];
    RowsAreTheAnswers(guest, events);
    PausedOnACall(guest, events);
    ResumedGoesOn(guest, s, Approve);
    ApprovedTurn(guest, s, outcome);
    if Stable(s.answers) {
      PrefixStable(Reread(guest, events), s.answers);
      ReplayIsInvisible(guest, events);
    }
  }

  lemma {:induction false} PausedOnACall(guest: Guest, events: seq<Event>)
    ensures var s := Run(guest, events); s.phase.Paused? ==> s.phase.call.op == Call
    ensures
      var s := Run(guest, events);
      s.phase.Driving? && s.phase.staged.Some? ==> s.phase.staged.value.call.op == Call
    decreases |events|
  {
    if events != [] {
      PausedOnACall(guest, events[..|events| - 1]);
    }
  }

  /** An admitted resume drives from what was stored. */
  lemma ResumedGoesOn(guest: Guest, s: State, decision: Decision)
    requires RowsInv(s) && s.phase.Paused?
    ensures
      && |s.asked| == |s.answers|
      && OnResume(s, true, decision) == s.(phase :=
           Driving(Zip(s.asked, AsStored(s.answers)), |s.asked|, Some(Staged(s.phase.call, decision))))
  {
    ResumeKeepsRows(s, true, decision);
    assert Entries(s.rows) == Zip(s.asked, AsStored(s.answers));
  }

  lemma ApprovedTurn(guest: Guest, s: State, outcome: Outcome)
    requires RowsInv(s) && s.phase.Paused? && s.phase.call.op == Call
    ensures
      var t := OnTurn(guest, OnResume(s, true, Approve), Answer(outcome, true), false);
      t.asked == s.asked + [s.phase.call] && t.answers == s.answers + [outcome] && t.phase.Driving?
        && t.phase.staged.None?
      <==> Repeats(guest, s.asked, AsStored(s.answers), s.phase.call)
  {
    ResumedGoesOn(guest, s, Approve);
    ResumeKeepsRows(s, true, Approve);
    GoesOnIff(guest, s.asked, AsStored(s.answers), 0);
    assert forall r :: r in s.rows ==> r.ordinal < |s.rows|;
    var t := OnTurn(guest, OnResume(s, true, Approve), Answer(outcome, true), false);
    if t.asked == s.asked + [s.phase.call] {
      assert t.asked[|s.asked|] == s.phase.call;
    }
  }

  // ---------------------------------------------------------------- when it diverges

  /**
    In every run a live turn ends the execution as a divergence exactly when a decision is staged, the
    lookups before the decision succeed, and the guest, shown its journal, repeats what it asked for and
    then makes a call other than the one the decision was staged for.
  */
  lemma DivergesIff(guest: Guest, events: seq<Event>, reply: Reply, late: bool)
    requires Run(guest, events).phase.Driving?
    ensures
      var s := Run(guest, events);
      Run(guest, events + [Turn(reply, late)]).phase == Ended(Diverged) <==>
        TurnDiverges(guest, s, Shown(guest, events), reply)
    ensures Stable(Reread(guest, events)) ==> Shown(guest, events) == Run(guest, events).answers
  {
    JournalIsShown(guest, events);
    PausedOnACall(guest, events);
    RunOne(guest, events, Turn(reply, late));
    OneTurnDiverges(guest, Run(guest, events), Shown(guest, events), reply, late);
  }

  predicate TurnDiverges(guest: Guest, s: State, shown: seq<Outcome>, reply: Reply)
    requires s.phase.Driving?
  {
    && s.phase.staged.Some? && !reply.Early? && Emitted(guest, s.asked, shown)
    && var action := guest(shown);
       action.Emit? && action.request.op == Call && action.request != s.phase.staged.value.call
  }

  lemma OneTurnDiverges(guest: Guest, s: State, shown: seq<Outcome>, reply: Reply, late: bool)
    requires s.phase.Driving? && ShownJournal(s, shown)
    ensures OnTurn(guest, s, reply, late).phase == Ended(Diverged) <==> TurnDiverges(guest, s, shown, reply)
  {
    GoesOnIff(guest, s.asked, shown, 0);
  }

  /**
    A call the operator decided may fail in the lookup of its tool or scope, before its decision is
    looked up.  The guest is answered with that failure, the decision stays staged, and the next turn
    ends the execution as a divergence exactly when what the guest then does is another call than the
    one it was paused on: doing that call again consumes the decision after all.  That the guest got so
    far at all, shown its answers as stored, holds whenever storing changed none of them.
  */
  lemma EarlyFaultDivergesIff(guest: Guest, events: seq<Event>, decision: Decision, name: Text, message: Text,
                              reply: Reply, late: bool)
    requires Run(guest, events).phase.Paused?
    ensures
      var s := Run(guest, events);
      var next := guest(AsStored(s.answers) + [Failed(name, message)]);
      var fault := [Resume(true, decision), Turn(Early(name, message, true), false)];
      Run(guest, events + fault + [Turn(reply, late)]).phase == Ended(Diverged) <==>
        && Emitted(guest, s.asked, AsStored(s.answers)) && guest(AsStored(s.answers)).Emit?
        && !reply.Early? && next.Emit? && next.request.op == Call && next.request != s.phase.call
    ensures
      var s := Run(guest, events);
      Stable(s.answers) ==> Repeats(guest, s.asked, AsStored(s.answers), s.phase.call)
  {
    var s := Run(guest, events);
    var e1 := events + [Resume(true, decision)];
    var e2 := events + [Resume(true, decision), Turn(Early(name, message, true), false)];
    assert e2 == e1 + [Turn(Early(name, message, true), false)];
    RunOne(guest, events, Resume(true, decision));
    RunOne(guest, e1, Turn(Early(name, message, true), false));
    RunOne(guest, e2, Turn(reply, late));
    RowsAreTheAnswers(guest, events);
    ResumedGoesOn(guest, s, decision);
    ResumeKeepsRows(s, true, decision);
    EarlyKeepsStaged(guest, Run(guest, e1), AsStored(s.answers), name, message);
    if Run(guest, e2).phase.Driving? {
      var seen := AsStored(s.answers) + [Failed(name, message)];
      OneTurnDiverges(guest, Run(guest, e2), seen, reply, late);
      EmittedOneMore(guest, s.asked, AsStored(s.answers), Run(guest, e2).asked[|s.asked|], Failed(name, message));
    }
    if Stable(s.answers) {
      PrefixStable(Reread(guest, events), s.answers);
      ReplayIsInvisible(guest, events);
    }
  }

  lemma EmittedOneMore(guest: Guest, asked: seq<Request>, seen: seq<Outcome>, request: Request, outcome: Outcome)
    requires |asked| == |seen|
    ensures Emitted(guest, asked + [request], seen + [outcome]) <==> Repeats(guest, asked, seen, request)
  {
    var more := seen + [outcome];
    assert forall i :: 0 <= i <= |seen| ==> more[..i] == seen[..i];
    assert seen[..|seen|] == seen;
    if Emitted(guest, asked + [request], more) {
      assert guest(more[..|seen|]) == Emit((asked + [request])[|asked|]);
      assert forall i :: 0 <= i < |asked| ==> guest(more[..i]) == Emit((asked + [request])[i]);
    }
  }

  /** A lookup that fails is shown like any answer, and what is staged stays staged. */
  lemma EarlyKeepsStaged(guest: Guest, s: State, shown: seq<Outcome>, name: Text, message: Text)
    requires RowsInv(s) && s.phase.Driving? && ShownJournal(s, shown)
    ensures
      var t := OnTurn(guest, s, Early(name, message, true), false);
      && t.phase != Ended(Diverged) && !t.phase.Paused?
      && (t.phase.Driving? <==> Emitted(guest, s.asked, shown) && guest(shown).Emit?)
      && (t.phase.Driving? ==>
            && ShownJournal(t, shown + [Failed(name, message)])
            && t.phase.staged == s.phase.staged && t.asked == s.asked + [guest(shown).request])
  {
    GoesOnIff(guest, s.asked, shown, 0);
    assert forall r :: r in s.rows ==> r.ordinal < |s.rows|;
    if guest(shown).Emit? {
      var request, failed := guest(shown).request, Failed(name, message);
      assert Zip(s.asked + [request], shown + [failed]) == Zip(s.asked, shown) + [Entry(request, failed)];
    }
  }

  predicate FailsEarly(e: Event) { e.Turn? && e.reply.Early? }

  /** What is staged is the guest's next call: so it is taken, and never diverges. */
  predicate NextIsStaged(guest: Guest, s: State) {
    && s.phase != Ended(Diverged)
    && (s.phase.Driving? && s.phase.staged.Some? ==> guest(s.answers) == Emit(s.phase.staged.value.call))
  }

  /** Without such a failure, and without an answer changed before a resume, no run diverges. */
  lemma {:induction false} NoEarlyFaultNoDivergence(guest: Guest, events: seq<Event>)
    requires Stable(Reread(guest, events)) && forall e :: e in events ==> !FailsEarly(e)
    ensures NextIsStaged(guest, Run(guest, events))
    decreases |events|
  {
    if events != [] {
      var before := events[..|events| - 1];
      var s, e := Run(guest, before), events[|events| - 1];
      RereadBefore(guest, events);
      PrefixStable(Reread(guest, before), Reread(guest, events));
      assert forall f :: f in before ==> f in events;
      NoEarlyFaultNoDivergence(guest, before);
      ReplayIsInvisible(guest, before);
      RowsAreTheAnswers(guest, before);
      assert e in events;
      StepKeepsStaged(guest, s, e);
    }
  }

  lemma StepKeepsStaged(guest: Guest, s: State, e: Event)
    requires RowsInv(s) && Faithful(guest, s) && NextIsStaged(guest, s) && !FailsEarly(e)
    ensures NextIsStaged(guest, Step(guest, s, e))
  {
    if e.Turn? && s.phase.Driving? {
      OneTurnDiverges(guest, s, s.answers, e.reply, e.late);
      RunsThroughOwnJournal(guest, s.asked, s.answers, 0);
    }
  }

  // ---------------------------------------------------------------- when it is seen

  const PING := Request(Call, [])

  function Pings(n: nat): (calls: seq<Request>)
    ensures |calls| == n
  {
    seq(n, i => PING)
  }

  /** Calls the same call again and again, and does something else from the `n`-th answer on if one has changed. */
  function Turncoat(n: nat, k: nat, expected: Outcome, other: Action): Guest
    requires k < n
  {
    (seen: seq<Outcome>) => if |seen| < n || (k < |seen| && seen[k] == expected) then Emit(PING) else other
  }

  function Watcher(n: nat, k: nat, expected: Outcome): Guest
    requires k < n
  {
    seen => if |seen| < n then Emit(PING)
            else Return(if k < |seen| && seen[k] == expected then [1] else [0])
  }

  lemma Extend(guest: Guest, before: seq<Event>, e: Event) returns (events: seq<Event>)
    ensures Run(guest, events) == Step(guest, Run(guest, before), e)
    ensures Reread(guest, events) == if e.Resume? && e.admitted && Run(guest, before).phase.Paused?
                                     then Run(guest, before).answers else Reread(guest, before)
    ensures forall f :: f in events ==> f in before || f == e
  {
    events := before + [e];
    RunOne(guest, before, e);
    assert events[..|events| - 1] == before;
  }

  /** A guest that only ever made this call is paused on it after these answers, approved and resumed. */
  lemma PingsResumed(guest: Guest, answers: seq<Outcome>) returns (events: seq<Event>)
    requires Emitted(guest, Pings(|answers|), answers) && guest(answers) == Emit(PING)
    ensures Run(guest, events) == PingsState(answers) && RowsInv(Run(guest, events))
    ensures Reread(guest, events) == answers && forall e :: e in events ==> !FailsEarly(e)
  {
    events := PingsAnswered(guest, answers);
    PingPauses(guest, answers, Run(guest, events));
    events := Extend(guest, events, Turn(NeedsApproval(true), false));
    events := Extend(guest, events, Resume(true, Approve));
    RowsAreTheAnswers(guest, events);
  }

  predicate PingsDriving(s: State, answers: seq<Outcome>) {
    && RowsInv(s) && s.asked == Pings(|answers|) && s.answers == answers
    && s.phase == Driving(Zip(s.asked, answers), |answers|, None)
  }

  lemma PingsAnswered(guest: Guest, answers: seq<Outcome>) returns (events: seq<Event>)
    requires Emitted(guest, Pings(|answers|), answers)
    ensures PingsDriving(Run(guest, events), answers) && forall e :: e in events ==> !FailsEarly(e)
  {
    events := InPlace(answers);
    InPlaceRun(guest, Pings(|answers|), answers);
    RowsAreTheAnswers(guest, events);
  }

  function PingsState(answers: seq<Outcome>): State {
    var calls := Pings(|answers|);
    State(RowsOf(Zip(calls, AsStored(answers))),
          Driving(Zip(calls, AsStored(answers)), |answers|, Some(Staged(PING, Approve))), calls, answers)
  }

  function RowsOf(entries: seq<Entry>): seq<Row> {
    seq(|entries|, i requires 0 <= i < |entries| => Row(i, entries[i]))
  }

  lemma PingPauses(guest: Guest, answers: seq<Outcome>, s: State)
    requires PingsDriving(s, answers) && guest(answers) == Emit(PING) && Emitted(guest, s.asked, answers)
    ensures
      var paused := OnTurn(guest, s, NeedsApproval(true), false);
      && paused.phase.Paused? && paused.answers == answers
      && OnResume(paused, true, Approve) == PingsState(answers)
  {
    RunsThroughOwnJournal(guest, s.asked, answers, 0);
    var paused := OnTurn(guest, s, NeedsApproval(true), false);
    ResumedGoesOn(guest, paused, Approve);
    assert s.rows == RowsOf(Zip(s.asked, AsStored(answers)));
  }

  /** What the guest does on the changed answer is what the resumed run comes to. */
  lemma ChangedAnswerTurns(reread: seq<Outcome>, k: nat, other: Action, reply: Reply)
    returns (guest: Guest, events: seq<Event>)
    requires k < |reread| && Stored(reread[k]) != reread[k] && !reply.Early?
    requires other.Emit? ==> other.request.op == Call && other.request != PING
    ensures Reread(guest, events) == reread && Run(guest, events).answers == reread
    ensures guest(reread) == Emit(PING) && forall e :: e in events ==> !FailsEarly(e)
    ensures Run(guest, events).phase == Ended(if other.Emit? then Diverged else ByGuest(other))
  {
    guest := Turncoat(|reread|, k, reread[k], other);
    events := PingsResumed(guest, reread);
    assert AsStored(reread)[k] == Stored(reread[k]);
    RunsThroughOwnJournal(guest, Pings(|reread|), AsStored(reread), 0);
    events := Extend(guest, events, Turn(reply, false));
  }

  /**
    The condition is exact.  For any answers, every run of every guest that was resumed with them is
    invisible if and only if storing changes none of them.
  */
  lemma InvisibleIffStable(reread: seq<Outcome>)
    ensures
      (forall guest: Guest, events :: Reread(guest, events) == reread ==> Faithful(guest, Run(guest, events)))
        <==> Stable(reread)
  {
    if Stable(reread) {
      forall guest: Guest, events | Reread(guest, events) == reread
        ensures Faithful(guest, Run(guest, events))
      {
        ReplayIsInvisible(guest, events);
      }
    } else {
      var k: nat :| k < |reread| && Stored(reread[k]) != reread[k];
      var guest, events := ChangedAnswerTurns(reread, k, Return([]), Lost);
      assert !Faithful(guest, Run(guest, events));
    }
  }

  /** And so is the divergence: without a failed lookup, none of those runs diverges on the same condition. */
  lemma NeverDivergesIffStable(reread: seq<Outcome>)
    ensures
      (forall guest: Guest, events ::
         Reread(guest, events) == reread && (forall e :: e in events ==> !FailsEarly(e)) ==>
           Run(guest, events).phase != Ended(Diverged))
        <==> Stable(reread)
  {
    if Stable(reread) {
      forall guest: Guest, events | Reread(guest, events) == reread && forall e :: e in events ==> !FailsEarly(e)
        ensures Run(guest, events).phase != Ended(Diverged)
      {
        NoEarlyFaultNoDivergence(guest, events);
      }
    } else {
      var k: nat :| k < |reread| && Stored(reread[k]) != reread[k];
      var guest, events := ChangedAnswerTurns(reread, k, Emit(Request(Call, [0])), Lost);
      assert Run(guest, events).phase == Ended(Diverged);
    }
  }

  /** Resumed with what the store kept, the watcher has been given these further answers. */
  predicate WatcherAt(s: State, answers: seq<Outcome>, later: seq<Outcome>) {
    && s.answers == answers + later && s.phase.Driving? && RowsInv(s)
    && s.phase.journal == Zip(Pings(|answers| + |later|), AsStored(answers) + later)
    && (s.phase.staged == None || s.phase.staged == Some(Staged(PING, Approve)))
  }

  lemma WatcherOnce(guest: Guest, s: State, answers: seq<Outcome>, later: seq<Outcome>, last: Outcome)
    requires WatcherAt(s, answers, later)
    requires OnlyPings(guest, |answers| + |later|)
    ensures WatcherAt(OnTurn(guest, s, Answer(last, true), false), answers, later + [last])
  {
    var n, shown := |answers| + |later|, AsStored(answers) + later;
    LiveTurn(guest, s, Pings(n), shown, last);
    TurnKeepsRows(guest, s, Answer(last, true), false);
    assert (answers + later) + [last] == answers + (later + [last]);
    assert shown + [last] == AsStored(answers) + (later + [last]);
    assert Pings(n) + [PING] == Pings(n + 1);
  }

  /** Up to this many answers the guest only ever makes the one call. */
  ghost predicate OnlyPings(guest: Guest, n: nat) {
    forall seen: seq<Outcome> :: |seen| <= n ==> guest(seen) == Emit(PING)
  }

  lemma PingsEmitted(guest: Guest, n: nat, seen: seq<Outcome>)
    requires OnlyPings(guest, n) && |seen| <= n + 1
    ensures Emitted(guest, Pings(|seen|), seen)
  {
  }

  lemma WatcherStarts(guest: Guest, answers: seq<Outcome>) returns (events: seq<Event>)
    requires OnlyPings(guest, |answers|)
    ensures WatcherAt(Run(guest, events), answers, []) && Reread(guest, events) == answers
  {
    PingsEmitted(guest, |answers|, answers);
    events := PingsResumed(guest, answers);
    assert answers + [] == answers && AsStored(answers) + [] == AsStored(answers);
  }

  lemma {:induction false} WatcherGoesOn(guest: Guest, answers: seq<Outcome>, later: seq<Outcome>, m: nat)
    returns (events: seq<Event>)
    requires later != [] && OnlyPings(guest, |answers| + |later| - 1) && m <= |later|
    ensures WatcherAt(Run(guest, events), answers, later[..m]) && Reread(guest, events) == answers
    decreases m
  {
    if m == 0 {
      events := WatcherStarts(guest, answers);
      assert later[..0] == [];
    } else {
      var before := WatcherGoesOn(guest, answers, later, m - 1);
      assert later[..m] == later[..m - 1] + [later[m - 1]];
      events := WatcherGrows(guest, before, answers, later[..m - 1], later[m - 1]);
    }
  }

  lemma WatcherGrows(guest: Guest, before: seq<Event>, answers: seq<Outcome>, later: seq<Outcome>, last: Outcome)
    returns (events: seq<Event>)
    requires WatcherAt(Run(guest, before), answers, later) && Reread(guest, before) == answers
    requires OnlyPings(guest, |answers| + |later|)
    ensures WatcherAt(Run(guest, events), answers, later + [last]) && Reread(guest, events) == answers
  {
    WatcherOnce(guest, Run(guest, before), answers, later, last);
    events := Extend(guest, before, Turn(Answer(last, true), false));
  }

  lemma WatcherInPlace(guest: Guest, n: nat, k: nat, expected: Outcome, answers: seq<Outcome>, idle: Reply)
    requires k < n == |answers| && guest == Watcher(n, k, expected)
    ensures Run(guest, InPlace(answers) + [Turn(idle, false)]).phase == Ended(ByGuest(guest(answers)))
  {
    InPlaceRun(guest, Pings(n), answers);
    RunsThroughOwnJournal(guest, Pings(n), answers, 0);
    RunOne(guest, InPlace(answers), Turn(idle, false));
  }

  /**
    What is seen may be the result alone.  If storing changes any one of the answers given before a pause,
    then whatever the paused call and later ones are answered, some guest performs every operation once,
    with the same answers, and returns something else than it returns when they are given without the pause.
  */
  lemma ChangedAnswerIsSeen(answers: seq<Outcome>, k: nat, later: seq<Outcome>, idle: Reply)
    returns (guest: Guest, events: seq<Event>)
    requires k < |answers| && Stored(answers[k]) != answers[k] && later != []
    ensures var s := Run(guest, events);
            && Reread(guest, events) == answers && s.answers == answers + later
            && s.phase == Ended(ByGuest(Return([0])))
            && Run(guest, InPlace(s.answers) + [Turn(idle, false)]).phase == Ended(ByGuest(Return([1])))
  {
    var n := |answers| + |later|;
    guest := Watcher(n, k, answers[k]);
    events := WatcherGoesOn(guest, answers, later, |later|);
    assert later[..|later|] == later;
    WatcherReturns(guest, Run(guest, events), answers, later, idle);
    assert (AsStored(answers) + later)[k] == Stored(answers[k]);
    WatcherInPlace(guest, n, k, answers[k], answers + later, idle);
    events := Extend(guest, events, Turn(idle, false));
  }

  lemma WatcherReturns(guest: Guest, s: State, answers: seq<Outcome>, later: seq<Outcome>, idle: Reply)
    requires WatcherAt(s, answers, later) && guest(AsStored(answers) + later).Return?
    requires |later| > 0 && OnlyPings(guest, |answers| + |later| - 1)
    ensures OnTurn(guest, s, idle, false) == s.(phase := Ended(ByGuest(guest(AsStored(answers) + later))))
  {
    PingsEmitted(guest, |answers| + |later| - 1, AsStored(answers) + later);
    RunsThroughOwnJournal(guest, Pings(|answers| + |later|), AsStored(answers) + later, 0);
  }
}
