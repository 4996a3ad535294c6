/** How an execution pauses, ends and survives a crash: each way exactly when its own cause happened. */
module ReplayEnds {
  import opened Wrappers
  import opened ReplayJournal
  import opened Replay

  function Crashes(n: nat): seq<Event> { if n == 0 then [] else Crashes(n - 1) + [Crash] }

  /** What later events make of a state. */
  function Onward(guest: Guest, s: State, later: seq<Event>): State {
    if later == [] then s
    else Step(guest, Onward(guest, s, later[..|later| - 1]), later[|later| - 1])
  }

  lemma {:induction false} RunIsOnward(guest: Guest, before: seq<Event>, later: seq<Event>)
    ensures Run(guest, before + later) == Onward(guest, Run(guest, before), later)
    decreases |later|
  {
    if later == [] {
      assert before + later == before;
    } else {
      var n := |later| - 1;
      RunIsOnward(guest, before, later[..n]);
      LastStep(guest, before + later[..n], later[n], before + later);
    }
  }

  lemma LastStep(guest: Guest, front: seq<Event>, last: Event, events: seq<Event>)
    requires events == front + [last]
    ensures Run(guest, events) == Step(guest, Run(guest, front), last)
  {
    RunOne(guest, front, last);
  }

  lemma {:induction false} CrashesChangeNothing(guest: Guest, events: seq<Event>, n: nat)
    requires !Run(guest, events).phase.Driving?
    ensures Run(guest, events + Crashes(n)) == Run(guest, events)
    decreases n
  {
    if n == 0 {
      assert events + Crashes(0) == events;
    } else {
      CrashesChangeNothing(guest, events, n - 1);
      RunOne(guest, events + Crashes(n - 1), Crash);
      assert events + Crashes(n) == (events + Crashes(n - 1)) + [Crash];
    }
  }

  /**
    A pause is durable: however often the process dies before the operator decides, the execution goes on
    from the decision, for every guest and everything that follows, as if none of it had happened.
  */
  lemma PauseOutlivesCrashes(guest: Guest, events: seq<Event>, n: nat, later: seq<Event>)
    requires Run(guest, events).phase.Paused?
    ensures Run(guest, events + Crashes(n)) == Run(guest, events)
    ensures Run(guest, events + Crashes(n) + later) == Run(guest, events + later)
  {
    CrashesChangeNothing(guest, events, n);
    RunIsOnward(guest, events + Crashes(n), later);
    RunIsOnward(guest, events, later);
  }

  /** The crash that swept it. */
  predicate Struck(guest: Guest, events: seq<Event>, k: nat) {
    k < |events| && events[k] == Crash && Run(guest, events[..k]).phase.Driving?
  }

  /** And what has ended stays as it ended. */
  lemma EndStays(guest: Guest, s: State, e: Event)
    requires s.phase.Ended?
    ensures Step(guest, s, e) == s
  {
  }

  lemma OnlyCrashSweeps(guest: Guest, s: State, e: Event)
    requires !s.phase.Ended?
    ensures Step(guest, s, e).phase == Ended(Swept) <==> e == Crash && s.phase.Driving?
  {
  }

  /** A run is swept exactly if a crash struck while it was being driven. */
  lemma {:induction false} SweptIffStruck(guest: Guest, events: seq<Event>)
    ensures Run(guest, events).phase == Ended(Swept) <==> exists k: nat :: Struck(guest, events, k)
    decreases |events|
  {
    if events != [] {
      var n := |events| - 1;
      var before, e := events[..n], events[n];
      SweptIffStruck(guest, before);
      forall k: nat | k < n ensures Struck(guest, events, k) <==> Struck(guest, before, k) {
        assert before[..k] == events[..k];
      }
      if Run(guest, before).phase.Ended? {
        EndStays(guest, Run(guest, before), e);
        assert !Struck(guest, events, n);
        if Struck(guest, before, 0) || exists k: nat :: Struck(guest, before, k) {
          var k: nat :| Struck(guest, before, k);
          assert Struck(guest, events, k);
        }
      } else {
        OnlyCrashSweeps(guest, Run(guest, before), e);
        assert Struck(guest, events, n) <==> e == Crash && Run(guest, before).phase.Driving?;
        if k: nat :| Struck(guest, events, k) && k < n {
          assert Struck(guest, before, k);
          StruckEnds(guest, before, k);
        }
      }
    }
  }

  lemma {:induction false} StruckEnds(guest: Guest, events: seq<Event>, k: nat)
    requires Struck(guest, events, k)
    ensures Run(guest, events).phase == Ended(Swept)
    decreases |events|
  {
    var front, last := events[..|events| - 1], events[|events| - 1];
    LastStep(guest, front, last, events);
    if k < |front| {
      assert front[..k] == events[..k];
      StruckEnds(guest, front, k);
      EndStays(guest, Run(guest, front), last);
    } else {
      OnlyCrashSweeps(guest, Run(guest, front), last);
    }
  }

  // ---------------------------------------------------------------- how a live turn ends

  /** What the guest is handed for its call, if the host answered it; a denied call is never answered with a value. */
  function Given(s: State, request: Request, reply: Reply): Option<Outcome>
    requires s.phase.Driving?
  {
    if reply.Early? then Some(Failed(reply.name, reply.message))
    else if !reply.Answer? then None
    else if request.op == Call && s.phase.staged.Some? && s.phase.staged.value.decision == Deny && reply.outcome.Ok?
    then None
    else Some(reply.outcome)
  }

  predicate WasStored(reply: Reply) { (reply.Answer? || reply.Early?) && reply.stored }

  /**
    In every run, for the call the guest goes on with: it pauses exactly when policy asks for an approval
    that can be recorded and nothing is staged for a call; it ends as ambiguous exactly when the call was
    lost or its outcome could not be stored; and its answer is handed on exactly when it was stored, with
    the row of its own ordinal, ending the execution only when that came too late.
  */
  lemma LiveTurnEnds(guest: Guest, events: seq<Event>, request: Request, reply: Reply, late: bool)
    requires Run(guest, events).phase.Driving?
    requires Repeats(guest, Run(guest, events).asked, Shown(guest, events), request)
    requires !TurnDiverges(guest, Run(guest, events), Shown(guest, events), reply)
    ensures
      var s, t := Run(guest, events), Run(guest, events + [Turn(reply, late)]);
      var decided := request.op == Call && s.phase.staged.Some?;
      var given := Given(s, request, reply);
      && (t.phase.Paused? <==> reply == NeedsApproval(true) && request.op == Call && s.phase.staged.None?)
      && (t.phase.Paused? ==> t == s.(phase := Paused(request)))
      && (t.phase == Ended(PauseRefused) <==> reply.NeedsApproval? && !decided && !t.phase.Paused?)
      && (t.phase == Ended(Ambiguous) <==> reply.Lost? || (given.Some? && !WasStored(reply)))
      && (t.phase == Ended(Ambiguous) ==> t.asked == s.asked + [request] && t.answers == s.answers && t.rows == s.rows)
      && (t.answers != s.answers <==> given.Some? && WasStored(reply))
      && (given.Some? && WasStored(reply) ==>
            && t.asked == s.asked + [request] && t.answers == s.answers + [given.value]
            && t.rows == s.rows + [Row(|s.rows|, Entry(request, Stored(given.value)))]
            && (if late then t.phase == Ended(Interrupted)
                else t.phase == Driving(s.phase.journal + [Entry(request, given.value)], |s.rows| + 1,
                                        if decided && !reply.Early? then None else s.phase.staged)))
  {
    var s := Run(guest, events);
    RowsAreTheAnswers(guest, events);
    JournalIsShown(guest, events);
    GoesOnIff(guest, s.asked, Shown(guest, events), 0);
    RunOne(guest, events, Turn(reply, late));
    assert RunFrom(guest, s.phase.journal, 0) == Suspended(request);
    PerformEnds(s, request, reply, late);
  }

  lemma PerformEnds(s: State, request: Request, reply: Reply, late: bool)
    requires RowsInv(s) && s.phase.Driving?
    requires !reply.Early? && request.op == Call && s.phase.staged.Some? ==> s.phase.staged.value.call == request
    ensures
      var t := Perform(s, request, reply, late);
      var decided := request.op == Call && s.phase.staged.Some?;
      var given := Given(s, request, reply);
      && (t.phase.Paused? <==> reply == NeedsApproval(true) && request.op == Call && s.phase.staged.None?)
      && (t.phase.Paused? ==> t == s.(phase := Paused(request)))
      && (t.phase == Ended(PauseRefused) <==> reply.NeedsApproval? && !decided && !t.phase.Paused?)
      && (t.phase == Ended(Ambiguous) <==> reply.Lost? || (given.Some? && !WasStored(reply)))
      && (t.phase == Ended(Ambiguous) ==> t.asked == s.asked + [request] && t.answers == s.answers && t.rows == s.rows)
      && (t.answers != s.answers <==> given.Some? && WasStored(reply))
      && (given.Some? && WasStored(reply) ==>
            && t.asked == s.asked + [request] && t.answers == s.answers + [given.value]
            && t.rows == s.rows + [Row(|s.rows|, Entry(request, Stored(given.value)))]
            && (if late then t.phase == Ended(Interrupted)
                else t.phase == Driving(s.phase.journal + [Entry(request, given.value)], |s.rows| + 1,
                                        if decided && !reply.Early? then None else s.phase.staged)))
  {
    assert forall r :: r in s.rows ==> r.ordinal < |s.rows|;
  }

  /** How far the guest, shown its journal, repeats what it asked. */
  predicate RepeatsTo(guest: Guest, asked: seq<Request>, shown: seq<Outcome>, i: nat) {
    |asked| == |shown| && i <= |asked| && forall j :: 0 <= j < i ==> guest(shown[..j]) == Emit(asked[j])
  }

  /**
    In every run replay fails exactly when the guest, shown its journal, somewhere asks for another thing
    than it did before, and it ends with a result exactly when the guest gives that result, there or live.
  */
  lemma ReplayEndsIff(guest: Guest, events: seq<Event>, reply: Reply, late: bool)
    requires Run(guest, events).phase.Driving?
    ensures
      var s, t, shown := Run(guest, events), Run(guest, events + [Turn(reply, late)]), Shown(guest, events);
      && (t.phase == Ended(ReplayFailed) <==> exists i: nat :: AsksAnother(guest, s.asked, shown, i))
      && (t.phase.Ended? && t.phase.end.ByGuest? <==> exists i: nat :: Finishes(guest, s.asked, shown, i))
      && (forall i: nat :: Finishes(guest, s.asked, shown, i) ==>
            t == s.(phase := Ended(ByGuest(guest(shown[..i])))))
  {
    var s, shown := Run(guest, events), Shown(guest, events);
    JournalIsShown(guest, events);
    RunOne(guest, events, Turn(reply, late));
    var i := WhereReplayStops(guest, s.asked, shown, 0);
    StopsOnce(guest, s.asked, shown, i);
    TurnAtStop(guest, s, shown, i, reply, late);
  }

  /** Shown its first `i` outcomes the guest asks for another thing than it did. */
  predicate AsksAnother(guest: Guest, asked: seq<Request>, shown: seq<Outcome>, i: nat) {
    RepeatsTo(guest, asked, shown, i) && i < |asked| && guest(shown[..i]).Emit? && guest(shown[..i]) != Emit(asked[i])
  }

  /** Shown its first `i` outcomes the guest is done. */
  predicate Finishes(guest: Guest, asked: seq<Request>, shown: seq<Outcome>, i: nat) {
    RepeatsTo(guest, asked, shown, i) && !guest(shown[..i]).Emit?
  }

  lemma StopsOnce(guest: Guest, asked: seq<Request>, shown: seq<Outcome>, i: nat)
    requires RepeatsTo(guest, asked, shown, i)
    requires i < |asked| ==> guest(shown[..i]) != Emit(asked[i])
    ensures forall j: nat :: AsksAnother(guest, asked, shown, j) || Finishes(guest, asked, shown, j) ==> j == i
  {
    forall j: nat | AsksAnother(guest, asked, shown, j) || Finishes(guest, asked, shown, j) ensures j == i {
    }
  }

  lemma TurnAtStop(guest: Guest, s: State, shown: seq<Outcome>, i: nat, reply: Reply, late: bool)
    requires s.phase.Driving? && ShownJournal(s, shown) && RepeatsTo(guest, s.asked, shown, i)
    requires
      var run := RunFrom(guest, Zip(s.asked, shown), 0);
      if !guest(shown[..i]).Emit? then run == Finished(guest(shown[..i]))
      else if i == |s.asked| then run == Suspended(guest(shown[..i]).request)
      else run == Nondeterministic && guest(shown[..i]) != Emit(s.asked[i])
    ensures
      var t := OnTurn(guest, s, reply, late);
      && (t.phase == Ended(ReplayFailed) <==> AsksAnother(guest, s.asked, shown, i))
      && (t.phase.Ended? && t.phase.end.ByGuest? <==> Finishes(guest, s.asked, shown, i))
      && (Finishes(guest, s.asked, shown, i) ==> t == s.(phase := Ended(ByGuest(guest(shown[..i])))))
  {
  }

  lemma {:induction false} WhereReplayStops(guest: Guest, asked: seq<Request>, shown: seq<Outcome>, cursor: nat)
    returns (i: nat)
    requires RepeatsTo(guest, asked, shown, cursor)
    ensures RepeatsTo(guest, asked, shown, i) && cursor <= i
    ensures
      var run := RunFrom(guest, Zip(asked, shown), cursor);
      if !guest(shown[..i]).Emit? then run == Finished(guest(shown[..i]))
      else if i == |asked| then run == Suspended(guest(shown[..i]).request)
      else run == Nondeterministic && guest(shown[..i]) != Emit(asked[i])
    decreases |asked| - cursor
  {
    assert Seen(Zip(asked, shown)[..cursor]) == shown[..cursor];
    if cursor < |asked| && guest(shown[..cursor]) == Emit(asked[cursor]) {
      i := WhereReplayStops(guest, asked, shown, cursor + 1);
    } else {
      i := cursor;
    }
  }

  /** Only a pause can be resumed, and it is refused exactly when it is not admitted. */
  lemma ResumeRefusedIff(guest: Guest, events: seq<Event>, admitted: bool, decision: Decision)
    requires !Run(guest, events).phase.Ended?
    ensures
      var s, t := Run(guest, events), Run(guest, events + [Resume(admitted, decision)]);
      && (t.phase == Ended(ResumeRefused) <==> s.phase.Paused? && !admitted)
      && (s.phase.Paused? && admitted ==>
            t == s.(phase := Driving(Entries(s.rows), |s.rows|, Some(Staged(s.phase.call, decision)))))
      && (s.phase.Driving? ==> t == s)
  {
    RowsAreTheAnswers(guest, events);
    ResumeKeepsRows(Run(guest, events), admitted, decision);
    RunOne(guest, events, Resume(admitted, decision));
  }

  /** A row appended once more changes nothing, and another row under a stored ordinal is refused. */
  lemma AppendedOnce(rows: seq<Row>, row: Row, other: Row)
    requires Append(rows, row).Some?
    ensures row in Append(rows, row).value && rows <= Append(rows, row).value
    ensures Append(Append(rows, row).value, row) == Append(rows, row)
    ensures other.ordinal == row.ordinal && other !in Append(rows, row).value ==>
              Append(Append(rows, row).value, other) == None
    ensures (forall r :: r in rows ==> r.ordinal != row.ordinal) ==> Append(rows, row).value == rows + [row]
  {
    var after := Append(rows, row).value;
    if row !in rows {
      assert after[|rows|] == row;
    }
    assert exists r :: r in after && r.ordinal == row.ordinal;
  }
}
