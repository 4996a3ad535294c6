/** Which provision requests run, what a failed refresh is given, and that every request can settle. */
module ProvisionProgress {
  import opened Wrappers
  import opened Provision
  import opened ProvisionEffects
  import SourceLocks

  // ---------------------------------------------------------------- what is taken from a request

  /** A typed secret is taken as it is, for the url beside it; one of nothing but spaces is none. */
  lemma SecretIsTakenAsTyped(request: Request)
    requires request.Onboard?
    ensures
      var text := if request.secret.Some? then request.secret.value else "";
      && ((exists c :: c in text && '!' <= c <= '~') ==> Supplied(request) == Some(Secret(text, request.url)))
      && ((forall c :: c in text ==> c in SPACES) ==> Supplied(request) == None)
  {
  }

  /** A request for a name the store refuses never gets past its first step. */
  predicate Named(s: State) {
    && (forall ns :: ns in s.store ==> ValidNamespace(ns))
    && (forall i :: 0 <= i < |s.tasks| && !Waits(s.tasks[i].phase) ==> ValidNamespace(s.tasks[i].namespace))
  }

  /** Whatever its outcome, a step moves its own task alone. */
  lemma GoMoves(s: State, i: nat, outcome: Outcome)
    requires i < |s.tasks|
    ensures
      var t := OnGo(s, i, outcome);
      && |t.tasks| == |s.tasks| && t.tasks[i].namespace == s.tasks[i].namespace
      && (forall j :: 0 <= j < |s.tasks| && j != i ==> t.tasks[j] == s.tasks[j])
  {
    if Running(s, i) {
      GoMovesOne(s, i, outcome);
    }
  }

  predicate Waits(phase: Phase) { phase in {Queued, Validating, Done} }

  lemma GoesOnNamed(s: State, i: nat, outcome: Outcome)
    requires i < |s.tasks| && Waits(s.tasks[i].phase) && i < |OnGo(s, i, outcome).tasks|
    ensures !Waits(OnGo(s, i, outcome).tasks[i].phase) ==> ValidNamespace(s.tasks[i].namespace)
  {
  }

  lemma StoresOwnName(s: State, i: nat, outcome: Outcome)
    requires i < |s.tasks|
    ensures
      var t := OnGo(s, i, outcome);
      t.store.Keys == s.store.Keys
      || (s.tasks[i].phase.Committing? && t.store.Keys == s.store.Keys + {s.tasks[i].namespace})
  {
    if !s.tasks[i].phase.Committing? {
      StoreStays(s, i, outcome);
    }
  }

  lemma GoKeepsNamed(s: State, i: nat, outcome: Outcome)
    requires Named(s)
    ensures Named(OnGo(s, i, outcome))
  {
    if i < |s.tasks| {
      GoMoves(s, i, outcome);
      StoresOwnName(s, i, outcome);
      if Waits(s.tasks[i].phase) {
        GoesOnNamed(s, i, outcome);
      }
    }
  }

  /** Nothing is stored, sent or fetched for an invalid namespace, in any run. */
  lemma {:induction false} OnlyNamedGoOn(events: seq<Event>)
    ensures Named(Run(events))
    decreases |events|
  {
    if events != [] {
      var s, e := Run(events[..|events| - 1]), events[|events| - 1];
      OnlyNamedGoOn(events[..|events| - 1]);
      if e.Go? {
        GoKeepsNamed(s, e.i, e.outcome);
      }
    }
  }

  // ---------------------------------------------------------------- prefixes

  /** A namespace's own row never stands in its way, and any other row with the prefix does. */
  lemma PrefixIsTakenByOthers(s: State, ns: string, own: Stored, other: string, prefix: string)
    ensures PrefixTaken(s.(store := s.store[ns := own]), ns, prefix) == PrefixTaken(s, ns, prefix)
    ensures other in s.store && other != ns && s.store[other].row.Some? && s.store[other].row.value.prefix == prefix ==>
              PrefixTaken(s, ns, prefix)
    ensures (forall k :: k in s.store && k != ns ==> s.store[k].row.None? || s.store[k].row.value.prefix != prefix) ==>
              !PrefixTaken(s, ns, prefix)
  {
    var t := s.(store := s.store[ns := own]);
    if PrefixTaken(s, ns, prefix) {
      var k :| k in s.store && k != ns && s.store[k].row.Some? && s.store[k].row.value.prefix == prefix;
      assert k in t.store && t.store[k] == s.store[k];
    }
    if PrefixTaken(t, ns, prefix) {
      var k :| k in t.store && k != ns && t.store[k].row.Some? && t.store[k].row.value.prefix == prefix;
      assert k in s.store && t.store[k] == s.store[k];
    }
  }

  /** Two sources are never stored under one prefix. */
  predicate DistinctPrefixes(store: map<string, Stored>) {
    forall a, b :: a in store && b in store && a != b && store[a].row.Some? && store[b].row.Some? ==>
      store[a].row.value.prefix != store[b].row.value.prefix
  }

  lemma CommitKeepsPrefixes(s: State, i: nat, outcome: Outcome)
    requires DistinctPrefixes(s.store) && i < |s.tasks| && s.tasks[i].phase.Committing?
    ensures DistinctPrefixes(OnCommit(s, i, outcome).store)
  {
    var ns, plan := s.tasks[i].namespace, s.tasks[i].phase.plan;
    var t := OnCommit(s, i, outcome);
    if t.store != s.store {
      assert !PrefixTaken(s, ns, plan.prefix);
      assert t.store[ns].row.value.prefix == plan.prefix;
    }
  }

  /** In every run the store's unique prefix holds, whatever was decided before the batch and in between. */
  lemma {:induction false} PrefixesStayDistinct(events: seq<Event>)
    ensures DistinctPrefixes(Run(events).store)
    decreases |events|
  {
    if events != [] {
      var s, e := Run(events[..|events| - 1]), events[|events| - 1];
      PrefixesStayDistinct(events[..|events| - 1]);
      if e.Go? && e.i < |s.tasks| {
        if s.tasks[e.i].phase.Committing? {
          CommitKeepsPrefixes(s, e.i, e.outcome);
        } else {
          StoreStays(s, e.i, e.outcome);
        }
      }
    }
  }

  // ---------------------------------------------------------------- turns

  /** Every earlier request for this namespace has settled. */
  predicate ItsTurn(s: State, i: nat)
    requires i < |s.tasks|
  {
    forall j :: 0 <= j < i && s.tasks[j].namespace == s.tasks[i].namespace ==> s.tasks[j].phase == Done
  }

  lemma ReadyIffItsTurn(s: State, i: nat)
    requires Locked(s) && i < |s.tasks| && s.tasks[i].phase == Queued
    ensures SourceLocks.Ready(s.locks, i) <==> ItsTurn(s, i)
  {
    var p := s.locks.runs[i].predecessor.value;
    assert SourceLocks.Earlier(s.locks, p, i);
    if ItsTurn(s, i) {
      assert s.tasks[p].phase == Done;
    }
    if SourceLocks.Ready(s.locks, i) {
      forall j | 0 <= j < i && s.tasks[j].namespace == s.tasks[i].namespace ensures s.tasks[j].phase == Done {
        assert SourceLocks.Earlier(s.locks, j, i);
        if j != p {
          assert SourceLocks.Earlier(s.locks, j, p);
        }
      }
    }
  }

  /** In every run a queued request starts exactly once all earlier ones for its namespace have settled. */
  lemma StartsIffItsTurn(events: seq<Event>, i: nat)
    requires i < |Run(events).tasks| && Run(events).tasks[i].phase == Queued
    ensures
      var s, t := Run(events), Step(Run(events), Wake(i));
      if ItsTurn(s, i) then t.tasks == s.tasks[i := s.tasks[i].(phase := Validating)] && t.store == s.store
      else t == s
  {
    RunKeepsCredentials(events);
    ReadyIffItsTurn(Run(events), i);
  }

  // ---------------------------------------------------------------- the refresh

  /** A refresh that failed is tried once more; failing again it leaves the catalog behind, and says so. */
  lemma RefreshIsTriedTwice(s: State, i: nat)
    requires i < |s.tasks| && s.tasks[i].phase == Refreshing(false) && Of(s, s.tasks[i].namespace).tools.Some?
    ensures
      var ns := s.tasks[i].namespace;
      var again := OnGo(s, i, Fault);
      && again == With(s, i, Refreshing(true))
      && OnGo(again, i, Fine) == With(s, i, Mutating(Of(s, ns).tools.value))
      && OnGo(again, i, Fault).catalog == s.catalog && OnGo(again, i, Fault).stale == s.stale + {ns}
      && OnGo(again, i, Fault).tasks == s.tasks[i := s.tasks[i].(phase := Done)]
  {
    var again := OnGo(s, i, Fault);
    assert again == With(s, i, Refreshing(true));
    assert With(again, i, Mutating(Of(s, s.tasks[i].namespace).tools.value)).tasks
        == With(s, i, Mutating(Of(s, s.tasks[i].namespace).tools.value)).tasks;
  }

  // ---------------------------------------------------------------- everything settles

  /** How many faults a request can still run into. */
  function Left(phase: Phase): nat {
    match phase
    case Done => 0
    case HaveRow(_, _) => 3
    case Sending(_, _) => 2
    case Refreshing(retried) => if retried then 1 else 2
    case _ => 1
  }

  lemma FaultMoves(s: State, i: nat)
    requires i < |s.tasks| && s.tasks[i].phase != Queued && s.tasks[i].phase != Done
    requires s.tasks[i].phase.Mutating? ==> s.tasks[i].phase.commit < |s.commits|
    ensures
      var phase := OnGo(s, i, Fault).tasks[i].phase;
      phase != Queued && Left(phase) < Left(s.tasks[i].phase)
  {
  }

  lemma {:induction false} FaultsSettle(events: seq<Event>, i: nat) returns (more: seq<Event>)
    requires i < |Run(events).tasks| && Run(events).tasks[i].phase != Queued
    ensures OwnSteps(events, more, i) && |Run(more).tasks| == |Run(events).tasks| && Run(more).tasks[i].phase == Done
    ensures forall j :: 0 <= j < |Run(events).tasks| && j != i ==> Run(more).tasks[j] == Run(events).tasks[j]
    decreases Left(Run(events).tasks[i].phase)
  {
    var s := Run(events);
    if s.tasks[i].phase == Done {
      more := events;
    } else {
      MutatesKnown(events, i);
      FaultMoves(s, i);
      GoMoves(s, i, Fault);
      var once := Goes(events, i, Fault);
      more := FaultsSettle(once, i);
      OwnStepsThen(events, once, more, i);
    }
  }

  lemma MutatesKnown(events: seq<Event>, i: nat)
    requires i < |Run(events).tasks|
    ensures Run(events).tasks[i].phase.Mutating? ==> Run(events).tasks[i].phase.commit < |Run(events).commits|
  {
    RunKeepsCredentials(events);
    RunKeepsCatalog(events);
    var s := Run(events);
    assert TaskInv(Of(s, s.tasks[i].namespace), s.tasks[i]);
    assert IsCommitOf(s.commits, Of(s, s.tasks[i].namespace).tools, s.tasks[i].namespace);
  }

  predicate SettledBelow(s: State, n: nat) { forall j :: 0 <= j < n && j < |s.tasks| ==> s.tasks[j].phase == Done }

  /** Only steps of requests already made were added. */
  predicate NoNewRequest(events: seq<Event>, more: seq<Event>) {
    events <= more && forall k :: |events| <= k < |more| ==> more[k].Wake? || more[k].Go?
  }

  lemma {:induction false} SettlesBelow(events: seq<Event>, n: nat) returns (more: seq<Event>)
    requires n <= |Run(events).tasks|
    ensures NoNewRequest(events, more) && |Run(more).tasks| == |Run(events).tasks| && SettledBelow(Run(more), n)
    decreases n
  {
    if n == 0 {
      more := events;
    } else {
      var i := n - 1;
      var before := SettlesBelow(events, i);
      var woken := Woken(before, i);
      more := FaultsSettle(woken, i);
      assert forall k :: |before| <= k < |more| && k < |woken| ==> more[k] == woken[k];
      assert forall k :: |events| <= k < |more| && k < |before| ==> more[k] == before[k];
    }
  }

  lemma Woken(events: seq<Event>, i: nat) returns (more: seq<Event>)
    requires i < |Run(events).tasks| && SettledBelow(Run(events), i)
    ensures NoNewRequest(events, more) && |Run(more).tasks| == |Run(events).tasks| && SettledBelow(Run(more), i)
    ensures Run(more).tasks[i].phase != Queued
  {
    more := events;
    if Run(events).tasks[i].phase == Queued {
      StartsIffItsTurn(events, i);
      more := events + [Wake(i)];
      assert more[..|events|] == events;
    }
  }

  /**
    No request is ever stuck: from every reachable state, with no help but their own steps, even if every
    one of those that can fail does, all requests settle.
  */
  lemma EveryRequestCanSettle(events: seq<Event>) returns (more: seq<Event>)
    ensures NoNewRequest(events, more) && |Run(more).tasks| == |Run(events).tasks|
    ensures forall i :: 0 <= i < |Run(more).tasks| ==> Run(more).tasks[i].phase == Done
  {
    more := SettlesBelow(events, |Run(events).tasks|);
  }
}
