/** What a provision request does: which are admitted, what they send, store and publish, and that they can succeed. */
module ProvisionEffects {
  import opened Wrappers
  import opened Catalogs
  import opened Provision
  import SourceLocks

  // ---------------------------------------------------------------- the decision

  function UrlOf(stored: Stored): Option<Url> { if stored.row.Some? then Some(stored.row.value.url) else None }

  /** What the request would change about a source that is there. */
  predicate Changes(request: Request, row: Row)
    requires request.Onboard?
  {
    request.url != row.url || request.prefix != row.prefix
  }

  /** A stored credential the request neither replaces nor clears, though it moves the source to another url. */
  predicate WouldCarry(request: Request, row: Row)
    requires request.Onboard?
  {
    row.hasCredential && request.url != row.url && Supplied(request).None? && !request.clearCredential
  }

  /**
    An onboarding is admitted exactly when its prefix is free, what it changes about a source that is there
    it was told to replace, and no stored credential would go along to another url; a revalidation exactly
    when there is a source.  Its plan is the source as asked for, or as it is.
  */
  lemma AdmittedIff(request: Request, stored: Stored, taken: bool)
    ensures
      var plan := Decide(request, UrlOf(stored), stored.row, taken);
      match request
      case Onboard(url, prefix, replace, clear, _) =>
        && (plan.Some? <==>
              !taken && (stored.row.Some? && Changes(request, stored.row.value) ==>
                           replace && !WouldCarry(request, stored.row.value)))
        && (plan.Some? ==>
              plan.value == Plan(url, prefix, Supplied(request), clear,
                                 stored.row.Some? && stored.row.value.hasCredential))
      case Revalidate =>
        && (plan.Some? <==> stored.row.Some?)
        && (plan.Some? ==>
              plan.value == Plan(stored.row.value.url, stored.row.value.prefix, None, false,
                                 stored.row.value.hasCredential))
  {
  }

  /** What a commit leaves: the source as planned, and the credential dropped, replaced, kept or absent with it. */
  lemma CommitLeaves(stored: Stored, plan: Plan, commit: nat)
    requires Paired(stored) && Fits(plan, stored)
    ensures
      var after := Committed(stored, plan, commit);
      && after.secret == (if plan.clear then None else if plan.supplied.Some? then plan.supplied else stored.secret)
      && after.row == Some(Row(plan.url, plan.prefix, after.secret.Some?)) && after.tools == Some(commit)
  {
  }

  // ---------------------------------------------------------------- what is sent, and what moves the store

  /**
    In every run a fetch carries exactly the credential it is due: the one the operator supplied, else the
    stored one if the request keeps it for the stored url, else none; and nothing else is ever sent.
  */
  lemma FetchCarriesWhatIsDue(events: seq<Event>, e: Event)
    ensures
      var s, t := Run(events), Step(Run(events), e);
      var sends := e.Go? && e.i < |s.tasks| && s.tasks[e.i].phase.Sending?;
      && (!sends ==> t.sent == s.sent)
      && (sends ==>
            var plan := s.tasks[e.i].phase.plan;
            var due := Due(plan, Of(s, s.tasks[e.i].namespace));
            && t.sent == s.sent + (if due.Some? then [Sent(plan.url, due.value)] else [])
            && t.tasks[e.i].phase == Awaiting(plan))
  {
    var s := Run(events);
    RunKeepsCredentials(events);
    if e.Go? && e.i < |s.tasks| {
      assert TaskInv(Of(s, s.tasks[e.i].namespace), s.tasks[e.i]);
      if !s.tasks[e.i].phase.Sending? {
        OthersSendNothing(s, e.i, e.outcome);
      }
    }
  }

  lemma OthersSendNothing(s: State, i: nat, outcome: Outcome)
    requires i < |s.tasks| && !s.tasks[i].phase.Sending?
    ensures OnGo(s, i, outcome).sent == s.sent
  {
  }

  /** The batch that lands: not refused by the store, and its prefix still free. */
  predicate Lands(s: State, e: Event) {
    && e.Go? && e.i < |s.tasks| && s.tasks[e.i].phase.Committing? && e.outcome != Fault
    && !PrefixTaken(s, s.tasks[e.i].namespace, s.tasks[e.i].phase.plan.prefix)
  }

  /**
    In every run what is stored moves only when a batch lands, for its own namespace alone, to what that
    request planned and fetched.
  */
  lemma StoreMovesOnlyByBatches(events: seq<Event>, e: Event, ns: string)
    ensures
      var s, t := Run(events), Step(Run(events), e);
      if Lands(s, e) && s.tasks[e.i].namespace == ns then
        && Of(t, ns) == Committed(Of(s, ns), s.tasks[e.i].phase.plan, |s.commits|)
        && t.commits == s.commits + [Commit(ns, s.tasks[e.i].phase.tools)]
      else Of(t, ns) == Of(s, ns)
  {
    var s := Run(events);
    if e.Go? && e.i < |s.tasks| && !s.tasks[e.i].phase.Committing? {
      StoreStays(s, e.i, e.outcome);
    }
  }

  lemma StoreStays(s: State, i: nat, outcome: Outcome)
    requires i < |s.tasks| && !s.tasks[i].phase.Committing?
    ensures OnGo(s, i, outcome).store == s.store
  {
    if !s.tasks[i].phase.Mutating? {
      OtherStepsLeaveCatalog(s, i, outcome);
    }
  }

  // ---------------------------------------------------------------- a request that succeeds

  predicate At(s: State, i: nat, namespace: string, request: Request, phase: Phase) {
    i < |s.tasks| && s.tasks[i] == Task(namespace, request, phase)
  }

  /** Only this request's steps were added. */
  predicate OwnSteps(events: seq<Event>, more: seq<Event>, i: nat) {
    events <= more && forall k :: |events| <= k < |more| ==> more[k].Go? && more[k].i == i
  }

  lemma Goes(events: seq<Event>, i: nat, outcome: Outcome) returns (more: seq<Event>)
    ensures OwnSteps(events, more, i) && Run(more) == OnGo(Run(events), i, outcome)
  {
    more := events + [Go(i, outcome)];
    assert more[..|events|] == events;
  }

  lemma OwnStepsThen(a: seq<Event>, b: seq<Event>, c: seq<Event>, i: nat)
    requires OwnSteps(a, b, i) && OwnSteps(b, c, i)
    ensures OwnSteps(a, c, i)
  {
    assert forall k :: |a| <= k < |b| ==> c[k] == b[k];
  }

  /** The reads: they only find out what is stored. */
  lemma ReadsStored(s: State, i: nat)
    requires i < |s.tasks| && s.tasks[i].phase == Validating && ValidNamespace(s.tasks[i].namespace)
    ensures
      var stored := Of(s, s.tasks[i].namespace);
      OnGo(OnGo(s, i, Fine), i, Fine) == With(s, i, HaveRow(UrlOf(stored), stored.row))
  {
  }

  /** From the decision to the fetch. */
  lemma DecidesToSend(events: seq<Event>, i: nat, plan: Plan) returns (more: seq<Event>)
    requires i < |Run(events).tasks| && Run(events).tasks[i].phase.HaveRow?
    requires
      var s := Run(events);
      var task := s.tasks[i];
      Decide(task.request, task.phase.url, task.phase.row,
             task.request.Onboard? && PrefixTaken(s, task.namespace, task.request.prefix)) == Some(plan)
    ensures OwnSteps(events, more, i)
    ensures exists auth :: Run(more) == With(Run(events), i, Sending(plan, auth))
  {
    var s := Run(events);
    more := Goes(events, i, Fine);
    if Reveals(plan, s.tasks[i].phase.url) {
      assert Run(more) == With(s, i, Revealing(plan));
      var next := Goes(more, i, Fine);
      OwnStepsThen(events, more, next, i);
      assert Run(next) == With(s, i, Sending(plan, Of(s, s.tasks[i].namespace).secret));
      more := next;
    } else {
      assert Run(more) == With(s, i, Sending(plan, plan.supplied));
    }
  }

  /** The fetch brings a list the store accepts. */
  lemma FetchesList(s: State, i: nat, tools: seq<Tool>)
    requires i < |s.tasks| && s.tasks[i].phase.Sending? && Normal(s.tasks[i].namespace, tools)
    ensures
      var t := OnGo(OnGo(s, i, Fine), i, Listed(tools));
      && t.tasks == s.tasks[i := s.tasks[i].(phase := Committing(s.tasks[i].phase.plan, tools))]
      && t.store == s.store && t.commits == s.commits && t.catalog == s.catalog && t.published == s.published
      && t.stale == s.stale && t.locks == s.locks
  {
  }

  /** What is left when a commit was refreshed: the source and the list are stored, and the catalog shows them. */
  ghost predicate Published(s: State, t: State, i: nat, plan: Plan, tools: seq<Tool>)
    requires i < |s.tasks|
  {
    var ns := s.tasks[i].namespace;
    && i < |t.tasks| && t.tasks[i].phase == Done && Of(t, ns) == Committed(Of(s, ns), plan, |s.commits|)
    && t.commits == s.commits + [Commit(ns, tools)] && ns !in t.stale
    && (forall tool :: tool in t.catalog <==> if tool.namespace == ns then tool in tools else tool in s.catalog)
    && (forall other :: other != ns ==> Of(t, other) == Of(s, other))
  }

  lemma CommitsAndPublishes(s: State, i: nat)
    requires CatalogInv(s) && i < |s.tasks| && s.tasks[i].phase.Committing?
    requires Normal(s.tasks[i].namespace, s.tasks[i].phase.tools)
    requires !PrefixTaken(s, s.tasks[i].namespace, s.tasks[i].phase.plan.prefix)
    ensures
      var t := OnGo(OnGo(OnGo(s, i, Fine), i, Fine), i, Fine);
      Published(s, t, i, s.tasks[i].phase.plan, s.tasks[i].phase.tools)
  {
    var committed := OnGo(s, i, Fine);
    CommitsFine(s, i);
    RefreshesFine(committed, i);
    var mutating := OnGo(committed, i, Fine);
    PublishesFine(mutating, i);
    RefreshReplacesNamespace(s.catalog, s.tasks[i].namespace, s.tasks[i].phase.tools);
  }

  lemma CommitsFine(s: State, i: nat)
    requires i < |s.tasks| && s.tasks[i].phase.Committing?
    requires !PrefixTaken(s, s.tasks[i].namespace, s.tasks[i].phase.plan.prefix)
    ensures
      var ns, plan := s.tasks[i].namespace, s.tasks[i].phase.plan;
      OnGo(s, i, Fine) == With(s, i, Refreshing(false)).(
        store := s.store[ns := Committed(Of(s, ns), plan, |s.commits|)],
        commits := s.commits + [Commit(ns, s.tasks[i].phase.tools)])
  {
    assert OnGo(s, i, Fine) == OnCommit(s, i, Fine);
  }

  lemma RefreshesFine(s: State, i: nat)
    requires i < |s.tasks| && s.tasks[i].phase.Refreshing? && Of(s, s.tasks[i].namespace).tools.Some?
    ensures OnGo(s, i, Fine) == With(s, i, Mutating(Of(s, s.tasks[i].namespace).tools.value))
  {
  }

  lemma PublishesFine(s: State, i: nat)
    requires i < |s.tasks| && s.tasks[i].phase.Mutating? && s.tasks[i].phase.commit < |s.commits|
    ensures
      var ns, t := s.tasks[i].namespace, OnGo(s, i, Fine);
      && t.catalog == Upserted(Without(s.catalog, ns), s.commits[s.tasks[i].phase.commit].tools)
      && t.store == s.store && t.commits == s.commits && ns !in t.stale
      && i < |t.tasks| && t.tasks[i].phase == Done
  {
  }

  /**
    From every reachable state, a request that has its namespace and is admitted can succeed: some run of its
    own steps alone ends with the source and the fetched list stored, the catalog showing exactly that list
    for the namespace, and every other namespace as it was.
  */
  lemma AdmittedCanSucceed(events: seq<Event>, i: nat, plan: Plan, tools: seq<Tool>) returns (more: seq<Event>)
    requires i < |Run(events).tasks| && Run(events).tasks[i].phase == Validating
    requires
      var s := Run(events);
      var task := s.tasks[i];
      && ValidNamespace(task.namespace) && Normal(task.namespace, tools)
      && Decide(task.request, UrlOf(Of(s, task.namespace)), Of(s, task.namespace).row,
                task.request.Onboard? && PrefixTaken(s, task.namespace, task.request.prefix)) == Some(plan)
      && !PrefixTaken(s, task.namespace, plan.prefix)
    ensures OwnSteps(events, more, i) && Published(Run(events), Run(more), i, plan, tools)
  {
    var s := Run(events);
    RunKeepsCatalog(events);
    ReadsStored(s, i);
    more := GoesTwice(events, i, Fine, Fine);
    var row := Run(more);
    var sent := DecidesToSend(more, i, plan);
    OwnStepsThen(events, more, sent, i);
    FetchesList(Run(sent), i, tools);
    var fetched := GoesTwice(sent, i, Fine, Listed(tools));
    OwnStepsThen(events, sent, fetched, i);
    SameStore(s, Run(fetched), i, plan, tools);
    more := GoesTwice(fetched, i, Fine, Fine);
    OwnStepsThen(events, fetched, more, i);
    var last := Goes(more, i, Fine);
    OwnStepsThen(events, more, last, i);
    more := last;
  }

  lemma GoesTwice(events: seq<Event>, i: nat, first: Outcome, second: Outcome) returns (more: seq<Event>)
    ensures OwnSteps(events, more, i) && Run(more) == OnGo(OnGo(Run(events), i, first), i, second)
  {
    var once := Goes(events, i, first);
    more := Goes(once, i, second);
    OwnStepsThen(events, once, more, i);
  }

  /** Up to the commit the request only moved itself. */
  lemma SameStore(s: State, t: State, i: nat, plan: Plan, tools: seq<Tool>)
    requires CatalogInv(s) && i < |s.tasks| && t.tasks == s.tasks[i := s.tasks[i].(phase := Committing(plan, tools))]
    requires t.store == s.store && t.commits == s.commits && t.catalog == s.catalog && t.published == s.published
    requires Normal(s.tasks[i].namespace, tools) && !PrefixTaken(s, s.tasks[i].namespace, plan.prefix)
    ensures Published(s, OnGo(OnGo(OnGo(t, i, Fine), i, Fine), i, Fine), i, plan, tools)
  {
    SameCatalog(s, t);
    assert !PrefixTaken(t, t.tasks[i].namespace, plan.prefix);
    CommitsAndPublishes(t, i);
  }
}
