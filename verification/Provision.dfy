/**
  Source provisioning: what the daemon sends a stored credential to, and what its catalog shows.

  A request runs under the lock of its namespace: it reads the stored source, then its connection,
  decides, may reveal the stored credential, fetches from one url, commits one batch and refreshes the
  catalog.  Every await is a step boundary, so requests for other namespaces interleave anywhere.
  The daemon may stop anywhere: its requests, its locks and its catalog go, what was committed stays, and
  the next daemon fills its catalog from the store before it serves.
  `suppliedFor` tags a secret with the url an operator supplied it for; no decision reads it.
*/
module Provision {
  import opened Wrappers
  import opened Catalogs
  import SourceLocks

  type Url = string

  datatype Secret = Secret(text: string, suppliedFor: Url)

  datatype Row = Row(url: Url, prefix: string, hasCredential: bool)

  /** What the store holds for one namespace; `tools` is the commit that wrote its tools. */
  datatype Stored = Stored(row: Option<Row>, secret: Option<Secret>, tools: Option<nat>)

  const NOTHING := Stored(None, None, None)

  datatype Request =
    | Onboard(url: Url, prefix: string, replace: bool, clearCredential: bool, secret: Option<string>)
    | Revalidate

  /** What a request that passed its checks will do. */
  datatype Plan = Plan(url: Url, prefix: string, supplied: Option<Secret>, clear: bool, keep: bool)

  datatype Phase =
    | Queued
    | Validating
    | HaveUrl(url: Option<Url>)
    | HaveRow(url: Option<Url>, row: Option<Row>)
    | Revealing(plan: Plan)
    | Sending(plan: Plan, auth: Option<Secret>)
    | Awaiting(plan: Plan)
    | Committing(plan: Plan, tools: seq<Tool>)
    | Refreshing(retried: bool)
    | Mutating(commit: nat)
    | Done

  datatype Task = Task(namespace: string, request: Request, phase: Phase)

  datatype Sent = Sent(url: Url, secret: Secret)

  datatype Commit = Commit(namespace: string, tools: seq<Tool>)

  datatype State = State(
    locks: SourceLocks.Locks,
    tasks: seq<Task>,
    store: map<string, Stored>,
    sent: seq<Sent>,
    commits: seq<Commit>,
    catalog: seq<Tool>,
    published: map<string, nat>,
    stale: set<string>)

  const START := State(SourceLocks.EMPTY, [], map[], [], [], [], map[], {})

  /** How the awaited call of a step ended; `LateFault` is a commit that landed but whose read-back failed. */
  datatype Outcome = Fine | Fault | LateFault | Listed(tools: seq<Tool>)

  /** `listed` is what the new daemon's listing of the stored tools answers. */
  datatype Event =
    | Submit(namespace: string, request: Request)
    | Wake(i: nat)
    | Go(i: nat, outcome: Outcome)
    | Restart(listed: seq<Tool>)

  function Of(s: State, namespace: string): Stored {
    if namespace in s.store then s.store[namespace] else NOTHING
  }

  predicate ValidNamespace(namespace: string) {
    namespace != "" && forall c :: c in namespace ==> 'a' <= c <= 'z' || '0' <= c <= '9' || c == '_' || c == '-'
  }

  const SPACES := {'\t', '\n', '\r', ' ', '\U{0B}', '\U{0C}', '\U{A0}', '\U{1680}', '\U{2028}', '\U{2029}', '\U{202F}',
                   '\U{205F}', '\U{3000}', '\U{FEFF}'}

  predicate Blank(text: string) {
    forall c :: c in text ==> c in SPACES || '\U{2000}' <= c <= '\U{200A}'
  }

  /** The secret an operator supplied with this request, for the url of this request. */
  function Supplied(request: Request): Option<Secret>
    requires request.Onboard?
  {
    if request.secret.Some? && !Blank(request.secret.value) then Some(Secret(request.secret.value, request.url))
        else None
  }

  // ---------------------------------------------------------------- the decision

  /** The leak refusal, then the retarget gate; `None` refuses before anything is sent. */
  function Decide(request: Request, url: Option<Url>, row: Option<Row>, prefixTaken: bool): Option<Plan> {
    match request
    case Onboard(target, prefix, replace, clear, _) =>
      var sameUrl := url == Some(target);
      var keep := row.Some? && row.value.hasCredential;
      var supplied := Supplied(request);
      if prefixTaken then None
      else if replace && !sameUrl && keep && supplied.None? && !clear then None
      else if url.Some? && (!sameUrl || (row.Some? && row.value.prefix != prefix)) && !replace then None
      else Some(Plan(target, prefix, supplied, clear, keep))
    case Revalidate =>
      if url.None? || row.None? then None
      else Some(Plan(url.value, row.value.prefix, None, false, row.value.hasCredential))
  }

  /** The stored credential is revealed only for the stored url. */
  predicate Reveals(plan: Plan, url: Option<Url>) {
    plan.supplied.None? && plan.keep && url == Some(plan.url)
  }

  /** One batch: the row, and the credential kept, replaced, dropped or absent. */
  function Committed(before: Stored, plan: Plan, commit: nat): Stored {
    var hasCredential := !plan.clear && (plan.supplied.Some? || plan.keep);
    Stored(Some(Row(plan.url, plan.prefix, hasCredential)),
           if plan.clear then (if plan.keep then None else before.secret)
           else if plan.supplied.Some? then plan.supplied
           else before.secret,
           Some(commit))
  }

  // ---------------------------------------------------------------- steps

  function With(s: State, i: nat, phase: Phase): State
    requires i < |s.tasks|
  {
    s.(tasks := s.tasks[i := s.tasks[i].(phase := phase)])
  }

  /** The request settled: the lock is released in the same step. */
  function Finished(s: State, i: nat): State
    requires i < |s.tasks|
  {
    With(s, i, Done).(locks := SourceLocks.OnFinish(s.locks, i))
  }

  predicate PrefixTaken(s: State, namespace: string, prefix: string) {
    exists other :: other in s.store && other != namespace && s.store[other].row.Some?
        && s.store[other].row.value.prefix == prefix
  }

  /** What `NormalizeMcp` hands on: names of this namespace, each once. */
  predicate Normal(namespace: string, tools: seq<Tool>) {
    Unique(tools) && WellNamed(tools) && forall t :: t in tools ==> t.namespace == namespace
  }

  function OnDecide(s: State, i: nat): State
    requires i < |s.tasks| && s.tasks[i].phase.HaveRow?
  {
    var task := s.tasks[i];
    var taken := task.request.Onboard? && PrefixTaken(s, task.namespace, task.request.prefix);
    match Decide(task.request, task.phase.url, task.phase.row, taken)
    case None => Finished(s, i)
    case Some(plan) =>
      if Reveals(plan, task.phase.url) then With(s, i, Revealing(plan)) else With(s, i, Sending(plan, plan.supplied))
  }

  function OnCommit(s: State, i: nat, outcome: Outcome): State
    requires i < |s.tasks| && s.tasks[i].phase.Committing?
  {
    var ns, plan := s.tasks[i].namespace, s.tasks[i].phase.plan;
    if outcome == Fault || PrefixTaken(s, ns, plan.prefix) then Finished(s, i)
    else
      var s1 := s.(store := s.store[ns := Committed(Of(s, ns), plan, |s.commits|)],
                   commits := s.commits + [Commit(ns, s.tasks[i].phase.tools)]);
      if outcome == LateFault then Finished(s1.(stale := s.stale + {ns}), i) else With(s1, i, Refreshing(false))
  }

  function OnGo(s: State, i: nat, outcome: Outcome): State {
    if i >= |s.tasks| then s
    else
      var ns := s.tasks[i].namespace;
      var stored := Of(s, ns);
      match s.tasks[i].phase
      case Queued => s
      case Validating =>
        if outcome == Fault || !ValidNamespace(ns) then Finished(s, i)
        else With(s, i, HaveUrl(if stored.row.Some? then Some(stored.row.value.url) else None))
      case HaveUrl(url) => if outcome == Fault then Finished(s, i) else With(s, i, HaveRow(url, stored.row))
      case HaveRow(_, _) => OnDecide(s, i)
      case Revealing(plan) => if outcome == Fault then Finished(s, i) else With(s, i, Sending(plan, stored.secret))
      case Sending(plan, auth) =>
        With(if auth.Some? then s.(sent := s.sent + [Sent(plan.url, auth.value)]) else s, i, Awaiting(plan))
      case Awaiting(plan) =>
        if outcome.Listed? && Normal(ns, outcome.tools) then With(s, i, Committing(plan, outcome.tools))
            else Finished(s, i)
      case Committing(_, _) => OnCommit(s, i, outcome)
      case Refreshing(retried) =>
        if outcome != Fault && stored.tools.Some? then With(s, i, Mutating(stored.tools.value))
        else if !retried then With(s, i, Refreshing(true))
        else Finished(s.(stale := s.stale + {ns}), i)
      case Mutating(commit) =>
        if commit >= |s.commits| then s
        else Finished(s.(catalog := Upserted(Without(s.catalog, ns), s.commits[commit].tools),
                         published := s.published[ns := commit], stale := s.stale - {ns}), i)
      case Done => s
  }

  function OnSubmit(s: State, namespace: string, request: Request): State {
    var locks := SourceLocks.OnCall(s.locks, namespace);
    var phase := if namespace in s.locks.tails then Queued else Validating;
    s.(locks := locks, tasks := s.tasks + [Task(namespace, request, phase)])
  }

  function OnWake(s: State, i: nat): State {
    if i < |s.tasks| && SourceLocks.Ready(s.locks, i) then
      With(s, i, Validating).(locks := SourceLocks.OnWake(s.locks, i))
    else s
  }

  /** The stored tools, each once: a tool is a row of its own name, and a batch replaces a namespace's rows. */
  predicate ListsStore(s: State, listed: seq<Tool>) {
    && Unique(listed)
    && (forall tool :: tool in listed ==> Listing(s.commits, Of(s, tool.namespace).tools, tool))
    && (forall ns :: ns in s.store && s.store[ns].tools.Some? && s.store[ns].tools.value < |s.commits| ==>
          forall tool :: tool in s.commits[s.store[ns].tools.value].tools ==> tool in listed)
  }

  function OnRestart(s: State, listed: seq<Tool>): State {
    if !ListsStore(s, listed) then s
    else
      s.(locks := SourceLocks.EMPTY, tasks := [], catalog := Upserted([], listed),
         published := map ns | ns in s.store && s.store[ns].tools.Some? :: s.store[ns].tools.value, stale := {})
  }

  function Step(s: State, e: Event): State {
    match e
    case Submit(namespace, request) => OnSubmit(s, namespace, request)
    case Wake(i) => OnWake(s, i)
    case Go(i, outcome) => OnGo(s, i, outcome)
    case Restart(listed) => OnRestart(s, listed)
  }

  function Run(events: seq<Event>): State {
    if events == [] then START else Step(Run(events[..|events| - 1]), events[|events| - 1])
  }

  // ---------------------------------------------------------------- the invariant

  /** The tasks and the lock agree: a task runs exactly while it holds its namespace. */
  ghost predicate Locked(s: State) {
    && SourceLocks.Inv(s.locks) && |s.tasks| == |s.locks.runs|
    && forall i: nat :: i < |s.tasks| ==>
         && s.locks.runs[i].key == s.tasks[i].namespace
         && (s.locks.runs[i].phase == SourceLocks.Waiting <==> s.tasks[i].phase == Queued)
         && (s.locks.runs[i].phase == SourceLocks.Finished <==> s.tasks[i].phase == Done)
  }

  /** A stored credential is the one supplied for the stored url, and is there exactly when the row says so. */
  predicate Paired(stored: Stored) {
    && (stored.secret.Some? <==> stored.row.Some? && stored.row.value.hasCredential)
    && (stored.secret.Some? ==> stored.secret.value.suppliedFor == stored.row.value.url)
  }

  /** A plan fits what is stored: what it supplies is for its url, what it keeps is kept for the same url. */
  predicate Fits(plan: Plan, stored: Stored) {
    && (plan.supplied.Some? ==> plan.supplied.value.suppliedFor == plan.url)
    && (plan.keep <==> stored.row.Some? && stored.row.value.hasCredential)
    && (plan.keep && !plan.clear && plan.supplied.None? ==> plan.url == stored.row.value.url)
  }

  /** The credential a fetch is due: the one supplied, else the stored one if it is kept for the stored url. */
  function Due(plan: Plan, stored: Stored): Option<Secret> {
    if plan.supplied.Some? then plan.supplied
    else if plan.keep && stored.row.Some? && plan.url == stored.row.value.url then stored.secret
    else None
  }

  predicate TaskInv(stored: Stored, task: Task) {
    match task.phase
    case HaveUrl(url) => url == (if stored.row.Some? then Some(stored.row.value.url) else None)
    case HaveRow(url, row) => row == stored.row && url == (if stored.row.Some? then Some(stored.row.value.url)
        else None)
    case Revealing(plan) =>
      Fits(plan, stored) && plan.supplied.None? && plan.keep && stored.row.Some? && plan.url == stored.row.value.url
    case Sending(plan, auth) =>
      Fits(plan, stored) && (auth.Some? ==> auth.value.suppliedFor == plan.url) && auth == Due(plan, stored)
    case Awaiting(plan) => Fits(plan, stored)
    case Committing(plan, tools) => Fits(plan, stored) && Normal(task.namespace, tools)
    case Refreshing(_) => stored.tools.Some?
    case Mutating(commit) => stored.tools == Some(commit)
    case _ => true
  }

  ghost predicate CredentialInv(s: State) {
    && (forall ns :: Paired(Of(s, ns)))
    && (forall i :: 0 <= i < |s.tasks| ==> TaskInv(Of(s, s.tasks[i].namespace), s.tasks[i]))
    && (forall i :: 0 <= i < |s.sent| ==> s.sent[i].secret.suppliedFor == s.sent[i].url)
  }

  /** Holding a namespace means nobody else is past the queue for it. */
  lemma Alone(s: State, i: nat, j: nat)
    requires Locked(s) && i < |s.tasks| && j < |s.tasks| && i != j && s.tasks[i].namespace == s.tasks[j].namespace
    requires s.tasks[i].phase != Queued && s.tasks[i].phase != Done
    ensures s.tasks[j].phase == Queued || s.tasks[j].phase == Done
  {
    if i < j {
      assert SourceLocks.Earlier(s.locks, i, j);
    } else {
      assert SourceLocks.Earlier(s.locks, j, i);
    }
  }

  /** One task moved, and at most its own namespace's rows with it. */
  ghost predicate OnlyMoved(s: State, t: State, i: nat)
    requires i < |s.tasks|
  {
    && |t.tasks| == |s.tasks| && t.tasks[i].namespace == s.tasks[i].namespace
    && (forall j :: 0 <= j < |s.tasks| && j != i ==> t.tasks[j] == s.tasks[j])
    && (forall ns :: ns != s.tasks[i].namespace ==> Of(t, ns) == Of(s, ns))
    && (forall j :: 0 <= j < |t.sent| ==> t.sent[j].secret.suppliedFor == t.sent[j].url)
  }

  lemma OthersKeep(s: State, t: State, i: nat)
    requires Locked(s) && CredentialInv(s) && i < |s.tasks| && OnlyMoved(s, t, i)
    requires s.tasks[i].phase != Queued && s.tasks[i].phase != Done
    requires Paired(Of(t, s.tasks[i].namespace)) && TaskInv(Of(t, s.tasks[i].namespace), t.tasks[i])
    ensures CredentialInv(t)
  {
    forall j | 0 <= j < |t.tasks| ensures TaskInv(Of(t, t.tasks[j].namespace), t.tasks[j]) {
      if j != i && s.tasks[j].namespace == s.tasks[i].namespace {
        Alone(s, i, j);
      }
    }
    forall ns ensures Paired(Of(t, ns)) {
      if ns != s.tasks[i].namespace { assert Paired(Of(s, ns)); }
    }
  }

  lemma DecideFits(request: Request, stored: Stored, taken: bool)
    requires Paired(stored)
    ensures var url := if stored.row.Some? then Some(stored.row.value.url) else None;
            var plan := Decide(request, url, stored.row, taken);
            plan.Some? ==>
              Fits(plan.value, stored) && (Reveals(plan.value, url) ==> plan.value.url == stored.row.value.url)
  {
  }

  lemma CommitPairs(stored: Stored, plan: Plan, commit: nat)
    requires Paired(stored) && Fits(plan, stored)
    ensures Paired(Committed(stored, plan, commit))
  {
  }

  predicate Running(s: State, i: nat) {
    i < |s.tasks| && s.tasks[i].phase != Queued && s.tasks[i].phase != Done
  }

  /** A step moves one running task, and it gives up its lock exactly when it settles. */
  ghost predicate MovesOne(s: State, t: State, i: nat)
    requires i < |s.tasks|
  {
    && |t.tasks| == |s.tasks| && t.tasks == s.tasks[i := s.tasks[i].(phase := t.tasks[i].phase)]
        && t.tasks[i].phase != Queued
    && t.locks == (if t.tasks[i].phase == Done then SourceLocks.OnFinish(s.locks, i) else s.locks)
    && forall ns :: ns != s.tasks[i].namespace ==> Of(t, ns) == Of(s, ns)
  }

  lemma CommitMovesOne(s: State, i: nat, outcome: Outcome)
    requires i < |s.tasks| && s.tasks[i].phase.Committing?
    ensures MovesOne(s, OnCommit(s, i, outcome), i)
  {
  }

  lemma RefreshMovesOne(s: State, i: nat, outcome: Outcome)
    requires i < |s.tasks| && (s.tasks[i].phase.Refreshing? || s.tasks[i].phase.Mutating?)
    ensures MovesOne(s, OnGo(s, i, outcome), i)
  {
  }

  lemma FetchMovesOne(s: State, i: nat, outcome: Outcome)
    requires i < |s.tasks| && (s.tasks[i].phase.Sending? || s.tasks[i].phase.Awaiting? || s.tasks[i].phase.HaveRow?)
    ensures MovesOne(s, OnGo(s, i, outcome), i)
  {
  }

  lemma ReadMovesOne(s: State, i: nat, outcome: Outcome)
    requires i < |s.tasks| && (s.tasks[i].phase.Validating? || s.tasks[i].phase.HaveUrl? || s.tasks[i].phase.Revealing?)
    ensures MovesOne(s, OnGo(s, i, outcome), i)
  {
  }

  lemma GoMovesOne(s: State, i: nat, outcome: Outcome)
    requires Running(s, i)
    ensures MovesOne(s, OnGo(s, i, outcome), i)
  {
    var phase := s.tasks[i].phase;
    if phase.Committing? {
      CommitMovesOne(s, i, outcome);
    } else if phase.Refreshing? || phase.Mutating? {
      RefreshMovesOne(s, i, outcome);
    } else if phase.Sending? || phase.Awaiting? || phase.HaveRow? {
      FetchMovesOne(s, i, outcome);
    } else {
      ReadMovesOne(s, i, outcome);
    }
  }

  lemma GoKeepsSent(s: State, i: nat, outcome: Outcome)
    requires Running(s, i) && CredentialInv(s)
    ensures var t := OnGo(s, i, outcome);
            forall j :: 0 <= j < |t.sent| ==> t.sent[j].secret.suppliedFor == t.sent[j].url
  {
    assert TaskInv(Of(s, s.tasks[i].namespace), s.tasks[i]);
  }

  /** The task's own facts, against the rows of its own namespace. */
  predicate OwnInv(s: State, i: nat)
    requires i < |s.tasks|
  {
    Paired(Of(s, s.tasks[i].namespace)) && TaskInv(Of(s, s.tasks[i].namespace), s.tasks[i])
  }

  lemma CommitKeepsOwn(s: State, i: nat, outcome: Outcome)
    requires i < |s.tasks| && s.tasks[i].phase.Committing? && OwnInv(s, i)
    ensures OwnInv(OnCommit(s, i, outcome), i)
  {
    CommitPairs(Of(s, s.tasks[i].namespace), s.tasks[i].phase.plan, |s.commits|);
  }

  lemma DecideKeepsOwn(s: State, i: nat)
    requires i < |s.tasks| && s.tasks[i].phase.HaveRow? && OwnInv(s, i)
    ensures OwnInv(OnDecide(s, i), i)
  {
    var task := s.tasks[i];
    DecideFits(task.request, Of(s, task.namespace), task.request.Onboard?
        && PrefixTaken(s, task.namespace, task.request.prefix));
  }

  lemma ReadKeepsOwn(s: State, i: nat, outcome: Outcome)
    requires i < |s.tasks| && (s.tasks[i].phase.Validating? || s.tasks[i].phase.HaveUrl?
        || s.tasks[i].phase.Revealing?) && OwnInv(s, i)
    ensures |OnGo(s, i, outcome).tasks| == |s.tasks| && OwnInv(OnGo(s, i, outcome), i)
  {
  }

  lemma SendKeepsOwn(s: State, i: nat, outcome: Outcome)
    requires i < |s.tasks| && (s.tasks[i].phase.Sending? || s.tasks[i].phase.Awaiting?) && OwnInv(s, i)
    ensures |OnGo(s, i, outcome).tasks| == |s.tasks| && OwnInv(OnGo(s, i, outcome), i)
  {
  }

  lemma RefreshKeepsOwn(s: State, i: nat, outcome: Outcome)
    requires i < |s.tasks| && (s.tasks[i].phase.Refreshing? || s.tasks[i].phase.Mutating?) && OwnInv(s, i)
    ensures |OnGo(s, i, outcome).tasks| == |s.tasks| && OwnInv(OnGo(s, i, outcome), i)
  {
    assert OnGo(s, i, outcome).store == s.store;
  }

  lemma GoKeepsOwn(s: State, i: nat, outcome: Outcome)
    requires Running(s, i) && OwnInv(s, i)
    ensures |OnGo(s, i, outcome).tasks| == |s.tasks| && OwnInv(OnGo(s, i, outcome), i)
  {
    var phase := s.tasks[i].phase;
    if phase.Committing? {
      CommitKeepsOwn(s, i, outcome);
    } else if phase.HaveRow? {
      DecideKeepsOwn(s, i);
    } else if phase.Sending? || phase.Awaiting? {
      SendKeepsOwn(s, i, outcome);
    } else if phase.Refreshing? || phase.Mutating? {
      RefreshKeepsOwn(s, i, outcome);
    } else {
      ReadKeepsOwn(s, i, outcome);
    }
  }

  lemma GoKeepsCredentials(s: State, i: nat, outcome: Outcome)
    requires Locked(s) && CredentialInv(s)
    ensures CredentialInv(OnGo(s, i, outcome))
  {
    if Running(s, i) {
      assert Paired(Of(s, s.tasks[i].namespace)) && OwnInv(s, i);
      GoMovesOne(s, i, outcome);
      GoKeepsSent(s, i, outcome);
      GoKeepsOwn(s, i, outcome);
      OthersKeep(s, OnGo(s, i, outcome), i);
    }
  }

  lemma SubmitKeeps(s: State, namespace: string, request: Request)
    requires Locked(s) && CredentialInv(s)
    ensures Locked(OnSubmit(s, namespace, request)) && CredentialInv(OnSubmit(s, namespace, request))
  {
    SourceLocks.StepKeepsInv(s.locks, SourceLocks.Call(namespace));
    var t := OnSubmit(s, namespace, request);
    assert t.store == s.store;
    forall j | 0 <= j < |t.tasks| ensures TaskInv(Of(t, t.tasks[j].namespace), t.tasks[j]) {
      if j < |s.tasks| { assert t.tasks[j] == s.tasks[j]; }
    }
    assert forall ns :: Of(t, ns) == Of(s, ns);
  }

  lemma WakeKeepsLocked(s: State, i: nat)
    requires Locked(s)
    ensures Locked(OnWake(s, i))
  {
    SourceLocks.StepKeepsInv(s.locks, SourceLocks.Wake(i));
  }

  lemma WakeKeepsCredentials(s: State, i: nat)
    requires CredentialInv(s)
    ensures CredentialInv(OnWake(s, i))
  {
    var t := OnWake(s, i);
    assert t.store == s.store;
    forall j | 0 <= j < |t.tasks| ensures TaskInv(Of(t, t.tasks[j].namespace), t.tasks[j]) {
      if j != i { assert t.tasks[j] == s.tasks[j]; }
    }
    forall ns ensures Paired(Of(t, ns)) { assert Paired(Of(s, ns)); }
  }

  lemma GoKeepsLocked(s: State, i: nat, outcome: Outcome)
    requires Locked(s)
    ensures Locked(OnGo(s, i, outcome))
  {
    if Running(s, i) {
      SourceLocks.StepKeepsInv(s.locks, SourceLocks.Finish(i));
      GoMovesOne(s, i, outcome);
    }
  }

  lemma RestartKeeps(s: State, listed: seq<Tool>)
    requires Locked(s) && CredentialInv(s)
    ensures Locked(OnRestart(s, listed)) && CredentialInv(OnRestart(s, listed))
  {
    var t := OnRestart(s, listed);
    forall ns ensures Paired(Of(t, ns)) { assert Paired(Of(s, ns)); }
  }

  lemma {:induction false} RunKeepsCredentials(events: seq<Event>)
    ensures Locked(Run(events)) && CredentialInv(Run(events))
    decreases |events|
  {
    if events != [] {
      var before := events[..|events| - 1];
      RunKeepsCredentials(before);
      match events[|events| - 1]
      case Submit(namespace, request) => SubmitKeeps(Run(before), namespace, request);
      case Wake(i) => WakeKeepsLocked(Run(before), i); WakeKeepsCredentials(Run(before), i);
      case Go(i, outcome) =>
        GoKeepsLocked(Run(before), i, outcome);
        GoKeepsCredentials(Run(before), i, outcome);
      case Restart(listed) => RestartKeeps(Run(before), listed);
    }
  }

  // ---------------------------------------------------------------- what it means

  /**
    However provision and revalidate requests interleave, fail and retarget, every fetch that carried a
    secret went to the url an operator supplied that secret for, and every stored credential is stored
    beside that url.
  */
  lemma SecretsStayWithTheirUrl(events: seq<Event>, k: nat, ns: string)
    ensures var s := Run(events);
            && (k < |s.sent| ==> s.sent[k].secret.suppliedFor == s.sent[k].url)
            && (Of(s, ns).secret.Some? ==>
                  && Of(s, ns).row.Some? && Of(s, ns).row.value.hasCredential
                  && Of(s, ns).secret.value.suppliedFor == Of(s, ns).row.value.url)
  {
    RunKeepsCredentials(events);
    assert Paired(Of(Run(events), ns));
  }

  // ---------------------------------------------------------------- the catalog

  function PublishedOf(s: State, ns: string): Option<nat> {
    if ns in s.published then Some(s.published[ns]) else None
  }

  /** A request for the namespace has committed and not yet refreshed. */
  predicate InWindow(s: State, ns: string) {
    exists i :: 0 <= i < |s.tasks| && Opens(s.tasks[i], ns)
  }

  predicate Opens(task: Task, ns: string) { task.namespace == ns && (task.phase.Refreshing? || task.phase.Mutating?) }

  predicate IsCommitOf(commits: seq<Commit>, k: Option<nat>, ns: string) {
    k.Some? ==> k.value < |commits| && commits[k.value].namespace == ns
  }

  /** Tools of this namespace in this commit, none if there is no commit. */
  predicate Listing(commits: seq<Commit>, k: Option<nat>, t: Tool) {
    k.Some? && k.value < |commits| && t in commits[k.value].tools
  }

  ghost predicate CatalogInv(s: State) {
    && Unique(s.catalog) && WellNamed(s.catalog)
    && (forall k :: 0 <= k < |s.commits| ==> Normal(s.commits[k].namespace, s.commits[k].tools))
    && (forall ns :: IsCommitOf(s.commits, PublishedOf(s, ns), ns) && IsCommitOf(s.commits, Of(s, ns).tools, ns))
    && (forall t :: t in s.catalog <==> Listing(s.commits, PublishedOf(s, t.namespace), t))
  }

  /** Between its commit and its refresh, or left there. */
  predicate Behind(s: State, ns: string) { ns in s.stale || InWindow(s, ns) }

  /** Exactly then the catalog shows another commit than the store. */
  predicate Agrees(s: State, ns: string) { Behind(s, ns) <==> PublishedOf(s, ns) != Of(s, ns).tools }

  /** Publishing commit `k` of a namespace, given what the catalog then holds. */
  lemma PublishKeepsCatalog(s: State, t: State, ns: string, k: nat)
    requires CatalogInv(s) && IsCommitOf(s.commits, Some(k), ns)
    requires t.commits == s.commits && t.store == s.store && t.published == s.published[ns := k]
    requires Unique(t.catalog) && WellNamed(t.catalog)
    requires forall tool :: tool in t.catalog <==> if tool.namespace == ns then tool in s.commits[k].tools
        else tool in s.catalog
    ensures CatalogInv(t)
  {
    forall other ensures IsCommitOf(t.commits, PublishedOf(t, other), other)
        && IsCommitOf(t.commits, Of(t, other).tools, other) {
      assert IsCommitOf(s.commits, PublishedOf(s, other), other) && IsCommitOf(s.commits, Of(s, other).tools, other);
    }
    forall tool ensures tool in t.catalog <==> Listing(t.commits, PublishedOf(t, tool.namespace), tool) {
      assert tool in s.catalog <==> Listing(s.commits, PublishedOf(s, tool.namespace), tool);
    }
  }

  lemma MutateKeepsCatalog(s: State, i: nat, outcome: Outcome)
    requires CatalogInv(s) && i < |s.tasks| && s.tasks[i].phase.Mutating?
    requires IsCommitOf(s.commits, Some(s.tasks[i].phase.commit), s.tasks[i].namespace)
    ensures CatalogInv(OnGo(s, i, outcome))
  {
    var ns, k := s.tasks[i].namespace, s.tasks[i].phase.commit;
    RefreshReplacesNamespace(s.catalog, ns, s.commits[k].tools);
    PublishKeepsCatalog(s, OnGo(s, i, outcome), ns, k);
  }

  lemma CommitKeepsCatalog(s: State, i: nat, outcome: Outcome)
    requires CatalogInv(s) && i < |s.tasks| && s.tasks[i].phase.Committing?
    requires Normal(s.tasks[i].namespace, s.tasks[i].phase.tools)
    ensures CatalogInv(OnCommit(s, i, outcome))
  {
    var t := OnCommit(s, i, outcome);
    forall other ensures IsCommitOf(t.commits, PublishedOf(t, other), other)
        && IsCommitOf(t.commits, Of(t, other).tools, other) {
      assert IsCommitOf(s.commits, PublishedOf(s, other), other) && IsCommitOf(s.commits, Of(s, other).tools, other);
    }
    forall tool ensures tool in t.catalog <==> Listing(t.commits, PublishedOf(t, tool.namespace), tool) {
      assert tool in s.catalog <==> Listing(s.commits, PublishedOf(s, tool.namespace), tool);
      assert IsCommitOf(s.commits, PublishedOf(s, tool.namespace), tool.namespace);
    }
  }

  ghost predicate LeavesCatalog(s: State, t: State) {
    && t.catalog == s.catalog && t.commits == s.commits && t.store == s.store && t.published == s.published
    && s.stale <= t.stale
  }

  lemma RefreshLeavesCatalog(s: State, i: nat, outcome: Outcome)
    requires i < |s.tasks| && s.tasks[i].phase.Refreshing?
    ensures LeavesCatalog(s, OnGo(s, i, outcome))
  {
  }

  lemma FetchLeavesCatalog(s: State, i: nat, outcome: Outcome)
    requires i < |s.tasks| && (s.tasks[i].phase.Sending? || s.tasks[i].phase.Awaiting? || s.tasks[i].phase.HaveRow?)
    ensures LeavesCatalog(s, OnGo(s, i, outcome)) && OnGo(s, i, outcome).stale == s.stale
  {
  }

  /** Every other step leaves the catalog, the commits and what is stored alone. */
  lemma OtherStepsLeaveCatalog(s: State, i: nat, outcome: Outcome)
    requires i < |s.tasks| && !s.tasks[i].phase.Committing? && !s.tasks[i].phase.Mutating?
    ensures LeavesCatalog(s, OnGo(s, i, outcome))
    ensures !s.tasks[i].phase.Refreshing? ==> OnGo(s, i, outcome).stale == s.stale
  {
    var phase := s.tasks[i].phase;
    if phase.Refreshing? {
      RefreshLeavesCatalog(s, i, outcome);
    } else if phase.Sending? || phase.Awaiting? || phase.HaveRow? {
      FetchLeavesCatalog(s, i, outcome);
    }
  }

  lemma OtherStepsKeepCatalog(s: State, i: nat, outcome: Outcome)
    requires CatalogInv(s) && i < |s.tasks| && !s.tasks[i].phase.Committing? && !s.tasks[i].phase.Mutating?
    ensures var t := OnGo(s, i, outcome);
            && CatalogInv(t) && t.store == s.store && t.published == s.published
            && (!s.tasks[i].phase.Refreshing? ==> t.stale == s.stale)
  {
    OtherStepsLeaveCatalog(s, i, outcome);
    SameCatalog(s, OnGo(s, i, outcome));
  }

  lemma SameCatalog(s: State, t: State)
    requires CatalogInv(s) && t.catalog == s.catalog && t.commits == s.commits && t.store == s.store
        && t.published == s.published
    ensures CatalogInv(t)
  {
    forall ns ensures IsCommitOf(t.commits, PublishedOf(t, ns), ns) && IsCommitOf(t.commits, Of(t, ns).tools, ns) {
      assert IsCommitOf(s.commits, PublishedOf(s, ns), ns) && IsCommitOf(s.commits, Of(s, ns).tools, ns);
    }
    forall tool ensures tool in t.catalog <==> Listing(t.commits, PublishedOf(t, tool.namespace), tool) {
      assert tool in s.catalog <==> Listing(s.commits, PublishedOf(s, tool.namespace), tool);
    }
  }

  lemma GoKeepsCatalog(s: State, i: nat, outcome: Outcome)
    requires CatalogInv(s) && CredentialInv(s)
    ensures CatalogInv(OnGo(s, i, outcome))
  {
    if i < |s.tasks| {
      var ns := s.tasks[i].namespace;
      assert TaskInv(Of(s, ns), s.tasks[i]);
      if s.tasks[i].phase.Committing? {
        CommitKeepsCatalog(s, i, outcome);
      } else if s.tasks[i].phase.Mutating? {
        assert IsCommitOf(s.commits, Of(s, ns).tools, ns);
        MutateKeepsCatalog(s, i, outcome);
      } else {
        OtherStepsKeepCatalog(s, i, outcome);
      }
    }
  }

  /** A step opens or closes the window of the namespace it works for alone. */
  lemma WindowKept(s: State, t: State, i: nat, ns: string)
    requires i < |s.tasks| && MovesOne(s, t, i)
    requires Opens(t.tasks[i], ns) <==> Opens(s.tasks[i], ns)
    ensures InWindow(t, ns) <==> InWindow(s, ns)
  {
    if InWindow(s, ns) {
      var j :| 0 <= j < |s.tasks| && Opens(s.tasks[j], ns);
      assert Opens(t.tasks[j], ns);
    }
    if InWindow(t, ns) {
      var j :| 0 <= j < |t.tasks| && Opens(t.tasks[j], ns);
      assert Opens(s.tasks[j], ns);
    }
  }

  /** A window closes with its one request: nobody else is past the queue for the namespace. */
  lemma WindowCloses(s: State, t: State, i: nat)
    requires Locked(s) && Running(s, i) && MovesOne(s, t, i) && t.tasks[i].phase == Done
    ensures !InWindow(t, s.tasks[i].namespace)
  {
    var ns := s.tasks[i].namespace;
    if InWindow(t, ns) {
      var j :| 0 <= j < |t.tasks| && Opens(t.tasks[j], ns);
      if j != i {
        Alone(s, i, j);
      }
    }
  }

  /** A commit puts the store ahead: its number is new, so the catalog cannot show it yet. */
  lemma CommitAgrees(s: State, i: nat, outcome: Outcome)
    requires Locked(s) && CatalogInv(s) && Running(s, i) && s.tasks[i].phase.Committing?
    requires Agrees(s, s.tasks[i].namespace)
    ensures Agrees(OnCommit(s, i, outcome), s.tasks[i].namespace)
  {
    var ns, t := s.tasks[i].namespace, OnCommit(s, i, outcome);
    CommitMovesOne(s, i, outcome);
    assert IsCommitOf(s.commits, PublishedOf(s, ns), ns);
    if t.tasks[i].phase.Refreshing? {
      assert Opens(t.tasks[i], ns);
    } else {
      WindowKept(s, t, i, ns);
    }
  }

  lemma RefreshAgrees(s: State, i: nat, outcome: Outcome)
    requires Locked(s) && Running(s, i) && s.tasks[i].phase.Refreshing? && Agrees(s, s.tasks[i].namespace)
    ensures Agrees(OnGo(s, i, outcome), s.tasks[i].namespace)
  {
    var ns, t := s.tasks[i].namespace, OnGo(s, i, outcome);
    RefreshMovesOne(s, i, outcome);
    RefreshLeavesCatalog(s, i, outcome);
    assert Opens(s.tasks[i], ns);
    if t.tasks[i].phase != Done {
      assert Opens(t.tasks[i], ns);
    }
  }

  lemma MutateAgrees(s: State, i: nat, outcome: Outcome)
    requires Locked(s) && CredentialInv(s) && CatalogInv(s) && Running(s, i) && s.tasks[i].phase.Mutating?
    ensures Agrees(OnGo(s, i, outcome), s.tasks[i].namespace)
  {
    var ns := s.tasks[i].namespace;
    assert TaskInv(Of(s, ns), s.tasks[i]) && IsCommitOf(s.commits, Of(s, ns).tools, ns);
    RefreshMovesOne(s, i, outcome);
    WindowCloses(s, OnGo(s, i, outcome), i);
  }

  lemma OtherStepAgrees(s: State, i: nat, outcome: Outcome, ns: string)
    requires Running(s, i) && Agrees(s, ns)
    requires ns != s.tasks[i].namespace
             || !(s.tasks[i].phase.Committing? || s.tasks[i].phase.Refreshing? || s.tasks[i].phase.Mutating?)
    ensures Agrees(OnGo(s, i, outcome), ns)
  {
    GoMovesOne(s, i, outcome);
    if ns != s.tasks[i].namespace {
      OtherNamespaceKept(s, i, outcome, ns);
    } else {
      OtherStepsLeaveCatalog(s, i, outcome);
      BeforeCommit(s, i, outcome);
    }
    WindowKept(s, OnGo(s, i, outcome), i, ns);
  }

  lemma BeforeCommit(s: State, i: nat, outcome: Outcome)
    requires Running(s, i)
    requires !(s.tasks[i].phase.Committing? || s.tasks[i].phase.Refreshing? || s.tasks[i].phase.Mutating?)
    ensures |OnGo(s, i, outcome).tasks| == |s.tasks|
    ensures var phase := OnGo(s, i, outcome).tasks[i].phase; !phase.Refreshing? && !phase.Mutating?
  {
  }

  lemma GoKeepsAgreement(s: State, i: nat, outcome: Outcome, ns: string)
    requires Locked(s) && CredentialInv(s) && CatalogInv(s) && Agrees(s, ns)
    ensures Agrees(OnGo(s, i, outcome), ns)
  {
    if !Running(s, i) {
      IdleStays(s, i, outcome);
    } else if ns != s.tasks[i].namespace
      || !(s.tasks[i].phase.Committing? || s.tasks[i].phase.Refreshing? || s.tasks[i].phase.Mutating?)
    {
      OtherStepAgrees(s, i, outcome, ns);
    } else if s.tasks[i].phase.Committing? {
      CommitAgrees(s, i, outcome);
      assert OnGo(s, i, outcome) == OnCommit(s, i, outcome);
    } else if s.tasks[i].phase.Refreshing? {
      RefreshAgrees(s, i, outcome);
    } else {
      MutateAgrees(s, i, outcome);
    }
  }

  lemma IdleStays(s: State, i: nat, outcome: Outcome)
    requires !Running(s, i)
    ensures OnGo(s, i, outcome) == s
  {
  }

  lemma OtherNamespaceKept(s: State, i: nat, outcome: Outcome, ns: string)
    requires i < |s.tasks| && ns != s.tasks[i].namespace
    ensures var t := OnGo(s, i, outcome);
            PublishedOf(t, ns) == PublishedOf(s, ns) && (ns in s.stale <==> ns in t.stale) && Of(t, ns) == Of(s, ns)
  {
    if !s.tasks[i].phase.Committing? && !s.tasks[i].phase.Mutating? {
      OtherStepsLeaveCatalog(s, i, outcome);
    }
  }

  /** Arriving and being woken touch no row and no catalog entry, and open or close nobody's window. */
  ghost predicate OnlyQueues(s: State, t: State) {
    && t.catalog == s.catalog && t.commits == s.commits && t.store == s.store && t.published == s.published
    && t.stale == s.stale && |s.tasks| <= |t.tasks|
    && forall i, ns :: 0 <= i < |t.tasks| ==> (Opens(t.tasks[i], ns) <==> i < |s.tasks| && Opens(s.tasks[i], ns))
  }

  lemma QueueKeepsAgreement(s: State, t: State, ns: string)
    requires OnlyQueues(s, t) && Agrees(s, ns)
    ensures Agrees(t, ns)
  {
    if InWindow(s, ns) {
      var j :| 0 <= j < |s.tasks| && Opens(s.tasks[j], ns);
      assert Opens(t.tasks[j], ns);
    }
  }

  lemma StepOnlyQueues(s: State, e: Event)
    requires Locked(s) && (e.Submit? || e.Wake?)
    ensures OnlyQueues(s, Step(s, e))
  {
  }

  lemma RestartAgrees(s: State, listed: seq<Tool>, ns: string)
    requires Agrees(s, ns)
    ensures Agrees(OnRestart(s, listed), ns)
    ensures ListsStore(s, listed) ==> !Behind(OnRestart(s, listed), ns)
  {
  }

  /** The new catalog is a union of whole commits: those the store holds. */
  lemma RestartKeepsCatalog(s: State, listed: seq<Tool>)
    requires CatalogInv(s)
    ensures CatalogInv(OnRestart(s, listed))
  {
    var t := OnRestart(s, listed);
    if ListsStore(s, listed) {
      UpsertHolds([], listed);
      forall ns ensures IsCommitOf(t.commits, PublishedOf(t, ns), ns) && IsCommitOf(t.commits, Of(t, ns).tools, ns)
          && PublishedOf(t, ns) == Of(s, ns).tools
      {
        assert IsCommitOf(s.commits, Of(s, ns).tools, ns);
      }
      forall tool ensures tool in t.catalog <==> Listing(t.commits, PublishedOf(t, tool.namespace), tool) {
        assert tool in t.catalog <==> tool in listed;
        assert Listing(s.commits, Of(s, tool.namespace).tools, tool) ==> tool.namespace in s.store;
      }
      forall tool | tool in t.catalog ensures NamespaceOf(tool.name) == tool.namespace {
        assert Listing(s.commits, Of(s, tool.namespace).tools, tool);
      }
    }
  }

  lemma {:induction false} RunKeepsCatalog(events: seq<Event>)
    ensures CatalogInv(Run(events))
    decreases |events|
  {
    if events != [] {
      var before := events[..|events| - 1];
      var s, e := Run(before), events[|events| - 1];
      RunKeepsCredentials(before);
      RunKeepsCatalog(before);
      if e.Go? {
        GoKeepsCatalog(s, e.i, e.outcome);
      } else if e.Restart? {
        RestartKeepsCatalog(s, e.listed);
      } else {
        StepOnlyQueues(s, e);
        SameCatalog(s, Step(s, e));
      }
    }
  }

  lemma {:induction false} RunAgrees(events: seq<Event>, ns: string)
    ensures Agrees(Run(events), ns)
    decreases |events|
  {
    if events != [] {
      var before := events[..|events| - 1];
      var s, e := Run(before), events[|events| - 1];
      RunKeepsCredentials(before);
      RunKeepsCatalog(before);
      RunAgrees(before, ns);
      if e.Go? {
        GoKeepsAgreement(s, e.i, e.outcome, ns);
      } else if e.Restart? {
        RestartAgrees(s, e.listed, ns);
      } else {
        StepOnlyQueues(s, e);
        QueueKeepsAgreement(s, Step(s, e), ns);
      }
    }
  }

  /**
    A namespace's catalog entries are those of the very commit the store holds for it exactly outside its
    own commit-to-refresh window and unless its last commit was never followed by a successful refresh or a
    restart, whatever other namespaces are doing and wherever the daemon stopped.
  */
  lemma CatalogShowsTheStore(events: seq<Event>, ns: string)
    ensures
      var s := Run(events);
      && (Behind(s, ns) <==> PublishedOf(s, ns) != Of(s, ns).tools)
      && (!Behind(s, ns) ==>
            forall tool: Tool :: tool.namespace == ns ==>
              (tool in s.catalog <==> Listing(s.commits, Of(s, ns).tools, tool)))
  {
    RunKeepsCatalog(events);
    RunAgrees(events, ns);
  }

  /**
    At every point between two steps a namespace shows all the tools of one of its own commits, or none
    because none was published: nobody ever sees it removed and not yet put back.
  */
  lemma NeverHalfPublished(events: seq<Event>, tool: Tool)
    ensures var s := Run(events);
            var k := PublishedOf(s, tool.namespace);
            && IsCommitOf(s.commits, k, tool.namespace)
            && (tool in s.catalog <==> k.Some? && tool in s.commits[k.value].tools)
  {
    RunKeepsCatalog(events);
    assert IsCommitOf(Run(events).commits, PublishedOf(Run(events), tool.namespace), tool.namespace);
  }

  /** The store holds what this request fetched, the catalog what was published before it. */
  ghost predicate LeftBehind(s: State, t: State, i: nat)
    requires i < |s.tasks| && s.tasks[i].phase.Committing?
  {
    var ns, fetched := s.tasks[i].namespace, s.tasks[i].phase.tools;
    && ns in t.stale && Idle(t, ns)
    && forall tool: Tool :: tool.namespace == ns ==>
         && (Listing(t.commits, Of(t, ns).tools, tool) <==> tool in fetched)
         && (tool in t.catalog <==> Listing(s.commits, PublishedOf(s, ns), tool))
  }

  /** No request for the namespace is past the queue. */
  ghost predicate Idle(s: State, ns: string) {
    forall j :: 0 <= j < |s.tasks| && s.tasks[j].namespace == ns ==>
      s.tasks[j].phase == Queued || s.tasks[j].phase == Done
  }

  /**
    The never-refreshed clause of that condition is needed.  Wherever a request is about to commit, the
    batch may land and reading its result back fail: the request is answered with an error, nothing for
    the namespace is left running, and the catalog still shows the list published before, so it shows
    the store's list exactly when the two lists have the same tools.
  */
  lemma LateFaultLeavesCatalogBehind(events: seq<Event>, i: nat)
    ensures
      var s := Run(events);
      var t := Run(events + [Go(i, LateFault)]);
      i < |s.tasks| && s.tasks[i].phase.Committing?
      && !PrefixTaken(s, s.tasks[i].namespace, s.tasks[i].phase.plan.prefix) ==>
        LeftBehind(s, t, i)
  {
    var s := Run(events);
    RunKeepsCredentials(events);
    RunKeepsCatalog(events);
    assert (events + [Go(i, LateFault)])[..|events|] == events;
    if i < |s.tasks| && s.tasks[i].phase.Committing?
       && !PrefixTaken(s, s.tasks[i].namespace, s.tasks[i].phase.plan.prefix)
    {
      LateFaultStep(s, i);
      assert OnGo(s, i, LateFault) == OnCommit(s, i, LateFault);
    }
  }

  lemma LateFaultStep(s: State, i: nat)
    requires Locked(s) && CatalogInv(s)
    requires i < |s.tasks| && s.tasks[i].phase.Committing?
    requires !PrefixTaken(s, s.tasks[i].namespace, s.tasks[i].phase.plan.prefix)
    ensures LeftBehind(s, OnCommit(s, i, LateFault), i)
  {
    var ns, t := s.tasks[i].namespace, OnCommit(s, i, LateFault);
    forall j | 0 <= j < |t.tasks| && t.tasks[j].namespace == ns
      ensures t.tasks[j].phase == Queued || t.tasks[j].phase == Done
    {
      if j != i {
        Alone(s, i, j);
      }
    }
    assert Of(t, ns).tools == Some(|s.commits|) && t.commits[|s.commits|] == Commit(ns, s.tasks[i].phase.tools);
    assert t.catalog == s.catalog;
  }

  /** The store can always be listed: its commits, one after another, clash in no name. */
  lemma {:induction false} StoreIsListed(s: State, names: set<string>) returns (listed: seq<Tool>)
    requires CatalogInv(s) && names <= s.store.Keys
    ensures Unique(listed)
    ensures forall tool :: tool in listed <==>
              tool.namespace in names && Listing(s.commits, Of(s, tool.namespace).tools, tool)
    decreases |names|
  {
    if names == {} {
      listed := [];
    } else {
      var ns :| ns in names;
      var rest := StoreIsListed(s, names - {ns});
      listed := WithCommit(s, ns, names - {ns}, rest);
      assert names == (names - {ns}) + {ns};
    }
  }

  lemma WithCommit(s: State, ns: string, names: set<string>, rest: seq<Tool>) returns (listed: seq<Tool>)
    requires CatalogInv(s) && ns in s.store && ns !in names && Unique(rest)
    requires forall tool :: tool in rest <==>
               tool.namespace in names && Listing(s.commits, Of(s, tool.namespace).tools, tool)
    ensures Unique(listed)
    ensures forall tool :: tool in listed <==>
              tool.namespace in names + {ns} && Listing(s.commits, Of(s, tool.namespace).tools, tool)
  {
    var k := s.store[ns].tools;
    assert IsCommitOf(s.commits, Of(s, ns).tools, ns);
    if k.None? {
      return rest;
    }
    var tools := s.commits[k.value].tools;
    assert Normal(ns, tools);
    listed := rest + tools;
    forall i, j | 0 <= i < |rest| && 0 <= j < |tools| ensures rest[i].name != tools[j].name {
      assert rest[i] in rest && tools[j] in tools;
      OwnName(s, rest[i]);
    }
  }

  lemma OwnName(s: State, tool: Tool)
    requires CatalogInv(s) && Listing(s.commits, Of(s, tool.namespace).tools, tool)
    ensures NamespaceOf(tool.name) == tool.namespace
  {
    assert IsCommitOf(s.commits, Of(s, tool.namespace).tools, tool.namespace);
  }

  /** Wherever the daemon stops, a restart leaves every namespace showing exactly what the store holds for it. */
  lemma RestartHeals(events: seq<Event>) returns (listed: seq<Tool>)
    ensures
      var s, t := Run(events), Run(events + [Restart(listed)]);
      && t.store == s.store && t.commits == s.commits && t.tasks == []
      && forall tool :: tool in t.catalog <==> Listing(s.commits, Of(s, tool.namespace).tools, tool)
  {
    var s := Run(events);
    RunKeepsCatalog(events);
    listed := StoreIsListed(s, s.store.Keys);
    assert (events + [Restart(listed)])[..|events|] == events;
    ListedIsListing(s, listed);
    UpsertHolds([], listed);
  }

  lemma ListedIsListing(s: State, listed: seq<Tool>)
    requires CatalogInv(s) && Unique(listed)
    requires forall tool :: tool in listed <==>
               tool.namespace in s.store && Listing(s.commits, Of(s, tool.namespace).tools, tool)
    ensures ListsStore(s, listed)
    ensures forall tool: Tool :: Listing(s.commits, Of(s, tool.namespace).tools, tool) ==> tool in listed
  {
    forall ns, tool | ns in s.store && s.store[ns].tools.Some? && s.store[ns].tools.value < |s.commits|
        && tool in s.commits[s.store[ns].tools.value].tools
      ensures tool in listed
    {
      var k := s.store[ns].tools.value;
      assert IsCommitOf(s.commits, Of(s, ns).tools, ns) && Normal(s.commits[k].namespace, s.commits[k].tools);
    }
  }

  /** The first request of all, alone in the daemon, at one of its phases. */
  function First(ns: string, request: Request, phase: Phase): State {
    START.(locks := SourceLocks.OnCall(SourceLocks.EMPTY, ns), tasks := [Task(ns, request, phase)])
  }

  function FirstPlan(request: Request): Plan
    requires request.Onboard?
  {
    Plan(request.url, request.prefix, Supplied(request), request.clearCredential, false)
  }

  lemma FirstReads(ns: string, request: Request)
    requires ValidNamespace(ns) && request.Onboard?
    ensures OnSubmit(START, ns, request) == First(ns, request, Validating)
    ensures OnGo(First(ns, request, Validating), 0, Fine) == First(ns, request, HaveUrl(None))
    ensures OnGo(First(ns, request, HaveUrl(None)), 0, Fine) == First(ns, request, HaveRow(None, None))
    ensures OnGo(First(ns, request, HaveRow(None, None)), 0, Fine)
         == First(ns, request, Sending(FirstPlan(request), Supplied(request)))
  {
  }

  lemma FirstSends(ns: string, request: Request) returns (events: seq<Event>)
    requires ValidNamespace(ns) && request.Onboard?
    ensures Run(events) == First(ns, request, Sending(FirstPlan(request), Supplied(request)))
  {
    FirstReads(ns, request);
    events := Extend([], Submit(ns, request));
    events := Extend(events, Go(0, Fine));
    events := Extend(events, Go(0, Fine));
    events := Extend(events, Go(0, Fine));
  }

  /** Any list of tools can be left behind: the first onboarding of any source may be the one that faults. */
  lemma AnyListCanBeLeftBehind(ns: string, request: Request, tools: seq<Tool>) returns (events: seq<Event>)
    requires ValidNamespace(ns) && request.Onboard? && Normal(ns, tools)
    ensures OnlyLeftBehind(Run(events), ns, tools)
  {
    events := FirstSends(ns, request);
    FirstFetches(Run(events), ns, request, tools);
    events := Extend(events, Go(0, Fine));
    events := Extend(events, Go(0, Listed(tools)));
    events := Extend(events, Go(0, LateFault));
  }

  /** Everything is done, the store lists exactly these tools, and the catalog is empty. */
  ghost predicate OnlyLeftBehind(t: State, ns: string, tools: seq<Tool>) {
    && t.catalog == [] && |t.tasks| == 1 && t.tasks[0].phase == Done
    && forall tool :: Listing(t.commits, Of(t, ns).tools, tool) <==> tool in tools
  }

  lemma FirstFetches(s: State, ns: string, request: Request, tools: seq<Tool>)
    requires request.Onboard? && Normal(ns, tools)
    requires s == First(ns, request, Sending(FirstPlan(request), Supplied(request)))
    ensures OnlyLeftBehind(OnGo(OnGo(OnGo(s, 0, Fine), 0, Listed(tools)), 0, LateFault), ns, tools)
  {
  }

  lemma Extend(before: seq<Event>, e: Event) returns (events: seq<Event>)
    ensures Run(events) == Step(Run(before), e)
  {
    events := before + [e];
    assert events[..|before|] == before;
  }
}
