/** How a rotation that does not succeed ends: what it takes away, what it must leave, and what may follow. */
module RotationEnds {
  import opened Wrappers
  import opened Rotation

  /** The staged key is in the directory exactly while some rotation owns it. */
  ghost predicate NextIsOwned(s: State) {
    Next in Current(s.fs) <==> exists p :: p in s.runs && Owns(s.runs[p])
  }

  /**
    What leaves a staged key behind: a cleaning or a promotion that fails, a seal of unknown effect, and a
    crash that keeps the key's directory entry.
  */
  predicate Leaves(s: State, e: Event) {
    match e
    case Go(p, ok, _) => p in s.runs && !ok && (s.runs[p].Cleaning? || s.runs[p].Promoting?)
    case Reseal(p, outcome) => p in s.runs && s.runs[p].Sealing? && outcome.Uncertain?
    case Crash(kept, _) => Next in (if kept < |s.fs.views| then s.fs.views[kept] else Current(s.fs))
    case Spawn(_) => false
  }

  lemma OwnerOnly(s: State, p: nat, t: State)
    requires Inv(s) && p in s.runs && t.runs.Keys == s.runs.Keys
    requires forall q :: q in s.runs && q != p ==> t.runs[q] == s.runs[q]
    requires Owns(s.runs[p]) && !Owns(t.runs[p])
    ensures !exists q :: q in t.runs && Owns(t.runs[q])
  {
  }

  /** The owner's own name is there to be kept or taken away. */
  lemma OwnedIsLinked(s: State, p: nat)
    requires Inv(s) && p in s.runs && Owns(s.runs[p])
    ensures Next in Current(s.fs)
  {
    assert OwnerInv(s.fs, s.db, s.runs[p]);
  }

  lemma StageKeepsNext(s: State, p: nat, ok: bool)
    requires Inv(s) && p in s.runs && s.runs[p].Stage?
    ensures var t := OnStage(s, p, s.runs[p], ok); Next in Current(t.fs) && p in t.runs && Owns(t.runs[p])
  {
    OwnedIsLinked(s, p);
    StageKeepsInv(s, p, ok);
    assert OwnerInv(s.fs, s.db, s.runs[p]);
    StageKeepsFs(s, p, s.runs[p], ok);
  }

  /** Every other step keeps them together, and these are exactly the ones that do not. */
  lemma LeftBehindIff(s: State, e: Event)
    requires Inv(s) && NextIsOwned(s)
    ensures NextIsOwned(Step(s, e)) <==> !Leaves(s, e)
  {
    if e.Go? && e.p in s.runs {
      GoLeavesIff(s, e.p, e.ok, e.key);
    } else if e.Reseal? && e.p in s.runs && s.runs[e.p].Sealing? {
      ResealLeavesIff(s, e.p, e.outcome);
    } else if e.Spawn? {
      SpawnLeavesNothing(s, e.p);
    }
  }

  lemma SpawnLeavesNothing(s: State, p: nat)
    requires NextIsOwned(s)
    ensures NextIsOwned(Step(s, Spawn(p)))
  {
    var t := Step(s, Spawn(p));
    if q :| q in s.runs && Owns(s.runs[q]) {
      assert q in t.runs && Owns(t.runs[q]);
    }
    if q :| q in t.runs && Owns(t.runs[q]) {
      assert q in s.runs && Owns(s.runs[q]);
    }
  }

  lemma ResealLeavesIff(s: State, p: nat, outcome: Seal)
    requires Inv(s) && NextIsOwned(s) && p in s.runs && s.runs[p].Sealing?
    ensures NextIsOwned(OnReseal(s, p, outcome)) <==> !outcome.Uncertain?
  {
    var t := OnReseal(s, p, outcome);
    OwnedIsLinked(s, p);
    if outcome.Uncertain? {
      OwnerOnly(s, p, t);
    } else {
      assert p in t.runs && Owns(t.runs[p]);
    }
  }

  lemma GoLeavesIff(s: State, p: nat, ok: bool, key: Key)
    requires Inv(s) && NextIsOwned(s) && p in s.runs
    ensures NextIsOwned(OnGo(s, p, ok, key)) <==> !Leaves(s, Go(p, ok, key))
  {
    var t := OnGo(s, p, ok, key);
    if s.runs[p].Stage? {
      StageKeepsNext(s, p, ok);
      assert p in t.runs && Owns(t.runs[p]);
    } else if s.runs[p].Cleaning? || s.runs[p].Promoting? {
      OwnedIsLinked(s, p);
      OwnerOnly(s, p, t);
    } else if s.runs[p].Sealing? {
      assert t == s;
    } else {
      OtherLeavesNothing(s, p, ok, key);
    }
  }

  lemma OtherLeavesNothing(s: State, p: nat, ok: bool, key: Key)
    requires Inv(s) && NextIsOwned(s) && p in s.runs && !Owns(s.runs[p])
    ensures NextIsOwned(OnGo(s, p, ok, key))
  {
    var t := OnGo(s, p, ok, key);
    if s.runs[p].Opened? && t.runs[p].Stage? {
      assert p in t.runs && Owns(t.runs[p]) && Next in Current(t.fs);
    } else {
      OtherTouchesNothing(s, p, ok, key);
      OwnersStay(s, t, p);
    }
  }

  lemma OtherTouchesNothing(s: State, p: nat, ok: bool, key: Key)
    requires Inv(s) && p in s.runs && !Owns(s.runs[p]) && !OnGo(s, p, ok, key).runs[p].Stage?
    ensures
      var t := OnGo(s, p, ok, key);
      && t.runs == s.runs[p := t.runs[p]] && !Owns(t.runs[p])
      && (Next in Current(t.fs) <==> Next in Current(s.fs))
  {
  }

  lemma OwnersStay(s: State, t: State, p: nat)
    requires p in s.runs && p in t.runs && t.runs == s.runs[p := t.runs[p]] && !Owns(s.runs[p]) && !Owns(t.runs[p])
    requires Next in Current(t.fs) <==> Next in Current(s.fs)
    ensures NextIsOwned(t) <==> NextIsOwned(s)
  {
    if q :| q in s.runs && Owns(s.runs[q]) {
      assert q in t.runs && Owns(t.runs[q]);
    }
    if q :| q in t.runs && Owns(t.runs[q]) {
      assert q in s.runs && Owns(s.runs[q]);
    }
  }

  /** No event of the run left a staged key behind. */
  ghost predicate LeavesNone(s: State, events: seq<Event>) {
    forall i :: 0 <= i < |events| ==> !Leaves(Run(s, events[..i]), events[i])
  }

  lemma LeavesNoneBefore(s: State, events: seq<Event>)
    requires events != [] && LeavesNone(s, events)
    ensures LeavesNone(s, events[..|events| - 1])
  {
    var n := |events| - 1;
    forall i | 0 <= i < n ensures !Leaves(Run(s, events[..n][..i]), events[..n][i]) {
      assert events[..n][..i] == events[..i];
    }
  }

  /**
    In every run of any number of rotations from an install, whichever of them failed and wherever: as long
    as cleanings succeed and nothing ends uncertain, the staged key is there only while a rotation owns it.
    So once all have exited nothing is left in the way of the next one.
  */
  lemma {:induction false} StagedOnlyWhileOwned(s: State, events: seq<Event>)
    requires Installed(s) && LeavesNone(s, events)
    ensures NextIsOwned(Run(s, events))
    decreases |events|
  {
    if events != [] {
      var front, n := events[..|events| - 1], |events| - 1;
      LeavesNoneBefore(s, events);
      StagedOnlyWhileOwned(s, front);
      RunKeepsInv(s, front);
      assert events[..n] == front && !Leaves(Run(s, events[..n]), events[n]);
      LeftBehindIff(Run(s, front), events[n]);
    }
  }

  /** And then a fresh rotation gets through its first check, exactly then. */
  lemma FreshGoesOnIff(s: State, events: seq<Event>, q: nat, key: Key)
    requires Installed(s) && LeavesNone(s, events)
    ensures
      var t := Run(s, events);
      q in t.runs && t.runs[q] == Fresh ==>
        (Step(t, Go(q, true, key)).runs[q] == Checked <==> !exists p :: p in t.runs && Owns(t.runs[p]))
  {
    StagedOnlyWhileOwned(s, events);
  }

  // ---------------------------------------------------------------- the failure arms

  lemma OwnersFit(t: State, p: nat)
    requires Inv(t) && p in t.runs && Owns(t.runs[p])
    ensures OwnerInv(t.fs, t.db, t.runs[p])
  {
  }

  lemma RunReaches(s: State, events: seq<Event>, p: nat)
    requires Installed(s) && p in Run(s, events).runs && Owns(Run(s, events).runs[p])
    ensures Inv(Run(s, events)) && OwnerInv(Run(s, events).fs, Run(s, events).db, Run(s, events).runs[p])
  {
    RunKeepsInv(s, events);
    OwnersFit(Run(s, events), p);
  }

  /** The live key, by name and by content, and the db's own. */
  predicate SameLive(s: State, t: State) {
    && t.db == s.db && (MasterKey in Current(t.fs) <==> MasterKey in Current(s.fs))
    && KeyAt(t.fs, Current(t.fs), MasterKey) == KeyAt(s.fs, Current(s.fs), MasterKey)
  }

  /** What a rotation that failed before its commit ends in: nothing staged, nothing live touched. */
  predicate CleanedUp(s: State, t: State, p: nat) {
    SameLive(s, t) && Next !in Current(t.fs) && p in t.runs && t.runs[p] == Exited(1)
  }

  /**
    Whatever fails from the exclusive create to the seal, the next step takes the staged key away: the
    rotation exits with the db and the live key file as they were.
  */
  lemma FailedStagingCleansUp(s: State, events: seq<Event>, p: nat, key: Key)
    requires Installed(s) && p in Run(s, events).runs && Run(s, events).runs[p].Stage?
    ensures
      var t := Run(s, events);
      CleanedUp(t, Step(Step(t, Go(p, false, key)), Go(p, true, key)), p)
  {
    RunReaches(s, events, p);
    var t := Run(s, events);
    StagingFails(t, p, key);
    StageKeepsInv(t, p, false);
    CleaningCleans(Step(t, Go(p, false, key)), p, key);
  }

  lemma StagingFails(t: State, p: nat, key: Key)
    requires Inv(t) && p in t.runs && t.runs[p].Stage?
    ensures
      var u := Step(t, Go(p, false, key));
      SameLive(t, u) && p in u.runs && u.runs[p] == Cleaning(t.runs[p].ino)
  {
    assert OwnerInv(t.fs, t.db, t.runs[p]);
    if t.runs[p].step == CopyBak {
      CopyKeepsLive(t.fs, Partial);
    }
  }

  lemma CleaningCleans(t: State, p: nat, key: Key)
    requires Inv(t) && p in t.runs && t.runs[p].Cleaning?
    ensures CleanedUp(t, Step(t, Go(p, true, key)), p)
  {
  }

  /** So does a seal that is known to have changed nothing, or that finds the db no longer under the old key. */
  lemma UnchangedSealCleansUp(s: State, events: seq<Event>, p: nat, outcome: Seal, key: Key)
    requires Installed(s) && p in Run(s, events).runs && Run(s, events).runs[p].Sealing?
    requires outcome == Unchanged || (outcome == Committed && Run(s, events).db != Some(Run(s, events).runs[p].oldKey))
    ensures
      var t := Run(s, events);
      CleanedUp(t, Step(Step(t, Reseal(p, outcome)), Go(p, true, key)), p)
  {
    RunReaches(s, events, p);
    var t := Run(s, events);
    ResealKeepsInv(t, p, outcome);
    CleaningCleans(Step(t, Reseal(p, outcome)), p, key);
  }

  /** Both keys are there, whole, and the db is under one of them. */
  predicate Recoverable(t: State, oldKey: Key, newKey: Key) {
    && t.db in {Some(oldKey), Some(newKey)}
    && KeyAt(t.fs, Current(t.fs), Next) == Some(newKey) && KeyAt(t.fs, Current(t.fs), Bak) == Some(oldKey)
  }

  /** A seal of unknown effect deletes nothing: the operator finds both keys, whichever the db is under. */
  lemma UncertainSealKeepsBoth(s: State, events: seq<Event>, p: nat, committed: bool)
    requires Installed(s) && p in Run(s, events).runs && Run(s, events).runs[p].Sealing?
    requires Run(s, events).db == Some(Run(s, events).runs[p].oldKey)
    ensures
      var t, u := Run(s, events), Step(Run(s, events), Reseal(p, Uncertain(committed)));
      && Recoverable(u, t.runs[p].oldKey, t.runs[p].newKey) && u.fs == t.fs && u.runs[p] == Exited(1)
      && (u.db == Some(t.runs[p].newKey) <==> committed || t.runs[p].oldKey == t.runs[p].newKey)
  {
    RunReaches(s, events, p);
  }

  /** So does a promotion that fails, and one that succeeds puts the new key in place even if its sync fails. */
  lemma PromotionEnds(s: State, events: seq<Event>, p: nat, synced: bool, key: Key)
    requires Installed(s) && p in Run(s, events).runs && Run(s, events).runs[p].Promoting?
    ensures
      var t := Run(s, events);
      var failed, renamed := Step(t, Go(p, false, key)), Step(t, Go(p, true, key));
      var end := Step(renamed, Go(p, synced, key));
      && Recoverable(failed, t.runs[p].oldKey, t.runs[p].newKey) && failed.runs[p] == Exited(1)
      && failed.db == Some(t.runs[p].newKey)
      && KeyAt(end.fs, Current(end.fs), MasterKey) == Some(t.runs[p].newKey) && Next !in Current(end.fs)
      && KeyAt(end.fs, Current(end.fs), Bak) == Some(t.runs[p].oldKey) && end.runs[p] == Exited(0)
      && end.db == Some(t.runs[p].newKey)
  {
    RunReaches(s, events, p);
    PromotionFails(Run(s, events), p, key);
    PromotionWorks(Run(s, events), p, synced, key);
  }

  lemma PromotionFails(t: State, p: nat, key: Key)
    requires Inv(t) && p in t.runs && t.runs[p].Promoting?
    ensures
      var failed := Step(t, Go(p, false, key));
      && Recoverable(failed, t.runs[p].oldKey, t.runs[p].newKey) && failed.runs[p] == Exited(1)
      && failed.db == Some(t.runs[p].newKey)
  {
    assert OwnerInv(t.fs, t.db, t.runs[p]);
  }

  lemma PromotionWorks(t: State, p: nat, synced: bool, key: Key)
    requires Inv(t) && p in t.runs && t.runs[p].Promoting?
    ensures
      var end := Step(Step(t, Go(p, true, key)), Go(p, synced, key));
      && KeyAt(end.fs, Current(end.fs), MasterKey) == Some(t.runs[p].newKey) && Next !in Current(end.fs)
      && KeyAt(end.fs, Current(end.fs), Bak) == Some(t.runs[p].oldKey) && end.runs[p] == Exited(0)
      && end.db == Some(t.runs[p].newKey)
  {
    assert OwnerInv(t.fs, t.db, t.runs[p]);
    var renamed := Step(t, Go(p, true, key));
    assert Current(renamed.fs) == Current(t.fs)[MasterKey := Current(t.fs)[Next]] - {Next};
  }

  // ---------------------------------------------------------------- what a run without a seal leaves alone

  /** The event moved the db to another key, or the live name to another file. */
  predicate Moves(s: State, e: Event) {
    match e
    case Go(p, ok, _) => p in s.runs && ok && s.runs[p].Promoting?
    case Reseal(p, outcome) =>
      && p in s.runs && s.runs[p].Sealing? && s.db == Some(s.runs[p].oldKey)
      && (outcome == Committed || outcome == Uncertain(true))
    case Crash(_, _) => true
    case Spawn(_) => false
  }

  lemma StepSameLive(s: State, e: Event)
    requires Inv(s) && s.db.Some? && !Moves(s, e)
    ensures SameLive(s, Step(s, e))
  {
    if e.Go? && e.p in s.runs {
      if s.runs[e.p].Stage? {
        StageSameLive(s, e.p, e.ok);
      } else if s.runs[e.p].Opened? {
        CreateSameLive(s, e.p, e.ok, e.key);
      }
    }
  }

  lemma CreateSameLive(s: State, p: nat, ok: bool, key: Key)
    requires Inv(s) && p in s.runs && s.runs[p].Opened?
    ensures SameLive(s, OnCreate(s, p, s.runs[p].oldKey, ok, key))
  {
  }

  lemma StageSameLive(s: State, p: nat, ok: bool)
    requires Inv(s) && p in s.runs && s.runs[p].Stage?
    ensures SameLive(s, OnStage(s, p, s.runs[p], ok))
  {
    var pc := s.runs[p];
    assert OwnerInv(s.fs, s.db, pc);
    if pc.step == CopyBak {
      var source := KeyAt(s.fs, Current(s.fs), MasterKey);
      CopyKeepsLive(s.fs, if ok && source.Some? then Whole(source.value) else Partial);
    } else {
      PutSameLive(s, p, ok);
    }
  }

  lemma CopyKeepsLive(fs: Fs, content: Content)
    requires Links(fs)
    ensures
      var fs2 := Copied(fs, content);
      && (MasterKey in Current(fs2) <==> MasterKey in Current(fs))
      && KeyAt(fs2, Current(fs2), MasterKey) == KeyAt(fs, Current(fs), MasterKey)
  {
    var last := |fs.views| - 1;
    assert MasterKey in fs.views[last] && Bak in fs.views[last] ==> fs.views[last][Bak] != fs.views[last][MasterKey];
  }

  lemma PutSameLive(s: State, p: nat, ok: bool)
    requires Inv(s) && p in s.runs && s.runs[p].Stage? && s.runs[p].step != CopyBak
    ensures SameLive(s, OnStage(s, p, s.runs[p], ok))
  {
    var last := |s.fs.views| - 1;
    assert OwnerInv(s.fs, s.db, s.runs[p]);
    assert MasterKey in s.fs.views[last] ==> s.fs.views[last][MasterKey] != s.runs[p].ino;
    assert MasterKey in s.fs.views[last] && Bak in s.fs.views[last] ==>
        s.fs.views[last][Bak] != s.fs.views[last][MasterKey];
  }

  ghost predicate MovesNone(s: State, events: seq<Event>) {
    forall i :: 0 <= i < |events| ==> !Moves(Run(s, events[..i]), events[i])
  }

  lemma MovesNoneBefore(s: State, events: seq<Event>)
    requires events != [] && MovesNone(s, events)
    ensures MovesNone(s, events[..|events| - 1])
  {
    var n := |events| - 1;
    forall i | 0 <= i < n ensures !Moves(Run(s, events[..n][..i]), events[..n][i]) {
      assert events[..n][..i] == events[..i];
    }
  }

  lemma ThenSameLive(s: State, t: State, e: Event)
    requires SameLive(s, t) && s.db.Some? && Inv(t) && !Moves(t, e)
    ensures SameLive(s, Step(t, e))
  {
    StepSameLive(t, e);
  }

  /** Until some rotation seals, no failure of any of them changes the db's key or the live key file. */
  lemma {:induction false} LiveUntilSealed(s: State, events: seq<Event>)
    requires Installed(s) && s.db.Some? && MovesNone(s, events)
    ensures SameLive(s, Run(s, events))
    decreases |events|
  {
    if events != [] {
      var front, n := events[..|events| - 1], |events| - 1;
      MovesNoneBefore(s, events);
      LiveUntilSealed(s, front);
      RunKeepsInv(s, front);
      assert events[..n] == front && !Moves(Run(s, events[..n]), events[n]);
      ThenSameLive(s, Run(s, front), events[n]);
    }
  }

  // ---------------------------------------------------------------- what lets a rotation go on

  /**
    In every reachable state each step before the create is passed exactly when its own condition holds: no
    staged key, a live key that opens the db, and again no staged key.
  */
  lemma GoesOnIff(s: State, events: seq<Event>, p: nat, key: Key)
    requires Installed(s) && p in Run(s, events).runs
    ensures
      var t := Run(s, events);
      var u := Step(t, Go(p, true, key));
      var live, free := KeyAt(t.fs, Current(t.fs), MasterKey), Next !in Current(t.fs);
      && (t.runs[p].Fresh? ==> u == With(t, p, if free then Checked else Exited(1)))
      && (t.runs[p].Checked? ==>
            if live.Some? && (t.db.None? || t.db == live) then
              u == With(t, p, Opened(live.value)).(db := live)
            else u == With(t, p, Exited(1)))
      && (t.runs[p].Opened? ==>
            if free then u.runs[p] == Stage(t.runs[p].oldKey, key, |t.fs.files|, WriteNext) && Next in Current(u.fs)
            else u == With(t, p, Exited(1)))
  {
    RunKeepsInv(s, events);
  }

  // ---------------------------------------------------------------- what each step leaves on disk

  /** The file a name leads to. */
  function FileAt(fs: Fs, name: Name): Option<File> {
    if name in Current(fs) && Current(fs)[name] < |fs.files| then Some(fs.files[Current(fs)[name]]) else None
  }

  /** A crash leaves every fsynced file as it is; of the others it keeps whole the ones it happens to, torn the rest. */
  lemma CrashTears(s: State, kept: nat, whole: set<nat>, i: nat)
    requires i < |s.fs.files|
    ensures
      var f, after := s.fs.files[i], OnCrash(s, kept, whole);
      && i < |after.fs.files| && after.fs.files[i].synced && after.db == s.db && after.runs == map[]
      && after.fs.files[i].content == (if f.synced || i in whole then f.content else Partial)
      && (kept < |s.fs.views| ==> Current(after.fs) == s.fs.views[kept])
  {
  }

  /** The rotation is at this staging step, and these are the states before and after it. */
  ghost predicate Stages(t: State, u: State, p: nat, ok: bool, step: Staging) {
    && Inv(t) && p in t.runs && t.runs[p].Stage? && t.runs[p].step == step && t.db.Some?
    && u == OnStage(t, p, t.runs[p], ok)
  }

  lemma WritingLeaves(t: State, u: State, p: nat, ok: bool)
    requires Stages(t, u, p, ok, WriteNext)
    ensures FileAt(u.fs, Next) == Some(File(if ok then Whole(t.runs[p].newKey) else Partial, false))
    ensures Current(u.fs) == Current(t.fs)
  {
    assert OwnerInv(t.fs, t.db, t.runs[p]);
  }

  lemma SyncingLeaves(t: State, u: State, p: nat, ok: bool)
    requires Stages(t, u, p, ok, SyncNext)
    ensures FileAt(u.fs, Next) == Some(File(Whole(t.runs[p].newKey), ok)) && Current(u.fs) == Current(t.fs)
  {
    assert OwnerInv(t.fs, t.db, t.runs[p]);
  }

  lemma CopyingLeaves(t: State, u: State, p: nat, ok: bool)
    requires Stages(t, u, p, ok, CopyBak)
    ensures FileAt(u.fs, Bak) == Some(File(if ok then Whole(t.db.value) else Partial, false))
  {
    assert OwnerInv(t.fs, t.db, t.runs[p]);
    assert Bak in Current(t.fs) ==> Current(t.fs)[Bak] < |t.fs.files|;
  }

  lemma BackingLeaves(t: State, u: State, p: nat, ok: bool)
    requires Stages(t, u, p, ok, SyncBak)
    ensures Current(u.fs) == Current(t.fs) && (!ok ==> u.fs == t.fs)
    ensures ok ==> FileAt(u.fs, Bak) == Some(File(Whole(t.db.value), true))
  {
    assert OwnerInv(t.fs, t.db, t.runs[p]);
  }

  /**
    In every run each staging step leaves on disk what it is there for: the new key whole under its staged
    name, then fsynced; the db's key in the backup, then fsynced; then the directory.  A failed write or
    copy leaves a torn file, which is what the cleaning and the next rotation have to live with.
  */
  lemma StagingLeaves(s: State, events: seq<Event>, p: nat, ok: bool, key: Key)
    requires Installed(s) && p in Run(s, events).runs && Run(s, events).runs[p].Stage?
    ensures
      var t, u := Run(s, events), Step(Run(s, events), Go(p, ok, key));
      t.db.Some? &&
      match t.runs[p].step
      case WriteNext => FileAt(u.fs, Next) == Some(File(if ok then Whole(t.runs[p].newKey) else Partial, false))
      case SyncNext => FileAt(u.fs, Next) == Some(File(Whole(t.runs[p].newKey), ok))
      case CloseNext => u.fs == t.fs
      case CopyBak => FileAt(u.fs, Bak) == Some(File(if ok then Whole(t.db.value) else Partial, false))
      case SyncBak => if ok then FileAt(u.fs, Bak) == Some(File(Whole(t.db.value), true)) else u.fs == t.fs
      case SyncDirectory => if ok then u.fs == Fs(t.fs.files, [Current(t.fs)]) else u.fs == t.fs
  {
    RunReaches(s, events, p);
    var t, u := Run(s, events), Step(Run(s, events), Go(p, ok, key));
    match t.runs[p].step
    case WriteNext => WritingLeaves(t, u, p, ok);
    case SyncNext => SyncingLeaves(t, u, p, ok);
    case CopyBak => CopyingLeaves(t, u, p, ok);
    case SyncBak => BackingLeaves(t, u, p, ok);
    case _ =>
  }
}
