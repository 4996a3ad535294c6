/**
  Rotation of the master key over a crashing file system.

  Any number of rotations run side by side; what keeps them apart here is the exclusive create of
  `master-key.next` alone.  Every file operation may fail, and a crash may come at any point: it loses
  any suffix of the directory operations that no directory fsync has covered, and tears any file whose
  content was not fsynced.  Re-encrypting the secrets is one transaction, whose commit may also be
  reported as a failure of unknown effect.
*/
module Rotation {
  import opened Wrappers

  /** A key is an identity that opens the db or does not. */
  type Key = nat

  datatype Name = MasterKey | Next | Bak

  datatype Content = Whole(key: Key) | Partial

  datatype File = File(content: Content, synced: bool)

  type Dir = map<Name, nat>

  /**
    `views[0]` is the directory on disk; each later view is the directory after one more operation that
    no directory fsync has covered yet.  The last one is what processes see; a crash leaves any one.
  */
  datatype Fs = Fs(files: seq<File>, views: seq<Dir>)

  function Current(fs: Fs): Dir { if fs.views == [] then map[] else fs.views[|fs.views| - 1] }

  function Do(fs: Fs, dir: Dir): Fs { fs.(views := fs.views + [dir]) }

  function Link(fs: Fs, name: Name, ino: nat): Fs { Do(fs, Current(fs)[name := ino]) }

  /** A file created under a new name. */
  function Created(fs: Fs, name: Name, f: File): Fs { Link(fs.(files := fs.files + [f]), name, |fs.files|) }

  function Unlink(fs: Fs, name: Name): Fs { Do(fs, Current(fs) - {name}) }

  function Rename(fs: Fs, from: Name, to: Name): Fs {
    var dir := Current(fs);
    Do(fs, if from in dir then dir[to := dir[from]] - {from} else dir)
  }

  function FsyncDir(fs: Fs): Fs { fs.(views := [Current(fs)]) }

  function Put(fs: Fs, ino: nat, f: File): Fs {
    if ino < |fs.files| then fs.(files := fs.files[ino := f]) else fs
  }

  // ---------------------------------------------------------------- a rotation

  datatype Staging = WriteNext | SyncNext | CloseNext | CopyBak | SyncBak | SyncDirectory

  datatype Pc =
    | Fresh
    | Checked
    | Opened(oldKey: Key)
    | Stage(oldKey: Key, newKey: Key, ino: nat, step: Staging)
    | Cleaning(ino: nat)
    | Sealing(oldKey: Key, newKey: Key, ino: nat)
    | Promoting(oldKey: Key, newKey: Key, ino: nat)
    | Syncing
    | Exited(code: nat)

  datatype State = State(fs: Fs, db: Option<Key>, runs: map<nat, Pc>)

  datatype Seal = Committed | Unchanged | Uncertain(committed: bool)

  /** `ok` is whether the operation the rotation is at succeeds; `key` is the fresh key it generates. */
  datatype Event =
    | Spawn(p: nat)
    | Go(p: nat, ok: bool, key: Key)
    | Reseal(p: nat, outcome: Seal)
    | Crash(kept: nat, whole: set<nat>)

  function With(s: State, p: nat, pc: Pc): State { s.(runs := s.runs[p := pc]) }

  /** The whole key stored under a name, if it is one. */
  function KeyAt(fs: Fs, dir: Dir, name: Name): Option<Key> {
    if name in dir && dir[name] < |fs.files| && fs.files[dir[name]].content.Whole?
    then Some(fs.files[dir[name]].content.key) else None
  }

  /** Opening the store proves the key file's key against the canary, and seals an empty db under it. */
  function OnOpen(s: State, p: nat, ok: bool): State {
    var key := KeyAt(s.fs, Current(s.fs), MasterKey);
    if !ok || key.None? || (s.db.Some? && s.db != key) then With(s, p, Exited(1))
    else With(s.(db := key), p, Opened(key.value))
  }

  /** The exclusive create is the claim: from this very step the file is this rotation's own. */
  function OnCreate(s: State, p: nat, oldKey: Key, ok: bool, key: Key): State {
    if Next in Current(s.fs) || !ok then With(s, p, Exited(1))
    else
      var ino := |s.fs.files|;
      var fs := Created(s.fs, Next, File(Partial, false));
      With(s.(fs := fs), p, Stage(oldKey, key, ino, WriteNext))
  }

  /** `copyFileSync`: overwrites the backup in place, or creates it. */
  function Copied(fs: Fs, content: Content): Fs {
    var dir := Current(fs);
    if Bak in dir then Put(fs, dir[Bak], File(content, false))
    else Created(fs, Bak, File(content, false))
  }

  function OnStage(s: State, p: nat, pc: Pc, ok: bool): State
    requires pc.Stage?
  {
    var dir := Current(s.fs);
    match pc.step
    case WriteNext =>
      With(s.(fs := Put(s.fs, pc.ino, File(if ok then Whole(pc.newKey) else Partial, false))), p,
           if ok then pc.(step := SyncNext) else Cleaning(pc.ino))
    case SyncNext =>
      if ok && pc.ino < |s.fs.files| then
        With(s.(fs := Put(s.fs, pc.ino, s.fs.files[pc.ino].(synced := true))), p, pc.(step := CloseNext))
      else With(s, p, Cleaning(pc.ino))
    case CloseNext => With(s, p, if ok then pc.(step := CopyBak) else Cleaning(pc.ino))
    case CopyBak =>
      var source := KeyAt(s.fs, dir, MasterKey);
      if ok && source.Some? then With(s.(fs := Copied(s.fs, Whole(source.value))), p, pc.(step := SyncBak))
      else With(s.(fs := Copied(s.fs, Partial)), p, Cleaning(pc.ino))
    case SyncBak =>
      if ok && Bak in dir && dir[Bak] < |s.fs.files| then
        With(s.(fs := Put(s.fs, dir[Bak], s.fs.files[dir[Bak]].(synced := true))), p, pc.(step := SyncDirectory))
      else With(s, p, Cleaning(pc.ino))
    case SyncDirectory =>
      if ok then With(s.(fs := FsyncDir(s.fs)), p, Sealing(pc.oldKey, pc.newKey, pc.ino))
      else With(s, p, Cleaning(pc.ino))
  }

  function OnGo(s: State, p: nat, ok: bool, key: Key): State {
    if p !in s.runs then s
    else match s.runs[p]
      case Fresh => With(s, p, if ok && Next !in Current(s.fs) then Checked else Exited(1))
      case Checked => OnOpen(s, p, ok)
      case Opened(oldKey) => OnCreate(s, p, oldKey, ok, key)
      case Stage(_, _, _, _) => OnStage(s, p, s.runs[p], ok)
      case Cleaning(_) => With(if ok then s.(fs := Unlink(s.fs, Next)) else s, p, Exited(1))
      case Sealing(_, _, _) => s
      case Promoting(_, _, _) =>
        if ok then With(s.(fs := Rename(s.fs, Next, MasterKey)), p, Syncing) else With(s, p, Exited(1))
      case Syncing => With(if ok then s.(fs := FsyncDir(s.fs)) else s, p, Exited(0))
      case Exited(_) => s
  }

  /** Every row must open under the old key, or nothing is committed; an uncertain end keeps both keys. */
  function OnReseal(s: State, p: nat, outcome: Seal): State {
    if p !in s.runs || !s.runs[p].Sealing? then s
    else
      var Sealing(oldKey, newKey, ino) := s.runs[p];
      match outcome
      case Uncertain(committed) =>
        With(if committed && s.db == Some(oldKey) then s.(db := Some(newKey)) else s, p, Exited(1))
      case Committed =>
        if s.db == Some(oldKey) then With(s.(db := Some(newKey)), p, Promoting(oldKey, newKey, ino))
        else With(s, p, Cleaning(ino))
      case Unchanged => With(s, p, Cleaning(ino))
  }

  function Torn(f: File, whole: bool): File {
    if f.synced then f else File(if whole then f.content else Partial, true)
  }

  function OnCrash(s: State, kept: nat, whole: set<nat>): State {
    var dir := if kept < |s.fs.views| then s.fs.views[kept] else Current(s.fs);
    var files := seq(|s.fs.files|, i requires 0 <= i < |s.fs.files| => Torn(s.fs.files[i], i in whole));
    State(Fs(files, [dir]), s.db, map[])
  }

  function Step(s: State, e: Event): State {
    match e
    case Spawn(p) => if p in s.runs then s else With(s, p, Fresh)
    case Go(p, ok, key) => OnGo(s, p, ok, key)
    case Reseal(p, outcome) => OnReseal(s, p, outcome)
    case Crash(kept, whole) => OnCrash(s, kept, whole)
  }

  function Run(s: State, events: seq<Event>): State {
    if events == [] then s else Step(Run(s, events[..|events| - 1]), events[|events| - 1])
  }

  // ---------------------------------------------------------------- the invariant

  /** `name` holds the whole key `k`, fsynced. */
  predicate Holds(fs: Fs, dir: Dir, name: Name, k: Key) {
    name in dir && dir[name] < |fs.files| && fs.files[dir[name]] == File(Whole(k), true)
  }

  /** In this directory the db can still be opened. */
  predicate Openable(fs: Fs, dir: Dir, db: Option<Key>) {
    db.Some? ==> Holds(fs, dir, MasterKey, db.value) || Holds(fs, dir, Next, db.value)
  }

  /** A crash right now leaves the db openable, whatever it loses. */
  predicate CrashSafe(fs: Fs, db: Option<Key>) {
    forall i :: 0 <= i < |fs.views| ==> Openable(fs, fs.views[i], db)
  }

  /** The live key file is the db's, or is the one an empty db would be sealed under. */
  predicate LiveKey(fs: Fs, dir: Dir, db: Option<Key>) {
    if db.Some? then Holds(fs, dir, MasterKey, db.value)
    else MasterKey in dir ==> dir[MasterKey] < |fs.files| && fs.files[dir[MasterKey]].synced
  }

  /** Names are links to known files, no two of them to one, and the backup's file is never a key file's. */
  predicate Links(fs: Fs) {
    && |fs.views| > 0
    && (forall i, n :: 0 <= i < |fs.views| && n in fs.views[i] ==> fs.views[i][n] < |fs.files|)
    && (forall i, j, n ::
          0 <= i < |fs.views| && 0 <= j < |fs.views| && Bak in fs.views[i] && n in fs.views[j] && n != Bak ==>
          fs.views[i][Bak] != fs.views[j][n])
  }

  predicate Owns(pc: Pc) { pc.Stage? || pc.Cleaning? || pc.Sealing? || pc.Promoting? }

  /** What the rotation that owns `master-key.next` has established so far. */
  predicate OwnerInv(fs: Fs, db: Option<Key>, pc: Pc)
    requires Owns(pc)
  {
    var dir := Current(fs);
    && Next in dir && dir[Next] == pc.ino < |fs.files| && db.Some?
    && (pc.Stage? ==> forall i :: 0 <= i < |fs.views| && MasterKey in fs.views[i] ==> fs.views[i][MasterKey] != pc.ino)
    && (if pc.Promoting? then
          |fs.views| == 1 && db == Some(pc.newKey) && Holds(fs, dir, Next, pc.newKey) && Holds(fs, dir, Bak, pc.oldKey)
        else LiveKey(fs, dir, db))
    && (pc.Stage? && pc.step in {WriteNext, SyncNext} ==> !fs.files[pc.ino].synced)
    && (pc.Stage? && pc.step == SyncNext ==> fs.files[pc.ino].content == Whole(pc.newKey))
    && (pc.Stage? && pc.step !in {WriteNext, SyncNext} ==> Holds(fs, dir, Next, pc.newKey))
    && (pc.Stage? && pc.step == SyncBak ==> KeyAt(fs, dir, Bak) == db)
    && (pc.Stage? && pc.step == SyncDirectory ==> Holds(fs, dir, Bak, db.value))
    && (pc.Sealing? ==> |fs.views| == 1 && Holds(fs, dir, Next, pc.newKey) && Holds(fs, dir, Bak, db.value))
  }

  predicate FsInv(fs: Fs, db: Option<Key>) {
    && Links(fs) && CrashSafe(fs, db)
    && (db.None? ==> |fs.views| == 1 && LiveKey(fs, Current(fs), db))
    && (Next !in Current(fs) ==> LiveKey(fs, Current(fs), db))
  }

  ghost predicate Inv(s: State) {
    && FsInv(s.fs, s.db)
    && (forall p :: p in s.runs && s.runs[p].Opened? ==> s.db.Some?)
    && (forall p :: p in s.runs && Owns(s.runs[p]) ==> OwnerInv(s.fs, s.db, s.runs[p]))
    && (forall p, q :: p in s.runs && q in s.runs && Owns(s.runs[p]) && Owns(s.runs[q]) ==> p == q)
  }

  /** The owner moved: nobody else owns anything, so its own facts are all there is to keep. */
  lemma OwnerMoves(s: State, p: nat, fs: Fs, db: Option<Key>, pc: Pc)
    requires Inv(s) && p in s.runs && (Owns(s.runs[p]) || Next !in Current(s.fs))
    requires FsInv(fs, db) && (Owns(pc) ==> OwnerInv(fs, db, pc)) && !pc.Opened? && (s.db.Some? ==> db.Some?)
    ensures Inv(State(fs, db, s.runs[p := pc]))
  {
  }

  /** Somebody who owns nothing moved: the owner's facts must survive. */
  lemma OtherMoves(s: State, p: nat, fs: Fs, db: Option<Key>, pc: Pc)
    requires Inv(s) && p in s.runs && !Owns(s.runs[p]) && !Owns(pc)
    requires FsInv(fs, db) && (pc.Opened? || s.db.Some? ==> db.Some?)
    requires forall q :: q in s.runs && Owns(s.runs[q]) ==> OwnerInv(fs, db, s.runs[q])
    ensures Inv(State(fs, db, s.runs[p := pc]))
  {
  }

  lemma OpenKeepsInv(s: State, p: nat, ok: bool)
    requires Inv(s) && p in s.runs && s.runs[p] == Checked
    ensures Inv(OnOpen(s, p, ok))
  {
    var t := OnOpen(s, p, ok);
    OtherMoves(s, p, t.fs, t.db, t.runs[p]);
  }

  lemma NewLinkKeepsLinks(fs: Fs, name: Name, f: File)
    requires Links(fs)
    ensures Links(Created(fs, name, f))
    ensures fs.views <= Created(fs, name, f).views
  {
    var fs2, last := Created(fs, name, f), |fs.views| - 1;
    var added := fs.views[last][name := |fs.files|];
    assert fs2.views == fs.views + [added];
    forall i, j, n | 0 <= i < |fs2.views| && 0 <= j < |fs2.views| && Bak in fs2.views[i] && n in fs2.views[j]
        && n != Bak
      ensures fs2.views[i][Bak] != fs2.views[j][n]
    {
      var i0, j0 := if i < |fs.views| then i else last, if j < |fs.views| then j else last;
      assert Bak != name || i < |fs.views| ==> fs2.views[i][Bak] == fs.views[i0][Bak];
      assert n != name || j < |fs.views| ==> fs2.views[j][n] == fs.views[j0][n];
    }
  }

  lemma CreateKeepsFs(s: State, p: nat, oldKey: Key, key: Key)
    requires FsInv(s.fs, s.db) && s.db.Some? && Next !in Current(s.fs)
    ensures var t := OnCreate(s, p, oldKey, true, key);
            FsInv(t.fs, t.db) && OwnerInv(t.fs, t.db, t.runs[p])
  {
    NewLinkKeepsLinks(s.fs, Next, File(Partial, false));
    var t := OnCreate(s, p, oldKey, true, key);
    assert forall i :: 0 <= i < |s.fs.views| ==> t.fs.views[i] == s.fs.views[i];
  }

  lemma CreateKeepsInv(s: State, p: nat, ok: bool, key: Key)
    requires Inv(s) && p in s.runs && s.runs[p].Opened?
    ensures Inv(OnCreate(s, p, s.runs[p].oldKey, ok, key))
  {
    var t := OnCreate(s, p, s.runs[p].oldKey, ok, key);
    if t.runs[p].Stage? {
      CreateKeepsFs(s, p, s.runs[p].oldKey, key);
      OwnerMoves(s, p, t.fs, t.db, t.runs[p]);
    } else {
      OtherMoves(s, p, t.fs, t.db, t.runs[p]);
    }
  }

  /** Rewriting the staged key: only views that do not rely on it point at it. */
  lemma WriteKeepsFs(s: State, p: nat, pc: Pc, ok: bool)
    requires FsInv(s.fs, s.db) && pc.Stage? && OwnerInv(s.fs, s.db, pc) && pc.step == WriteNext
    ensures var t := OnStage(s, p, pc, ok);
            FsInv(t.fs, t.db) && t.db == s.db && OwnerInv(t.fs, t.db, t.runs[p])
  {
    var t := OnStage(s, p, pc, ok);
    assert t.fs.views == s.fs.views;
    forall i | 0 <= i < |t.fs.views| ensures Openable(t.fs, t.fs.views[i], t.db) {
      assert Openable(s.fs, s.fs.views[i], s.db);
    }
  }

  lemma SyncKeepsFs(s: State, p: nat, pc: Pc, ok: bool)
    requires FsInv(s.fs, s.db) && pc.Stage? && OwnerInv(s.fs, s.db, pc) && pc.step in {SyncNext, CloseNext}
    ensures var t := OnStage(s, p, pc, ok);
            FsInv(t.fs, t.db) && t.db == s.db && OwnerInv(t.fs, t.db, t.runs[p])
  {
    var t := OnStage(s, p, pc, ok);
    assert t.fs.views == s.fs.views;
    forall i | 0 <= i < |t.fs.views| ensures Openable(t.fs, t.fs.views[i], t.db) {
      assert Openable(s.fs, s.fs.views[i], s.db);
    }
  }

  /** The copy reaches only the backup: no key name moves and no key file changes, in any view. */
  lemma CopyLeavesKeys(fs: Fs, content: Content)
    requires Links(fs)
    ensures var fs2 := Copied(fs, content);
            && Links(fs2) && fs.views <= fs2.views && |fs.files| <= |fs2.files|
            && Current(fs2) - {Bak} == Current(fs) - {Bak}
            && Bak in Current(fs2) && fs2.files[Current(fs2)[Bak]].content == content
            && (forall i, n :: 0 <= i < |fs2.views| && n in fs2.views[i] && n != Bak ==>
                  fs2.views[i][n] < |fs.files| && fs2.files[fs2.views[i][n]] == fs.files[fs2.views[i][n]])
            && (forall i :: |fs.views| <= i < |fs2.views| ==> fs2.views[i] == Current(fs2))
  {
    var dir := Current(fs);
    assert dir == fs.views[|fs.views| - 1];
    if Bak !in dir {
      NewLinkKeepsLinks(fs, Bak, File(content, false));
    }
  }

  lemma SameKeys(fs: Fs, fs2: Fs, dir: Dir, dir2: Dir, name: Name, k: Key)
    requires name != Bak && dir2 - {Bak} == dir - {Bak}
    requires name in dir ==> dir[name] < |fs.files| <= |fs2.files| && fs2.files[dir[name]] == fs.files[dir[name]]
    ensures name in dir2 <==> name in dir
    ensures name in dir ==> dir2[name] == dir[name]
    ensures name in dir ==> Holds(fs2, dir2, name, k) == Holds(fs, dir, name, k)
  {
    assert name in dir2 - {Bak} <==> name in dir - {Bak};
    if name in dir { assert (dir2 - {Bak})[name] == (dir - {Bak})[name]; }
  }

  lemma CopyKeepsFs(s: State, p: nat, pc: Pc, ok: bool)
    requires FsInv(s.fs, s.db) && pc.Stage? && OwnerInv(s.fs, s.db, pc) && pc.step == CopyBak
    ensures var t := OnStage(s, p, pc, ok);
            FsInv(t.fs, t.db) && t.db == s.db && OwnerInv(t.fs, t.db, t.runs[p])
  {
    var fs, t := s.fs, OnStage(s, p, pc, ok);
    var fs2, db := t.fs, s.db.value;
    var source := KeyAt(fs, Current(fs), MasterKey);
    CopyLeavesKeys(fs, if ok && source.Some? then Whole(source.value) else Partial);
    SameKeys(fs, fs2, Current(fs), Current(fs2), MasterKey, db);
    SameKeys(fs, fs2, Current(fs), Current(fs2), Next, pc.newKey);
    forall i | 0 <= i < |fs2.views|
      ensures Openable(fs2, fs2.views[i], t.db)
      ensures MasterKey in fs2.views[i] ==> fs2.views[i][MasterKey] != pc.ino
    {
      if i < |fs.views| {
        assert fs2.views[i] == fs.views[i] && Openable(fs, fs.views[i], s.db);
      }
    }
  }

  lemma BackupKeepsFs(s: State, p: nat, pc: Pc, ok: bool)
    requires FsInv(s.fs, s.db) && pc.Stage? && OwnerInv(s.fs, s.db, pc) && pc.step == SyncBak
    ensures var t := OnStage(s, p, pc, ok);
            FsInv(t.fs, t.db) && t.db == s.db && OwnerInv(t.fs, t.db, t.runs[p])
  {
    var t := OnStage(s, p, pc, ok);
    assert t.fs.views == s.fs.views;
    forall i | 0 <= i < |t.fs.views| ensures Openable(t.fs, t.fs.views[i], t.db) {
      assert Openable(s.fs, s.fs.views[i], s.db);
    }
  }

  lemma DirSyncKeepsFs(s: State, p: nat, pc: Pc, ok: bool)
    requires FsInv(s.fs, s.db) && pc.Stage? && OwnerInv(s.fs, s.db, pc) && pc.step == SyncDirectory
    ensures var t := OnStage(s, p, pc, ok);
            FsInv(t.fs, t.db) && t.db == s.db && OwnerInv(t.fs, t.db, t.runs[p])
  {
    assert Current(s.fs) == s.fs.views[|s.fs.views| - 1];
  }

  lemma StageKeepsFs(s: State, p: nat, pc: Pc, ok: bool)
    requires FsInv(s.fs, s.db) && pc.Stage? && OwnerInv(s.fs, s.db, pc)
    ensures var t := OnStage(s, p, pc, ok);
            && FsInv(t.fs, t.db) && t.db == s.db && p in t.runs && t.runs == s.runs[p := t.runs[p]]
            && Owns(t.runs[p]) && OwnerInv(t.fs, t.db, t.runs[p])
  {
    match pc.step
    case WriteNext => WriteKeepsFs(s, p, pc, ok);
    case CopyBak => CopyKeepsFs(s, p, pc, ok);
    case SyncBak => BackupKeepsFs(s, p, pc, ok);
    case SyncDirectory => DirSyncKeepsFs(s, p, pc, ok);
    case _ => SyncKeepsFs(s, p, pc, ok);
  }

  lemma StageKeepsInv(s: State, p: nat, ok: bool)
    requires Inv(s) && p in s.runs && s.runs[p].Stage?
    ensures Inv(OnStage(s, p, s.runs[p], ok))
  {
    var pc := s.runs[p];
    assert OwnerInv(s.fs, s.db, pc);
    StageKeepsFs(s, p, pc, ok);
    var t := OnStage(s, p, pc, ok);
    OwnerMoves(s, p, t.fs, t.db, t.runs[p]);
  }

  lemma CleanKeepsInv(s: State, p: nat, ok: bool, key: Key)
    requires Inv(s) && p in s.runs && s.runs[p].Cleaning?
    ensures Inv(OnGo(s, p, ok, key))
  {
    var t := OnGo(s, p, ok, key);
    OwnerMoves(s, p, t.fs, t.db, t.runs[p]);
  }

  lemma RenameKeepsFs(fs: Fs, db: Option<Key>, pc: Pc)
    requires FsInv(fs, db) && pc.Promoting? && OwnerInv(fs, db, pc)
    ensures FsInv(Rename(fs, Next, MasterKey), db)
  {
  }

  lemma PromoteKeepsInv(s: State, p: nat, ok: bool, key: Key)
    requires Inv(s) && p in s.runs && s.runs[p].Promoting?
    ensures Inv(OnGo(s, p, ok, key))
  {
    var t := OnGo(s, p, ok, key);
    RenameKeepsFs(s.fs, s.db, s.runs[p]);
    OwnerMoves(s, p, t.fs, t.db, t.runs[p]);
  }

  lemma SyncingKeepsInv(s: State, p: nat, ok: bool, key: Key)
    requires Inv(s) && p in s.runs && s.runs[p].Syncing?
    ensures Inv(OnGo(s, p, ok, key))
  {
    var t := OnGo(s, p, ok, key);
    OtherMoves(s, p, t.fs, t.db, t.runs[p]);
  }

  /** Nothing is pending when the db's key changes, and the new key is staged whole. */
  lemma ResealKeepsFs(fs: Fs, db: Option<Key>, pc: Pc)
    requires FsInv(fs, db) && pc.Sealing? && OwnerInv(fs, db, pc)
    ensures FsInv(fs, Some(pc.newKey))
    ensures db == Some(pc.oldKey) ==> OwnerInv(fs, Some(pc.newKey), Promoting(pc.oldKey, pc.newKey, pc.ino))
    ensures OwnerInv(fs, db, Cleaning(pc.ino))
  {
    assert Current(fs) == fs.views[0];
  }

  lemma ResealKeepsInv(s: State, p: nat, outcome: Seal)
    requires Inv(s)
    ensures Inv(OnReseal(s, p, outcome))
  {
    if p in s.runs && s.runs[p].Sealing? {
      ResealKeepsFs(s.fs, s.db, s.runs[p]);
      var t := OnReseal(s, p, outcome);
      OwnerMoves(s, p, t.fs, t.db, t.runs[p]);
    }
  }

  lemma CrashKeepsInv(s: State, kept: nat, whole: set<nat>)
    requires Inv(s)
    ensures Inv(OnCrash(s, kept, whole))
  {
  }

  lemma StepKeepsInv(s: State, e: Event)
    requires Inv(s)
    ensures Inv(Step(s, e))
  {
    match e
    case Spawn(p) =>
    case Reseal(p, outcome) => ResealKeepsInv(s, p, outcome);
    case Crash(kept, whole) => CrashKeepsInv(s, kept, whole);
    case Go(p, ok, key) =>
      if p in s.runs {
        match s.runs[p]
        case Fresh => OtherMoves(s, p, s.fs, s.db, OnGo(s, p, ok, key).runs[p]);
        case Checked => OpenKeepsInv(s, p, ok);
        case Opened(_) => CreateKeepsInv(s, p, ok, key);
        case Stage(_, _, _, _) => StageKeepsInv(s, p, ok);
        case Cleaning(_) => CleanKeepsInv(s, p, ok, key);
        case Promoting(_, _, _) => PromoteKeepsInv(s, p, ok, key);
        case Syncing => SyncingKeepsInv(s, p, ok, key);
        case Sealing(_, _, _) =>
        case Exited(_) =>
      }
  }

  lemma {:induction false} RunKeepsInv(s: State, events: seq<Event>)
    requires Inv(s)
    ensures Inv(Run(s, events))
    decreases |events|
  {
    if events != [] {
      RunKeepsInv(s, events[..|events| - 1]);
      StepKeepsInv(Run(s, events[..|events| - 1]), events[|events| - 1]);
    }
  }

  // ---------------------------------------------------------------- what it means

  /** An install before any rotation: everything on disk, no staged key, the key file is the db's. */
  ghost predicate Installed(s: State) {
    && |s.fs.views| == 1 && Links(s.fs) && Next !in Current(s.fs) && LiveKey(s.fs, Current(s.fs), s.db)
    && (forall p :: p in s.runs ==> s.runs[p] == Fresh)
  }

  /**
    Whatever rotations ran, failed or crashed before, a crash at this point leaves the key the db is
    sealed under stored whole in `master-key` or `master-key.next`.
  */
  lemma KeyNeverLost(s: State, events: seq<Event>, kept: nat, whole: set<nat>)
    requires Installed(s) && Run(s, events).db.Some?
    ensures var after := Step(Run(s, events), Crash(kept, whole));
            && after.db == Run(s, events).db
            && after.db in {KeyAt(after.fs, Current(after.fs), MasterKey), KeyAt(after.fs, Current(after.fs), Next)}
  {
    RunKeepsInv(s, events);
    CrashKeepsInv(Run(s, events), kept, whole);
  }

  /** Losing the exclusive create, or failing anywhere before it, changes no file, no name and no db key. */
  lemma LoserTouchesNothing(s: State, events: seq<Event>, p: nat, ok: bool, key: Key)
    requires Installed(s)
    requires var t := Run(s, events); p in t.runs && (t.runs[p].Fresh? || t.runs[p].Checked? || t.runs[p].Opened?)
    ensures var t := Run(s, events);
            var u := Step(t, Go(p, ok, key));
            && (u.fs != t.fs ==> u.runs[p].Stage? && Next !in Current(t.fs))
            && (t.db.Some? ==> u.db == t.db)
            && (Next in Current(t.fs) && t.runs[p].Opened? ==> u == With(t, p, Exited(1)))
  {
    RunKeepsInv(s, events);
  }

  /** One rotation owns `master-key.next` at a time, and the file it names is the one that rotation created. */
  lemma OneOwner(s: State, events: seq<Event>, p: nat, q: nat)
    requires Installed(s)
    requires var t := Run(s, events); p in t.runs && q in t.runs && Owns(t.runs[p]) && Owns(t.runs[q])
    ensures p == q
    ensures var t := Run(s, events); Next in Current(t.fs) && Current(t.fs)[Next] == t.runs[p].ino
  {
    RunKeepsInv(s, events);
    var t := Run(s, events);
    assert OwnerInv(t.fs, t.db, t.runs[p]);
  }

  /** The db is under the new key, and each key is whole where the recovery looks for it. */
  predicate BothKeys(s: State, pc: Pc)
    requires pc.Promoting?
  {
    && s.db == Some(pc.newKey)
    && KeyAt(s.fs, Current(s.fs), Bak) == Some(pc.oldKey)
    && KeyAt(s.fs, Current(s.fs), Next) == Some(pc.newKey)
  }

  lemma BothKeysAt(t: State, p: nat, kept: nat, whole: set<nat>)
    requires Inv(t) && p in t.runs && t.runs[p].Promoting?
    ensures BothKeys(OnCrash(t, kept, whole), t.runs[p])
  {
    assert OwnerInv(t.fs, t.db, t.runs[p]);
  }

  /** Once committed and until promoted, the old key is whole in the backup and the new one in `.next`. */
  lemma BothKeysKept(s: State, events: seq<Event>, p: nat, kept: nat, whole: set<nat>)
    requires Installed(s) && p in Run(s, events).runs && Run(s, events).runs[p].Promoting?
    ensures var t := Run(s, events);
            BothKeys(OnCrash(t, kept, whole), t.runs[p])
  {
    RunKeepsInv(s, events);
    BothKeysAt(Run(s, events), p, kept, whole);
  }

  // ---------------------------------------------------------------- and it rotates

  /** Where a rotation may begin: no staged key, and the process has just come up. */
  ghost predicate MayRotate(s: State, p: nat, oldKey: Key) {
    Inv(s) && s.db == Some(oldKey) && Next !in Current(s.fs) && p in s.runs && s.runs[p] == Fresh
  }

  function OkSteps(s: State, p: nat, key: Key, n: nat): State {
    if n == 0 then s else Step(OkSteps(s, p, key, n - 1), Go(p, true, key))
  }

  /** Where a rotation stands after its `n`-th successful step, from staging to sealing. */
  function PcAfter(oldKey: Key, newKey: Key, ino: nat, n: nat): Pc
    requires 3 <= n <= 9
  {
    if n == 9 then Sealing(oldKey, newKey, ino)
    else Stage(oldKey, newKey, ino, [WriteNext, SyncNext, CloseNext, CopyBak, SyncBak, SyncDirectory][n - 3])
  }

  ghost predicate StandsAt(s: State, p: nat, oldKey: Key, pc: Pc) {
    Inv(s) && s.db == Some(oldKey) && p in s.runs && s.runs[p] == pc
  }

  lemma OkAdvances(s: State, p: nat, oldKey: Key, newKey: Key, ino: nat, n: nat)
    requires 3 <= n < 9 && StandsAt(s, p, oldKey, PcAfter(oldKey, newKey, ino, n))
    ensures StandsAt(Step(s, Go(p, true, newKey)), p, oldKey, PcAfter(oldKey, newKey, ino, n + 1))
  {
    assert OwnerInv(s.fs, s.db, s.runs[p]);
    StepKeepsInv(s, Go(p, true, newKey));
  }

  lemma StagedInThree(s: State, p: nat, oldKey: Key, newKey: Key)
    requires MayRotate(s, p, oldKey)
    ensures var t := OkSteps(s, p, newKey, 3);
            StandsAt(t, p, oldKey, PcAfter(oldKey, newKey, |s.fs.files|, 3))
  {
    var s1, s2 := OkSteps(s, p, newKey, 1), OkSteps(s, p, newKey, 2);
    assert s1 == Step(OkSteps(s, p, newKey, 0), Go(p, true, newKey));
    FirstOk(s, p, oldKey, newKey);
    assert s2 == Step(s1, Go(p, true, newKey));
    SecondOk(s1, p, oldKey, newKey);
    assert OkSteps(s, p, newKey, 3) == Step(s2, Go(p, true, newKey));
    ThirdOk(s2, p, oldKey, newKey);
  }

  lemma FirstOk(s: State, p: nat, oldKey: Key, newKey: Key)
    requires MayRotate(s, p, oldKey)
    ensures var t := Step(s, Go(p, true, newKey));
            StandsAt(t, p, oldKey, Checked) && t.fs == s.fs && Next !in Current(t.fs)
  {
    StepKeepsInv(s, Go(p, true, newKey));
  }

  lemma SecondOk(s: State, p: nat, oldKey: Key, newKey: Key)
    requires StandsAt(s, p, oldKey, Checked) && Next !in Current(s.fs)
    ensures var t := Step(s, Go(p, true, newKey));
            StandsAt(t, p, oldKey, Opened(oldKey)) && t.fs == s.fs && Next !in Current(t.fs)
  {
    StepKeepsInv(s, Go(p, true, newKey));
  }

  lemma ThirdOk(s: State, p: nat, oldKey: Key, newKey: Key)
    requires StandsAt(s, p, oldKey, Opened(oldKey)) && Next !in Current(s.fs)
    ensures StandsAt(Step(s, Go(p, true, newKey)), p, oldKey, PcAfter(oldKey, newKey, |s.fs.files|, 3))
  {
    StepKeepsInv(s, Go(p, true, newKey));
  }

  lemma {:induction false} StagedThrough(s: State, p: nat, oldKey: Key, newKey: Key, n: nat)
    requires MayRotate(s, p, oldKey) && 3 <= n <= 9
    ensures StandsAt(OkSteps(s, p, newKey, n), p, oldKey, PcAfter(oldKey, newKey, |s.fs.files|, n))
    decreases n
  {
    if n == 3 {
      StagedInThree(s, p, oldKey, newKey);
    } else {
      StagedThrough(s, p, oldKey, newKey, n - 1);
      OkAdvances(OkSteps(s, p, newKey, n - 1), p, oldKey, newKey, |s.fs.files|, n - 1);
    }
  }

  /** The db is under the new key, the key file holds it, the backup holds the old one, nothing is staged. */
  predicate Rotated(s: State, oldKey: Key, newKey: Key) {
    && s.db == Some(newKey) && Next !in Current(s.fs)
    && KeyAt(s.fs, Current(s.fs), MasterKey) == Some(newKey)
    && KeyAt(s.fs, Current(s.fs), Bak) == Some(oldKey)
  }

  lemma SealedThenPromoted(s: State, p: nat, oldKey: Key, newKey: Key)
    requires Inv(s) && s.db == Some(oldKey) && p in s.runs && s.runs[p].Sealing?
    requires s.runs[p].oldKey == oldKey && s.runs[p].newKey == newKey
    ensures var promoting := Step(s, Reseal(p, Committed));
            var renamed := Step(promoting, Go(p, true, newKey));
            var end := Step(renamed, Go(p, true, newKey));
            && Rotated(end, oldKey, newKey) && p in end.runs && end.runs[p] == Exited(0)
            && |end.fs.views| == 1 && AllSynced(end.fs, {MasterKey, Bak})
  {
    ResealKeepsInv(s, p, Committed);
    var promoting := Step(s, Reseal(p, Committed));
    assert OwnerInv(promoting.fs, promoting.db, promoting.runs[p]);
  }

  /** The files under these names are fsynced. */
  predicate AllSynced(fs: Fs, names: set<Name>) {
    forall n :: n in names && n in Current(fs) && Current(fs)[n] < |fs.files| ==> fs.files[Current(fs)[n]].synced
  }

  lemma OutlivesCrash(s: State, oldKey: Key, newKey: Key, kept: nat, whole: set<nat>)
    requires Rotated(s, oldKey, newKey) && |s.fs.views| == 1 && AllSynced(s.fs, {MasterKey, Bak})
    ensures Rotated(OnCrash(s, kept, whole), oldKey, newKey)
  {
  }

  /** Where a rotation ends in which nothing fails. */
  function SuccessOf(s: State, p: nat, newKey: Key): State {
    var promoting := Step(OkSteps(s, p, newKey, 9), Reseal(p, Committed));
    Step(Step(promoting, Go(p, true, newKey)), Go(p, true, newKey))
  }

  lemma SucceedsFrom(s: State, p: nat, oldKey: Key, newKey: Key)
    requires MayRotate(s, p, oldKey)
    ensures var end := SuccessOf(s, p, newKey);
            && Rotated(end, oldKey, newKey) && p in end.runs && end.runs[p] == Exited(0)
            && |end.fs.views| == 1 && AllSynced(end.fs, {MasterKey, Bak})
  {
    StagedThrough(s, p, oldKey, newKey, 9);
    SealedThenPromoted(OkSteps(s, p, newKey, 9), p, oldKey, newKey);
  }

  lemma SpawnMayRotate(s: State, p: nat, oldKey: Key)
    requires Inv(s) && s.db == Some(oldKey) && Next !in Current(s.fs) && p !in s.runs
    ensures MayRotate(Step(s, Spawn(p)), p, oldKey)
  {
    StepKeepsInv(s, Spawn(p));
  }

  lemma SpawnSucceeds(s: State, p: nat, oldKey: Key, newKey: Key, kept: nat, whole: set<nat>)
    requires Inv(s) && s.db == Some(oldKey) && Next !in Current(s.fs) && p !in s.runs
    ensures var end := SuccessOf(Step(s, Spawn(p)), p, newKey);
            && Rotated(end, oldKey, newKey) && p in end.runs && end.runs[p] == Exited(0)
            && Rotated(Step(end, Crash(kept, whole)), oldKey, newKey)
  {
    SpawnMayRotate(s, p, oldKey);
    SucceedsFrom(Step(s, Spawn(p)), p, oldKey, newKey);
    OutlivesCrash(SuccessOf(Step(s, Spawn(p)), p, newKey), oldKey, newKey, kept, whole);
  }

  /**
    From every reachable state with nothing staged, a new rotation in which nothing fails ends with the
    secrets under the new key, the key file holding it and the backup the old one; and no crash after its
    exit takes any of that back.
  */
  lemma NothingFails(s: State, events: seq<Event>, p: nat, oldKey: Key, newKey: Key, kept: nat, whole: set<nat>)
    requires Installed(s) && p !in Run(s, events).runs
    requires Run(s, events).db == Some(oldKey) && Next !in Current(Run(s, events).fs)
    ensures var end := SuccessOf(Step(Run(s, events), Spawn(p)), p, newKey);
            && Rotated(end, oldKey, newKey) && p in end.runs && end.runs[p] == Exited(0)
            && Rotated(Step(end, Crash(kept, whole)), oldKey, newKey)
  {
    RunKeepsInv(s, events);
    SpawnSucceeds(Run(s, events), p, oldKey, newKey, kept, whole);
  }

  // ---------------------------------------------------------------- writing the key file

  /** An open file: what was written to it, and how much of that an fsync has covered. */
  class KeyFile {
    var bytes: seq<bv8>
    var synced: nat

    /** One write: it may take fewer bytes than it was given, but takes at least one. */
    method WriteSome(buffer: seq<bv8>, offset: nat) returns (taken: nat)
      requires offset < |buffer|
      modifies this
      ensures 1 <= taken <= |buffer| - offset
      ensures bytes == old(bytes) + buffer[offset..offset + taken] && synced == old(synced)
    {
      taken :| 1 <= taken <= |buffer| - offset;
      bytes := bytes + buffer[offset..offset + taken];
    }

    method Fsync()
      modifies this
      ensures bytes == old(bytes) && synced == |bytes|
    {
      synced := |bytes|;
    }

    /** However short the single writes are, every byte is down, in order, before the fsync. */
    method WriteAllAndFsync(buffer: seq<bv8>)
      modifies this
      ensures bytes == old(bytes) + buffer && synced == |bytes|
    {
      var offset := 0;
      while offset < |buffer|
        invariant offset <= |buffer|
        invariant bytes == old(bytes) + buffer[..offset]
      {
        var taken := WriteSome(buffer, offset);
        assert buffer[..offset] + buffer[offset..offset + taken] == buffer[..offset + taken];
        offset := offset + taken;
      }
      Fsync();
    }
  }
}
