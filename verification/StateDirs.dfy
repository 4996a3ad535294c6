/**
  Resolving a state directory the way the kernel does, also when part of the path does not exist yet.

  The tree is fixed: a map from canonical paths to nodes, symlinks included.  A path is its segments
  from the root, empty ones already dropped.
*/
module StateDirs {
  import opened Wrappers

  type Path = seq<string>

  datatype Node = Directory | Plain | Link(absolute: bool, to: Path)

  type Tree = map<Path, Node>

  function Parent(p: Path): Path { if p == [] then [] else p[..|p| - 1] }

  function At(fs: Tree, p: Path): Node
    requires p == [] || p in fs
  {
    if p == [] then Directory else fs[p]
  }

  predicate IsName(seg: string) { seg != "." && seg != ".." }

  /** The root is a directory, every other node sits in one, and no entry is called `.` or `..`. */
  ghost predicate WellFormed(fs: Tree) {
    forall p :: p in fs ==>
      p != [] && IsName(p[|p| - 1]) && (Parent(p) == [] || (Parent(p) in fs && fs[Parent(p)] == Directory))
  }

  /** What the kernel answers, and how many more symlinks it would still have followed. */
  datatype Resolution = Found(path: Path, left: nat) | Missing | NotDirectory | TooManyLinks

  /** The kernel's walk from a directory already resolved. */
  function Resolve(fs: Tree, base: Path, segs: Path, links: nat): Resolution
    decreases links, |segs|
  {
    if segs == [] then Found(base, links)
    else if base != [] && (base !in fs || fs[base] != Directory) then NotDirectory
    else if segs[0] == "." then Resolve(fs, base, segs[1..], links)
    else if segs[0] == ".." then Resolve(fs, Parent(base), segs[1..], links)
    else
      var next := base + [segs[0]];
      if next !in fs then Missing
      else match fs[next]
        case Link(absolute, to) =>
          if links == 0 then TooManyLinks else Resolve(fs, if absolute then [] else base, to + segs[1..], links - 1)
        case _ => Resolve(fs, next, segs[1..], links)
  }

  // ---------------------------------------------------------------- canonicalOfMissing

  /** The walk of the code, one `realpath` per name; `None` is a fault other than absence, thrown on. */
  function Canonical(fs: Tree, base: Path, segs: Path, links: nat): Option<Path>
    decreases |segs|
  {
    if segs == [] then Some(base)
    else if segs[0] == "." then Canonical(fs, base, segs[1..], links)
    else if segs[0] == ".." then Canonical(fs, Parent(base), segs[1..], links)
    else
      match Resolve(fs, [], base + [segs[0]], links)
      case Found(path, _) => Canonical(fs, path, segs[1..], links)
      case Missing => Canonical(fs, base + [segs[0]], segs[1..], links)
      case _ => None
  }

  method CanonicalOfMissing(fs: Tree, target: Path, links: nat) returns (canonical: Option<Path>)
    ensures canonical == Canonical(fs, [], target, links)
  {
    var base: Path, i := [], 0;
    while i < |target|
      invariant i <= |target|
      invariant Canonical(fs, base, target[i..], links) == Canonical(fs, [], target, links)
    {
      var seg := target[i];
      assert target[i..][1..] == target[i + 1..];
      if seg == ".." {
        base := Parent(base);
      } else if seg != "." {
        match Resolve(fs, [], base + [seg], links)
        case Found(path, _) => base := path;
        case Missing => base := base + [seg];
        case _ => return None;
      }
      i := i + 1;
    }
    return Some(base);
  }

  // ---------------------------------------------------------------- the kernel's walk composes

  /** A path is real when it names a node that is not itself a symlink; its parents then are directories. */
  predicate Real(fs: Tree, p: Path) { p == [] || (p in fs && !fs[p].Link?) }

  lemma {:induction false} ResolveComposes(fs: Tree, base: Path, a: Path, b: Path, links: nat)
    ensures Resolve(fs, base, a + b, links) ==
              match Resolve(fs, base, a, links)
              case Found(p, left) => Resolve(fs, p, b, left)
              case failure => failure
    decreases links, |a|
  {
    if a == [] {
      assert a + b == b;
    } else if base == [] || (base in fs && fs[base] == Directory) {
      var rest := a[1..];
      assert (a + b)[1..] == rest + b;
      if a[0] == "." {
        ResolveComposes(fs, base, rest, b, links);
      } else if a[0] == ".." {
        ResolveComposes(fs, Parent(base), rest, b, links);
      } else {
        var next := base + [a[0]];
        if next in fs {
          if fs[next].Link? {
            if links > 0 {
              assert fs[next].to + (rest + b) == (fs[next].to + rest) + b;
              ResolveComposes(fs, if fs[next].absolute then [] else base, fs[next].to + rest, b, links - 1);
            }
          } else {
            ResolveComposes(fs, next, rest, b, links);
          }
        }
      }
    }
  }

  /** What is found is real; a larger budget finds the same; no link is given back. */
  lemma {:induction false} FoundIsReal(fs: Tree, base: Path, segs: Path, links: nat, more: nat)
    requires WellFormed(fs) && Real(fs, base) && Resolve(fs, base, segs, links).Found?
    ensures Real(fs, Resolve(fs, base, segs, links).path) && Resolve(fs, base, segs, links).left <= links
    ensures Resolve(fs, base, segs, links + more) ==
              Found(Resolve(fs, base, segs, links).path, Resolve(fs, base, segs, links).left + more)
    decreases links, |segs|
  {
    if segs != [] {
      if segs[0] == "." {
        FoundIsReal(fs, base, segs[1..], links, more);
      } else if segs[0] == ".." {
        FoundIsReal(fs, Parent(base), segs[1..], links, more);
      } else {
        var next := base + [segs[0]];
        if fs[next].Link? {
          FoundIsReal(fs, if fs[next].absolute then [] else base, fs[next].to + segs[1..], links - 1, more);
        } else {
          FoundIsReal(fs, next, segs[1..], links, more);
        }
      }
    }
  }

  /** A real path is its own resolution. */
  lemma {:induction false} RealResolvesToItself(fs: Tree, p: Path, links: nat)
    requires WellFormed(fs) && Real(fs, p)
    ensures Resolve(fs, [], p, links) == Found(p, links)
    decreases |p|
  {
    if p != [] {
      var parent, name := Parent(p), p[|p| - 1];
      RealResolvesToItself(fs, parent, links);
      ResolveComposes(fs, [], parent, [name], links);
      assert parent + [name] == p;
      assert Resolve(fs, p, [], links) == Found(p, links);
      assert [name][1..] == [];
    }
  }

  /** From a real directory, resolving the whole path is resolving the directory and going on from it. */
  lemma FromReal(fs: Tree, base: Path, seg: string, links: nat)
    requires WellFormed(fs) && Real(fs, base)
    ensures Resolve(fs, [], base + [seg], links) == Resolve(fs, base, [seg], links)
  {
    RealResolvesToItself(fs, base, links);
    ResolveComposes(fs, [], base, [seg], links);
  }

  // ---------------------------------------------------------------- agreement with the kernel

  lemma {:induction false} AgreesFrom(fs: Tree, base: Path, segs: Path, left: nat, links: nat)
    requires WellFormed(fs) && Real(fs, base) && left <= links && Resolve(fs, base, segs, left).Found?
    ensures Canonical(fs, base, segs, links) == Some(Resolve(fs, base, segs, left).path)
    decreases |segs|
  {
    if segs != [] {
      var seg, rest := segs[0], segs[1..];
      assert segs == [seg] + rest;
      if seg == "." {
        AgreesFrom(fs, base, rest, left, links);
      } else if seg == ".." {
        AgreesFrom(fs, Parent(base), rest, left, links);
      } else {
        ResolveComposes(fs, base, [seg], rest, left);
        var step := Resolve(fs, base, [seg], left);
        FoundIsReal(fs, base, [seg], left, links - left);
        FromReal(fs, base, seg, links);
        AgreesFrom(fs, step.path, rest, step.left, links);
      }
    }
  }

  /** Whenever the kernel resolves a path, `..` after a symlink included, the walk returns exactly its answer. */
  lemma AgreesWithKernel(fs: Tree, target: Path, links: nat)
    requires WellFormed(fs) && Resolve(fs, [], target, links).Found?
    ensures Canonical(fs, [], target, links) == Some(Resolve(fs, [], target, links).path)
  {
    AgreesFrom(fs, [], target, links, links);
  }

  // ---------------------------------------------------------------- idempotence

  /** A real path followed by names of which already the first does not resolve. */
  ghost predicate Settled(fs: Tree, real_: Path, tail: Path, links: nat) {
    && Real(fs, real_) && (forall i :: 0 <= i < |tail| ==> IsName(tail[i]))
    && forall k :: 1 <= k <= |tail| ==> Resolve(fs, [], real_ + tail[..k], links) == Missing
  }

  lemma {:induction false} CanonicalSettles(fs: Tree, real_: Path, tail: Path, segs: Path, links: nat)
    returns (real1: Path, tail1: Path)
    requires WellFormed(fs) && Settled(fs, real_, tail, links) && Canonical(fs, real_ + tail, segs, links).Some?
    ensures Canonical(fs, real_ + tail, segs, links) == Some(real1 + tail1) && Settled(fs, real1, tail1, links)
    decreases |segs|
  {
    var base := real_ + tail;
    if segs == [] {
      real1, tail1 := real_, tail;
    } else if segs[0] == "." {
      real1, tail1 := CanonicalSettles(fs, real_, tail, segs[1..], links);
    } else if segs[0] == ".." {
      if tail == [] {
        assert base == real_ && Parent(real_) + [] == Parent(real_);
        real1, tail1 := CanonicalSettles(fs, Parent(real_), [], segs[1..], links);
      } else {
        var shorter := tail[..|tail| - 1];
        assert Parent(base) == real_ + shorter;
        assert forall k :: 1 <= k <= |shorter| ==> shorter[..k] == tail[..k];
        real1, tail1 := CanonicalSettles(fs, real_, shorter, segs[1..], links);
      }
    } else {
      var seg := segs[0];
      match Resolve(fs, [], base + [seg], links)
      case Found(path, _) =>
        FoundIsReal(fs, [], base + [seg], links, 0);
        assert path + [] == path;
        real1, tail1 := CanonicalSettles(fs, path, [], segs[1..], links);
      case Missing =>
        var longer := tail + [seg];
        assert base + [seg] == real_ + longer;
        forall k | 1 <= k <= |longer| ensures Resolve(fs, [], real_ + longer[..k], links) == Missing {
          if k <= |tail| { assert longer[..k] == tail[..k]; } else { assert longer[..k] == longer; }
        }
        real1, tail1 := CanonicalSettles(fs, real_, longer, segs[1..], links);
    }
  }

  lemma {:induction false} TailStays(fs: Tree, real_: Path, tail: Path, k: nat, links: nat)
    requires Settled(fs, real_, tail, links) && k <= |tail|
    ensures Canonical(fs, real_ + tail[..k], tail[k..], links) == Some(real_ + tail)
    decreases |tail| - k
  {
    if k < |tail| {
      assert (real_ + tail[..k]) + [tail[k]] == real_ + tail[..k + 1];
      assert tail[k..][1..] == tail[k + 1..];
      TailStays(fs, real_, tail, k + 1, links);
    } else {
      assert tail[..k] == tail;
    }
  }

  lemma {:induction false} CanonicalComposes(fs: Tree, base: Path, a: Path, b: Path, links: nat)
    requires Canonical(fs, base, a, links).Some?
    ensures Canonical(fs, base, a + b, links) == Canonical(fs, Canonical(fs, base, a, links).value, b, links)
    decreases |a|
  {
    if a == [] {
      assert a + b == b;
    } else {
      assert (a + b)[1..] == a[1..] + b;
      if a[0] == "." {
        CanonicalComposes(fs, base, a[1..], b, links);
      } else if a[0] == ".." {
        CanonicalComposes(fs, Parent(base), a[1..], b, links);
      } else {
        match Resolve(fs, [], base + [a[0]], links)
        case Found(path, _) => CanonicalComposes(fs, path, a[1..], b, links);
        case Missing => CanonicalComposes(fs, base + [a[0]], a[1..], b, links);
      }
    }
  }

  /** The canonical form of a canonical form is itself, existing or not. */
  lemma CanonicalIsIdempotent(fs: Tree, target: Path, links: nat)
    requires WellFormed(fs) && Canonical(fs, [], target, links).Some?
    ensures Canonical(fs, [], Canonical(fs, [], target, links).value, links) == Canonical(fs, [], target, links)
  {
    var root: Path := [];
    assert root + [] == root;
    var real_, tail := CanonicalSettles(fs, [], [], target, links);
    RealResolvesToItself(fs, real_, links);
    AgreesWithKernel(fs, real_, links);
    CanonicalComposes(fs, [], real_, tail, links);
    TailStays(fs, real_, tail, 0, links);
    assert real_ + tail[..0] == real_ && tail[0..] == tail;
  }

  // ---------------------------------------------------------------- directory identity

  /** The directory a path names, by `stat`: nothing if it is absent or not a directory, a fault otherwise. */
  datatype Identity = Is(directory: Path) | Nothing | Fault

  function DirectoryIdentity(fs: Tree, target: Path, links: nat): Identity {
    match Resolve(fs, [], target, links)
    case Found(path, _) => if path == [] || (path in fs && fs[path] == Directory) then Is(path) else Nothing
    case Missing => Nothing
    case _ => Fault
  }

  /** `lstat` finds no entry at all: a dangling symlink is an entry. */
  function GenuinelyAbsent(fs: Tree, target: Path, links: nat): Option<bool> {
    if target == [] then Some(false)
    else
      match Resolve(fs, [], Parent(target), links)
      case Missing => Some(true)
      case Found(parent, _) =>
        if parent != [] && (parent !in fs || fs[parent] != Directory) then None
        else Some(IsName(target[|target| - 1]) && parent + [target[|target| - 1]] !in fs)
      case _ => None
  }

  /** `None` is a fault, which is never read as a match. */
  function SameDirectoryIdentity(fs: Tree, candidate: Path, default_: Path, links: nat): Option<bool> {
    var a, b := DirectoryIdentity(fs, candidate, links), DirectoryIdentity(fs, default_, links);
    if a.Fault? || b.Fault? then None
    else if a.Is? && b.Is? then Some(a == b)
    else if a.Is? || b.Is? then Some(false)
    else
      match GenuinelyAbsent(fs, default_, links)
      case None => None
      case Some(false) => Some(false)
      case Some(true) =>
        match GenuinelyAbsent(fs, candidate, links)
        case None => None
        case Some(false) => Some(false)
        case Some(true) =>
          var x, y := Canonical(fs, [], candidate, links), Canonical(fs, [], default_, links);
          if x.None? || y.None? then None else Some(x == y)
  }

  /**
    No spelling passes for another directory: two paths are the same only if the directory paths are
    derived in is the same, and for two existing directories exactly then.
  */
  lemma SameMeansSameBase(fs: Tree, candidate: Path, default_: Path, links: nat)
    requires WellFormed(fs)
    ensures SameDirectoryIdentity(fs, candidate, default_, links) == Some(true) ==>
              && Canonical(fs, [], candidate, links).Some?
              && Canonical(fs, [], candidate, links) == Canonical(fs, [], default_, links)
    ensures DirectoryIdentity(fs, candidate, links).Is? && DirectoryIdentity(fs, default_, links).Is? ==>
              (SameDirectoryIdentity(fs, candidate, default_, links) == Some(true) <==>
               Canonical(fs, [], candidate, links) == Canonical(fs, [], default_, links))
  {
    if Resolve(fs, [], candidate, links).Found? { AgreesWithKernel(fs, candidate, links); }
    if Resolve(fs, [], default_, links).Found? { AgreesWithKernel(fs, default_, links); }
  }

  // ---------------------------------------------------------------- when two paths are the same directory

  /** The kernel resolves the path to a directory. */
  predicate NamesDirectory(fs: Tree, target: Path, links: nat) {
    var r := Resolve(fs, [], target, links);
    r.Found? && (r.path == [] || (r.path in fs && fs[r.path] == Directory))
  }

  /** The path's last entry is there and is a symlink, but what it leads to is not there. */
  predicate Dangles(fs: Tree, target: Path, links: nat) {
    && target != [] && Resolve(fs, [], target, links) == Missing
    && var parent := Resolve(fs, [], Parent(target), links);
       parent.Found? && parent.path + [target[|target| - 1]] in fs
  }

  predicate IsAbsent(fs: Tree, target: Path, links: nat) {
    Resolve(fs, [], target, links) == Missing && !Dangles(fs, target, links)
  }

  /** The kernel resolves a path, or answers that it is absent; anything else is a fault. */
  predicate Answers(fs: Tree, target: Path, links: nat) {
    Resolve(fs, [], target, links).Found? || Resolve(fs, [], target, links).Missing?
  }

  lemma LastStep(fs: Tree, target: Path, links: nat)
    requires target != []
    ensures
      var last := target[|target| - 1];
      Resolve(fs, [], target, links) ==
        match Resolve(fs, [], Parent(target), links)
        case Found(p, left) => Resolve(fs, p, [last], left)
        case failure => failure
    ensures [target[|target| - 1]][1..] == []
  {
    assert target == Parent(target) + [target[|target| - 1]];
    ResolveComposes(fs, [], Parent(target), [target[|target| - 1]], links);
  }

  /** Where the kernel answers, absence by `lstat` is known, and is absence that no dangling symlink explains. */
  lemma AbsentIff(fs: Tree, target: Path, links: nat)
    requires Answers(fs, target, links)
    ensures GenuinelyAbsent(fs, target, links).Some?
    ensures Resolve(fs, [], target, links) == Missing ==>
              (GenuinelyAbsent(fs, target, links) == Some(true) <==> IsAbsent(fs, target, links))
    ensures GenuinelyAbsent(fs, target, links) == Some(true) ==> Resolve(fs, [], target, links) == Missing
  {
    if target != [] {
      LastStep(fs, target, links);
      var parent := Resolve(fs, [], Parent(target), links);
      if parent.Found? {
        var last := target[|target| - 1];
        assert Resolve(fs, parent.path + [last], [last][1..], parent.left) == Found(parent.path + [last], parent.left);
      }
    }
  }

  /**
    Two paths are taken for one directory exactly when both lead to the same directory, or when both are
    absent and would be created in the same place.  A dangling symlink or a plain file is never taken for
    a directory to be created, and a fault of the kernel is always passed on.
  */
  lemma SameIff(fs: Tree, candidate: Path, default_: Path, links: nat)
    ensures
      var x, y := Canonical(fs, [], candidate, links), Canonical(fs, [], default_, links);
      var absent := IsAbsent(fs, candidate, links) && IsAbsent(fs, default_, links);
      && (SameDirectoryIdentity(fs, candidate, default_, links) == Some(true) <==>
            || (&& NamesDirectory(fs, candidate, links) && NamesDirectory(fs, default_, links)
                && Resolve(fs, [], candidate, links).path == Resolve(fs, [], default_, links).path)
            || (absent && x.Some? && x == y))
      && (SameDirectoryIdentity(fs, candidate, default_, links) == None <==>
            || !Answers(fs, candidate, links) || !Answers(fs, default_, links)
            || (absent && (x.None? || y.None?)))
  {
    if Answers(fs, candidate, links) && Answers(fs, default_, links) {
      AbsentIff(fs, candidate, links);
      AbsentIff(fs, default_, links);
    }
  }
}
