/**
  Inlining the local `$ref`s of an OpenAPI document, cyclic ones included.

  A JSON object is its keys in order, each once, beside their values.
*/
module InlineRefs {
  import opened Wrappers

  datatype Json = Other(text: string) | Str(s: string) | Arr(items: seq<Json>) | Obj(keys: seq<string>,
      values: seq<Json>)

  const PERMISSIVE_SCHEMA := Obj([], [])

  const REF := "$ref"

  function Lookup(keys: seq<string>, values: seq<Json>, key: string): (v: Option<Json>)
    ensures v.Some? ==> v.value in values
  {
    if keys == [] || values == [] then None
    else if keys[0] == key then Some(values[0])
    else Lookup(keys[1..], values[1..], key)
  }

  /** The ref an object stands for, if its `$ref` is a string. */
  function RefOf(node: Json): Option<string> {
    if !node.Obj? then None
    else
      var ref := Lookup(node.keys, node.values, REF);
      if ref.Some? && ref.value.Str? then Some(ref.value.s) else None
  }

  // ---------------------------------------------------------------- pointers

  /** Every occurrence of the escape `~` followed by `code`, left to right. */
  function Replaced(s: string, code: char, replacement: char): string {
    if |s| < 2 then s
    else if s[0] == '~' && s[1] == code then [replacement] + Replaced(s[2..], code, replacement)
    else [s[0]] + Replaced(s[1..], code, replacement)
  }

  function Unescaped(s: string): string { Replaced(Replaced(s, '1', '/'), '0', '~') }

  /** `split("/")`: always at least one part. */
  function SplitPointer(s: string, current: string): seq<string> {
    if s == "" then [current]
    else if s[0] == '/' then [current] + SplitPointer(s[1..], "")
    else SplitPointer(s[1..], current + [s[0]])
  }

  function Walk(node: Json, parts: seq<string>): Option<Json>
    decreases |parts|
  {
    if parts == [] then Some(node)
    else if !node.Obj? then None
    else
      var next := Lookup(node.keys, node.values, Unescaped(parts[0]));
      if next.None? then None else Walk(next.value, parts[1..])
  }

  function ResolveLocalRef(doc: Json, ref: string): Option<Json> {
    if |ref| < 2 || ref[..2] != "#/" then None else Walk(doc, SplitPointer(ref[2..], ""))
  }

  method ResolvePointer(doc: Json, ref: string) returns (node: Option<Json>)
    ensures node == ResolveLocalRef(doc, ref)
  {
    if |ref| < 2 || ref[..2] != "#/" {
      return None;
    }
    var parts, at, i := SplitPointer(ref[2..], ""), doc, 0;
    while i < |parts|
      invariant i <= |parts|
      invariant Walk(at, parts[i..]) == ResolveLocalRef(doc, ref)
    {
      if !at.Obj? {
        return None;
      }
      var next := Lookup(at.keys, at.values, Unescaped(parts[i]));
      assert parts[i..][1..] == parts[i + 1..];
      if next.None? {
        return None;
      }
      at := next.value;
      i := i + 1;
    }
    return Some(at);
  }

  // ---------------------------------------------------------------- every member has its pointer

  /** How a key is written in a pointer: `~` as `~0` and `/` as `~1`. */
  function Escaped(key: string): string {
    if key == "" then ""
    else (if key[0] == '~' then "~0" else if key[0] == '/' then "~1" else [key[0]]) + Escaped(key[1..])
  }

  /** The key with only its `~` still escaped. */
  function HalfEscaped(key: string): string {
    if key == "" then "" else (if key[0] == '~' then "~0" else [key[0]]) + HalfEscaped(key[1..])
  }

  function PointerTo(path: seq<string>): string
    decreases |path|
  {
    if path == [] then "" else "/" + Escaped(path[0]) + PointerTo(path[1..])
  }

  /** The member of an object under a key is the first value that stands beside that key. */
  ghost predicate IsMember(node: Json, key: string, value: Json) {
    node.Obj? && exists i :: 0 <= i < |node.keys| && i < |node.values| && node.keys[i] == key && node.values[i] == value
                          && forall j :: 0 <= j < i ==> node.keys[j] != key
  }

  /** Going down by keys, none of them escaped. */
  ghost predicate LeadsTo(node: Json, path: seq<string>, target: Json)
    decreases |path|
  {
    if path == [] then target == node
    else exists value :: IsMember(node, path[0], value) && LeadsTo(value, path[1..], target)
  }

  lemma {:induction false} SlashesBack(key: string)
    ensures Replaced(Escaped(key), '1', '/') == HalfEscaped(key)
  {
    if key != "" {
      var rest := Escaped(key[1..]);
      SlashesBack(key[1..]);
      if key[0] == '~' {
        assert Escaped(key) == "~0" + rest;
        assert ("~0" + rest)[1..] == "0" + rest && ("0" + rest)[1..] == rest;
        if rest == "" {
          assert Escaped(key) == "~0";
        }
      } else if key[0] == '/' {
        assert ("~1" + rest)[2..] == rest;
      } else {
        assert ([key[0]] + rest)[1..] == rest;
      }
    }
  }

  lemma {:induction false} TildesBack(key: string)
    ensures Replaced(HalfEscaped(key), '0', '~') == key
  {
    if key != "" {
      var rest := HalfEscaped(key[1..]);
      TildesBack(key[1..]);
      if key[0] == '~' {
        assert ("~0" + rest)[2..] == rest;
      } else {
        assert ([key[0]] + rest)[1..] == rest;
      }
    }
  }

  /** Decoding `~1` before `~0` gives every key back, also one that itself contains an escape. */
  lemma EscapedComesBack(key: string)
    ensures Unescaped(Escaped(key)) == key
  {
    SlashesBack(key);
    TildesBack(key);
  }

  lemma {:induction false} EscapedHasNoSlash(key: string)
    ensures '/' !in Escaped(key)
  {
    if key != "" { EscapedHasNoSlash(key[1..]); }
  }

  lemma {:induction false} SplitReads(part: string, rest: string, current: string)
    requires '/' !in part && (rest == "" || rest[0] == '/')
    ensures SplitPointer(part + rest, current) ==
              [current + part] + (if rest == "" then [] else SplitPointer(rest[1..], ""))
    decreases |part|
  {
    if part == "" {
      assert part + rest == rest && current + part == current;
    } else {
      assert (part + rest)[1..] == part[1..] + rest && (part + rest)[0] == part[0];
      assert (current + [part[0]]) + part[1..] == current + part;
      SplitReads(part[1..], rest, current + [part[0]]);
    }
  }

  lemma {:induction false} LookupFindsFirst(keys: seq<string>, values: seq<Json>, key: string, i: nat)
    requires i < |keys| && i < |values| && keys[i] == key && forall j :: 0 <= j < i ==> keys[j] != key
    ensures Lookup(keys, values, key) == Some(values[i])
    decreases i
  {
    if i > 0 {
      assert keys[0] != key;
      LookupFindsFirst(keys[1..], values[1..], key, i - 1);
    }
  }

  lemma {:induction false} LookupStands(keys: seq<string>, values: seq<Json>, key: string) returns (i: nat)
    requires Lookup(keys, values, key).Some?
    ensures i < |keys| && i < |values| && keys[i] == key && values[i] == Lookup(keys, values, key).value
    ensures forall j :: 0 <= j < i ==> keys[j] != key
  {
    if keys[0] == key {
      i := 0;
    } else {
      var k := LookupStands(keys[1..], values[1..], key);
      i := k + 1;
    }
  }

  lemma LookupIsMember(node: Json, key: string, value: Json)
    requires node.Obj?
    ensures Lookup(node.keys, node.values, key) == Some(value) <==> IsMember(node, key, value)
  {
    if IsMember(node, key, value) {
      var i: nat :| i < |node.keys| && i < |node.values| && node.keys[i] == key && node.values[i] == value
                 && forall j :: 0 <= j < i ==> node.keys[j] != key;
      LookupFindsFirst(node.keys, node.values, key, i);
    }
    if Lookup(node.keys, node.values, key).Some? {
      var i := LookupStands(node.keys, node.values, key);
    }
  }

  /** A pointer's first part is its first key, and the rest is the pointer of the rest. */
  lemma PointerSplits(path: seq<string>)
    requires path != []
    ensures
      var parts := SplitPointer(PointerTo(path)[1..], "");
      && parts != [] && Unescaped(parts[0]) == path[0]
      && parts[1..] == if path[1..] == [] then [] else SplitPointer(PointerTo(path[1..])[1..], "")
  {
    var part, rest := Escaped(path[0]), PointerTo(path[1..]);
    assert PointerTo(path)[1..] == part + rest;
    EscapedHasNoSlash(path[0]);
    SplitReads(part, rest, "");
    EscapedComesBack(path[0]);
    assert "" + part == part;
  }

  /** Going down by the first key is going down to the one member it names, if there is one. */
  lemma LeadsByFirst(node: Json, path: seq<string>, target: Json)
    requires path != [] && node.Obj?
    ensures
      var next := Lookup(node.keys, node.values, path[0]);
      LeadsTo(node, path, target) <==> next.Some? && LeadsTo(next.value, path[1..], target)
  {
    var next := Lookup(node.keys, node.values, path[0]);
    forall v | IsMember(node, path[0], v) ensures next == Some(v) {
      LookupIsMember(node, path[0], v);
    }
    if next.Some? {
      LookupIsMember(node, path[0], next.value);
    }
  }

  lemma {:induction false} PointerWalks(node: Json, path: seq<string>, target: Json)
    requires path != []
    ensures Walk(node, SplitPointer(PointerTo(path)[1..], "")) == Some(target) <==> LeadsTo(node, path, target)
    decreases |path|
  {
    PointerSplits(path);
    if node.Obj? {
      LeadsByFirst(node, path, target);
      var next := Lookup(node.keys, node.values, path[0]);
      if next.Some? && path[1..] != [] {
        PointerWalks(next.value, path[1..], target);
      }
    }
  }

  lemma LocalRefWalks(doc: Json, pointer: string)
    requires pointer != "" && pointer[0] == '/'
    ensures ResolveLocalRef(doc, "#" + pointer) == Walk(doc, SplitPointer(pointer[1..], ""))
  {
    var ref := "#" + pointer;
    assert ref[..2] == "#/" && ref[2..] == pointer[1..];
  }

  lemma PointerStarts(path: seq<string>)
    requires path != []
    ensures PointerTo(path) != "" && PointerTo(path)[0] == '/'
  {
  }

  /**
    The pointer written for a path of keys, whatever characters the keys are made of, resolves to exactly
    the member that path leads to, and to nothing when it leads nowhere.
  */
  lemma PointerResolves(doc: Json, path: seq<string>, target: Json)
    requires path != []
    ensures ResolveLocalRef(doc, "#" + PointerTo(path)) == Some(target) <==> LeadsTo(doc, path, target)
  {
    PointerStarts(path);
    LocalRefWalks(doc, PointerTo(path));
    PointerWalks(doc, path, target);
  }

  // ---------------------------------------------------------------- the measure

  /** Every ref string below a node. */
  function Refs(node: Json): set<string>
    decreases node, 0
  {
    match node
    case Arr(items) => RefsOfAll(items)
    case Obj(_, values) => (if RefOf(node).Some? then {RefOf(node).value} else {}) + RefsOfAll(values)
    case _ => {}
  }

  function RefsOfAll(nodes: seq<Json>): set<string>
    decreases nodes, 1
  {
    if nodes == [] then {} else Refs(nodes[0]) + RefsOfAll(nodes[1..])
  }

  function Members(stack: seq<string>): set<string> { set ref | ref in stack }

  /** The refs still unvisited on this path. */
  function Unvisited(refs: set<string>, stack: seq<string>): set<string> { refs - Members(stack) }

  lemma {:induction false} RefsBelow(nodes: seq<Json>, node: Json)
    requires node in nodes
    ensures Refs(node) <= RefsOfAll(nodes)
  {
    if nodes[0] != node { RefsBelow(nodes[1..], node); }
  }

  lemma {:induction false} WalkStaysBelow(node: Json, parts: seq<string>)
    requires Walk(node, parts).Some?
    ensures Refs(Walk(node, parts).value) <= Refs(node)
    decreases |parts|
  {
    if parts != [] {
      var next := Lookup(node.keys, node.values, Unescaped(parts[0])).value;
      RefsBelow(node.values, next);
      WalkStaysBelow(next, parts[1..]);
    }
  }

  lemma Smaller(a: set<string>, b: set<string>)
    requires a <= b
    ensures |a| <= |b| && (a != b ==> |a| < |b|)
  {
    assert b == a + (b - a);
    if a != b { assert b - a != {}; }
  }

  /** Following a ref not yet on the path leaves fewer refs unvisited. */
  lemma FollowingShrinks(node: Json, doc: Json, stack: seq<string>, ref: string)
    requires RefOf(node) == Some(ref) && ref !in stack && ResolveLocalRef(doc, ref).Some?
    ensures var target := ResolveLocalRef(doc, ref).value;
            |Unvisited(Refs(target) + Refs(doc), stack + [ref])| < |Unvisited(Refs(node) + Refs(doc), stack)|
  {
    var target := ResolveLocalRef(doc, ref).value;
    WalkStaysBelow(doc, SplitPointer(ref[2..], ""));
    var after, before := Unvisited(Refs(target) + Refs(doc), stack + [ref]), Unvisited(Refs(node) + Refs(doc), stack);
    assert ref in before && ref !in after;
    Smaller(after, before);
  }

  lemma DescendingKeeps(node: Json, nodes: seq<Json>, doc: Json, stack: seq<string>)
    requires RefsOfAll(nodes) <= Refs(node)
    ensures |Unvisited(RefsOfAll(nodes) + Refs(doc), stack)| <= |Unvisited(Refs(node) + Refs(doc), stack)|
  {
    Smaller(Unvisited(RefsOfAll(nodes) + Refs(doc), stack), Unvisited(Refs(node) + Refs(doc), stack));
  }

  lemma ListingKeeps(nodes: seq<Json>, doc: Json, stack: seq<string>)
    requires nodes != []
    ensures |Unvisited(Refs(nodes[0]) + Refs(doc), stack)| <= |Unvisited(RefsOfAll(nodes) + Refs(doc), stack)|
    ensures |Unvisited(RefsOfAll(nodes[1..]) + Refs(doc), stack)| <= |Unvisited(RefsOfAll(nodes) + Refs(doc), stack)|
  {
    Smaller(Unvisited(Refs(nodes[0]) + Refs(doc), stack), Unvisited(RefsOfAll(nodes) + Refs(doc), stack));
    Smaller(Unvisited(RefsOfAll(nodes[1..]) + Refs(doc), stack), Unvisited(RefsOfAll(nodes) + Refs(doc), stack));
  }

  // ---------------------------------------------------------------- inlining

  /** Total on every document: each step follows a ref not yet on its path, or goes down the tree. */
  function Inline(node: Json, doc: Json, stack: seq<string>): Json
    decreases |Unvisited(Refs(node) + Refs(doc), stack)|, node, 0
  {
    match node
    case Arr(items) => Arr(InlineAll(items, doc, stack))
    case Obj(keys, values) =>
      var ref := RefOf(node);
      if ref.None? then
        DescendingKeeps(node, values, doc, stack);
        Obj(keys, InlineAll(values, doc, stack))
      else if ref.value in stack || ResolveLocalRef(doc, ref.value).None? then PERMISSIVE_SCHEMA
      else
        FollowingShrinks(node, doc, stack, ref.value);
        Inline(ResolveLocalRef(doc, ref.value).value, doc, stack + [ref.value])
    case _ => node
  }

  function InlineAll(nodes: seq<Json>, doc: Json, stack: seq<string>): seq<Json>
    decreases |Unvisited(RefsOfAll(nodes) + Refs(doc), stack)|, nodes, 1
  {
    if nodes == [] then []
    else
      ListingKeeps(nodes, doc, stack);
      [Inline(nodes[0], doc, stack)] + InlineAll(nodes[1..], doc, stack)
  }

  /** A ref cut short, or one that leads nowhere, becomes the schema that admits everything: no constraint at all. */
  lemma CutAdmitsAll(node: Json, doc: Json, stack: seq<string>, ref: string)
    requires RefOf(node) == Some(ref) && (ref in stack || ResolveLocalRef(doc, ref).None?)
    ensures Inline(node, doc, stack) == Obj([], [])
  {
  }

  // ---------------------------------------------------------------- the plain expansion

  /** Every ref replaced by what it points to, `fuel` times deep: no path is remembered. */
  function Expand(node: Json, doc: Json, fuel: nat): Json
    decreases fuel, node, 0
  {
    match node
    case Arr(items) => Arr(ExpandAll(items, doc, fuel))
    case Obj(keys, values) =>
      var ref := RefOf(node);
      if ref.None? then Obj(keys, ExpandAll(values, doc, fuel))
      else if ResolveLocalRef(doc, ref.value).None? || fuel == 0 then PERMISSIVE_SCHEMA
      else Expand(ResolveLocalRef(doc, ref.value).value, doc, fuel - 1)
    case _ => node
  }

  function ExpandAll(nodes: seq<Json>, doc: Json, fuel: nat): seq<Json>
    decreases fuel, nodes, 1
  {
    if nodes == [] then [] else [Expand(nodes[0], doc, fuel)] + ExpandAll(nodes[1..], doc, fuel)
  }

  /** The expansion ends within `fuel`: no chain of refs is longer. */
  predicate Finite(node: Json, doc: Json, fuel: nat)
    decreases fuel, node, 0
  {
    match node
    case Arr(items) => AllFinite(items, doc, fuel)
    case Obj(_, values) =>
      var ref := RefOf(node);
      if ref.None? then AllFinite(values, doc, fuel)
      else
        var target := ResolveLocalRef(doc, ref.value);
        target.None? || (fuel > 0 && Finite(target.value, doc, fuel - 1))
    case _ => true
  }

  predicate AllFinite(nodes: seq<Json>, doc: Json, fuel: nat)
    decreases fuel, nodes, 1
  {
    nodes == [] || (Finite(nodes[0], doc, fuel) && AllFinite(nodes[1..], doc, fuel))
  }

  /** Inlining met a ref already on its own path. */
  predicate Cyclic(node: Json, doc: Json, stack: seq<string>)
    decreases |Unvisited(Refs(node) + Refs(doc), stack)|, node, 0
  {
    match node
    case Arr(items) => AnyCyclic(items, doc, stack)
    case Obj(_, values) =>
      var ref := RefOf(node);
      if ref.None? then
        DescendingKeeps(node, values, doc, stack);
        AnyCyclic(values, doc, stack)
      else if ref.value in stack then true
      else if ResolveLocalRef(doc, ref.value).None? then false
      else
        FollowingShrinks(node, doc, stack, ref.value);
        Cyclic(ResolveLocalRef(doc, ref.value).value, doc, stack + [ref.value])
    case _ => false
  }

  predicate AnyCyclic(nodes: seq<Json>, doc: Json, stack: seq<string>)
    decreases |Unvisited(RefsOfAll(nodes) + Refs(doc), stack)|, nodes, 1
  {
    nodes != [] &&
      (ListingKeeps(nodes, doc, stack);
       Cyclic(nodes[0], doc, stack) || AnyCyclic(nodes[1..], doc, stack))
  }

  /** More fuel changes neither that an expansion ends nor what it is. */
  lemma {:induction false} MoreFuel(node: Json, doc: Json, fuel: nat, more: nat)
    requires Finite(node, doc, fuel) && fuel <= more
    ensures Finite(node, doc, more) && Expand(node, doc, more) == Expand(node, doc, fuel)
    decreases fuel, node, 0
  {
    match node
    case Arr(items) => MoreFuelAll(items, doc, fuel, more);
    case Obj(_, values) =>
      var ref := RefOf(node);
      if ref.None? {
        MoreFuelAll(values, doc, fuel, more);
      } else if ResolveLocalRef(doc, ref.value).Some? {
        MoreFuel(ResolveLocalRef(doc, ref.value).value, doc, fuel - 1, more - 1);
      }
    case _ =>
  }

  lemma {:induction false} MoreFuelAll(nodes: seq<Json>, doc: Json, fuel: nat, more: nat)
    requires AllFinite(nodes, doc, fuel) && fuel <= more
    ensures AllFinite(nodes, doc, more) && ExpandAll(nodes, doc, more) == ExpandAll(nodes, doc, fuel)
    decreases fuel, nodes, 1
  {
    if nodes != [] {
      MoreFuel(nodes[0], doc, fuel, more);
      MoreFuelAll(nodes[1..], doc, fuel, more);
    }
  }

  /** What the refs on the path point to: with less fuel than is left here, none of it ends. */
  ghost predicate Tight(doc: Json, stack: seq<string>, fuel: nat) {
    forall ref :: ref in stack ==>
      && ResolveLocalRef(doc, ref).Some?
      && forall less: nat :: less < fuel ==> !Finite(ResolveLocalRef(doc, ref).value, doc, less)
  }

  lemma {:induction false} LeastFuel(node: Json, doc: Json, fuel: nat) returns (least: nat)
    requires Finite(node, doc, fuel)
    ensures least <= fuel && Finite(node, doc, least)
    ensures forall less: nat :: less < least ==> !Finite(node, doc, less)
    decreases fuel
  {
    if less: nat :| less < fuel && Finite(node, doc, less) {
      least := LeastFuel(node, doc, less);
    } else {
      least := fuel;
    }
  }

  /**
    A finite expansion is what inlining gives, and no ref of it is ever met on its own path: were one, the
    part of the expansion below it would have to contain itself.
  */
  lemma {:induction false} FiniteIsInlined(node: Json, doc: Json, stack: seq<string>, fuel: nat)
    requires Finite(node, doc, fuel) && Tight(doc, stack, fuel)
    ensures Inline(node, doc, stack) == Expand(node, doc, fuel) && !Cyclic(node, doc, stack)
    decreases fuel, node, 0
  {
    match node
    case Arr(items) => AllFiniteInlined(items, doc, stack, fuel);
    case Obj(_, values) =>
      var ref := RefOf(node);
      if ref.None? {
        AllFiniteInlined(values, doc, stack, fuel);
      } else if ResolveLocalRef(doc, ref.value).Some? {
        var target := ResolveLocalRef(doc, ref.value).value;
        assert Finite(target, doc, fuel - 1) && ref.value !in stack;
        var least := LeastFuel(target, doc, fuel - 1);
        FiniteIsInlined(target, doc, stack + [ref.value], least);
        MoreFuel(target, doc, least, fuel - 1);
      }
    case _ =>
  }

  lemma {:induction false} AllFiniteInlined(nodes: seq<Json>, doc: Json, stack: seq<string>, fuel: nat)
    requires AllFinite(nodes, doc, fuel) && Tight(doc, stack, fuel)
    ensures InlineAll(nodes, doc, stack) == ExpandAll(nodes, doc, fuel) && !AnyCyclic(nodes, doc, stack)
    decreases fuel, nodes, 1
  {
    if nodes != [] {
      FiniteIsInlined(nodes[0], doc, stack, fuel);
      AllFiniteInlined(nodes[1..], doc, stack, fuel);
    }
  }

  /** Without a cycle, the expansion ends within the number of refs there are. */
  lemma {:induction false} AcyclicIsFinite(node: Json, doc: Json, stack: seq<string>, fuel: nat)
    requires !Cyclic(node, doc, stack) && fuel >= |Unvisited(Refs(node) + Refs(doc), stack)|
    ensures Finite(node, doc, fuel)
    decreases |Unvisited(Refs(node) + Refs(doc), stack)|, node, 0
  {
    match node
    case Arr(items) => AcyclicAreFinite(items, doc, stack, fuel);
    case Obj(_, values) =>
      var ref := RefOf(node);
      if ref.None? {
        DescendingKeeps(node, values, doc, stack);
        AcyclicAreFinite(values, doc, stack, fuel);
      } else if ResolveLocalRef(doc, ref.value).Some? {
        FollowingShrinks(node, doc, stack, ref.value);
        AcyclicIsFinite(ResolveLocalRef(doc, ref.value).value, doc, stack + [ref.value], fuel - 1);
      }
    case _ =>
  }

  lemma {:induction false} AcyclicAreFinite(nodes: seq<Json>, doc: Json, stack: seq<string>, fuel: nat)
    requires !AnyCyclic(nodes, doc, stack) && fuel >= |Unvisited(RefsOfAll(nodes) + Refs(doc), stack)|
    ensures AllFinite(nodes, doc, fuel)
    decreases |Unvisited(RefsOfAll(nodes) + Refs(doc), stack)|, nodes, 1
  {
    if nodes != [] {
      ListingKeeps(nodes, doc, stack);
      AcyclicIsFinite(nodes[0], doc, stack, fuel);
      AcyclicAreFinite(nodes[1..], doc, stack, fuel);
    }
  }

  ghost predicate EverFinite(node: Json, doc: Json) {
    exists fuel: nat :: Finite(node, doc, fuel)
  }

  /**
    Inlining is the plain expansion whenever that one ends, with any fuel that lets it end; and it cuts a
    ref for being on its own path exactly when the plain expansion never ends.
  */
  lemma InlinesExactlyTheFinite(node: Json, doc: Json)
    ensures forall fuel: nat :: Finite(node, doc, fuel) ==> Inline(node, doc, []) == Expand(node, doc, fuel)
    ensures Cyclic(node, doc, []) <==> !EverFinite(node, doc)
  {
    forall fuel: nat | Finite(node, doc, fuel)
      ensures Inline(node, doc, []) == Expand(node, doc, fuel) && !Cyclic(node, doc, [])
    {
      FiniteIsInlined(node, doc, [], fuel);
    }
    if !Cyclic(node, doc, []) {
      var enough := |Unvisited(Refs(node) + Refs(doc), [])|;
      AcyclicIsFinite(node, doc, [], enough);
      assert Finite(node, doc, enough);
    }
  }

  // ---------------------------------------------------------------- self-contained

  /** No object anywhere still stands for a ref. */
  predicate SelfContained(node: Json)
    decreases node, 0
  {
    match node
    case Arr(items) => AllSelfContained(items)
    case Obj(_, values) => RefOf(node).None? && AllSelfContained(values)
    case _ => true
  }

  predicate AllSelfContained(nodes: seq<Json>)
    decreases nodes, 1
  {
    nodes == [] || (SelfContained(nodes[0]) && AllSelfContained(nodes[1..]))
  }

  /** The chain of refs that starts here ends, uncut, in a string. */
  predicate EndsInString(node: Json, doc: Json, stack: seq<string>)
    decreases |Unvisited(Refs(node) + Refs(doc), stack)|
  {
    var ref := RefOf(node);
    if ref.None? then node.Str?
    else if ref.value in stack || ResolveLocalRef(doc, ref.value).None? then false
    else
      FollowingShrinks(node, doc, stack, ref.value);
      EndsInString(ResolveLocalRef(doc, ref.value).value, doc, stack + [ref.value])
  }

  /** Some object the expansion reaches has a `$ref` that is no string but leads to one. */
  predicate LeavesRef(node: Json, doc: Json, stack: seq<string>)
    decreases |Unvisited(Refs(node) + Refs(doc), stack)|, node, 0
  {
    match node
    case Arr(items) => AnyLeavesRef(items, doc, stack)
    case Obj(keys, values) =>
      var ref := RefOf(node);
      if ref.None? then
        DescendingKeeps(node, values, doc, stack);
        var member := Lookup(keys, values, REF);
        (member.Some? && EndsInString(member.value, doc, stack)) || AnyLeavesRef(values, doc, stack)
      else if ref.value in stack || ResolveLocalRef(doc, ref.value).None? then false
      else
        FollowingShrinks(node, doc, stack, ref.value);
        LeavesRef(ResolveLocalRef(doc, ref.value).value, doc, stack + [ref.value])
    case _ => false
  }

  predicate AnyLeavesRef(nodes: seq<Json>, doc: Json, stack: seq<string>)
    decreases |Unvisited(RefsOfAll(nodes) + Refs(doc), stack)|, nodes, 1
  {
    nodes != [] &&
      (ListingKeeps(nodes, doc, stack);
       LeavesRef(nodes[0], doc, stack) || AnyLeavesRef(nodes[1..], doc, stack))
  }

  /** Exactly the nodes whose chain of refs ends in a string are inlined into one. */
  lemma {:induction false} InlinedToString(node: Json, doc: Json, stack: seq<string>)
    ensures Inline(node, doc, stack).Str? <==> EndsInString(node, doc, stack)
    decreases |Unvisited(Refs(node) + Refs(doc), stack)|
  {
    match node
    case Obj(_, _) =>
      var ref := RefOf(node);
      if ref.Some? && ref.value !in stack && ResolveLocalRef(doc, ref.value).Some? {
        var target := ResolveLocalRef(doc, ref.value).value;
        FollowingShrinks(node, doc, stack, ref.value);
        InlinedToString(target, doc, stack + [ref.value]);
        assert Inline(node, doc, stack) == Inline(target, doc, stack + [ref.value]);
        assert EndsInString(node, doc, stack) == EndsInString(target, doc, stack + [ref.value]);
      }
    case _ =>
  }

  /** Every key keeps its value, inlined. */
  lemma {:induction false} LookupInlined(keys: seq<string>, values: seq<Json>, doc: Json, stack: seq<string>,
      key: string)
    ensures
      var member := Lookup(keys, values, key);
      Lookup(keys, InlineAll(values, doc, stack), key) ==
        if member.None? then None else Some(Inline(member.value, doc, stack))
  {
    if keys != [] && values != [] && keys[0] != key {
      LookupInlined(keys[1..], values[1..], doc, stack, key);
    }
  }

  lemma RefAppears(keys: seq<string>, values: seq<Json>, doc: Json, stack: seq<string>)
    ensures
      var member := Lookup(keys, values, REF);
      RefOf(Obj(keys, InlineAll(values, doc, stack))).Some? <==>
        member.Some? && EndsInString(member.value, doc, stack)
  {
    LookupInlined(keys, values, doc, stack, REF);
    var member := Lookup(keys, values, REF);
    if member.Some? {
      InlinedToString(member.value, doc, stack);
    }
  }

  /**
    The result mentions no ref exactly when no object the expansion reaches has a `$ref` that is itself a
    ref object and leads, uncut, to a string: that string then stands where the `$ref` was.
  */
  lemma {:induction false} SelfContainedIff(node: Json, doc: Json, stack: seq<string>)
    ensures SelfContained(Inline(node, doc, stack)) <==> !LeavesRef(node, doc, stack)
    decreases |Unvisited(Refs(node) + Refs(doc), stack)|, node, 0
  {
    match node
    case Arr(items) => AllSelfContainedIff(items, doc, stack);
    case Obj(keys, values) =>
      var ref := RefOf(node);
      if ref.None? {
        DescendingKeeps(node, values, doc, stack);
        AllSelfContainedIff(values, doc, stack);
        OneLevelIff(keys, values, doc, stack);
      } else if ref.value in stack || ResolveLocalRef(doc, ref.value).None? {
        CutLeavesNone(node, doc, stack, ref.value);
      } else {
        FollowingShrinks(node, doc, stack, ref.value);
        SelfContainedIff(ResolveLocalRef(doc, ref.value).value, doc, stack + [ref.value]);
        FollowedLeaves(node, doc, stack, ref.value);
      }
    case _ =>
  }

  lemma CutLeavesNone(node: Json, doc: Json, stack: seq<string>, ref: string)
    requires RefOf(node) == Some(ref) && (ref in stack || ResolveLocalRef(doc, ref).None?)
    ensures Inline(node, doc, stack) == PERMISSIVE_SCHEMA && !LeavesRef(node, doc, stack)
    ensures SelfContained(PERMISSIVE_SCHEMA)
  {
  }

  lemma FollowedLeaves(node: Json, doc: Json, stack: seq<string>, ref: string)
    requires RefOf(node) == Some(ref) && ref !in stack && ResolveLocalRef(doc, ref).Some?
    ensures
      var target := ResolveLocalRef(doc, ref).value;
      && Inline(node, doc, stack) == Inline(target, doc, stack + [ref])
      && LeavesRef(node, doc, stack) == LeavesRef(target, doc, stack + [ref])
  {
  }

  lemma OneLevelIff(keys: seq<string>, values: seq<Json>, doc: Json, stack: seq<string>)
    requires RefOf(Obj(keys, values)).None?
    requires AllSelfContained(InlineAll(values, doc, stack)) <==> !AnyLeavesRef(values, doc, stack)
    ensures var node := Obj(keys, values); SelfContained(Inline(node, doc, stack)) <==> !LeavesRef(node, doc, stack)
  {
    RefAppears(keys, values, doc, stack);
    assert Inline(Obj(keys, values), doc, stack) == Obj(keys, InlineAll(values, doc, stack));
  }

  lemma {:induction false} AllSelfContainedIff(nodes: seq<Json>, doc: Json, stack: seq<string>)
    ensures AllSelfContained(InlineAll(nodes, doc, stack)) <==> !AnyLeavesRef(nodes, doc, stack)
    decreases |Unvisited(RefsOfAll(nodes) + Refs(doc), stack)|, nodes, 1
  {
    if nodes != [] {
      ListingKeeps(nodes, doc, stack);
      SelfContainedIff(nodes[0], doc, stack);
      AllSelfContainedIff(nodes[1..], doc, stack);
      assert InlineAll(nodes, doc, stack)[1..] == InlineAll(nodes[1..], doc, stack);
    }
  }

  /** Every `$ref` anywhere is a string. */
  predicate PlainRefs(node: Json)
    decreases node, 0
  {
    match node
    case Arr(items) => AllPlainRefs(items)
    case Obj(keys, values) => (var ref := Lookup(keys, values, REF); ref.None? || ref.value.Str?)
        && AllPlainRefs(values)
    case _ => true
  }

  predicate AllPlainRefs(nodes: seq<Json>)
    decreases nodes, 1
  {
    nodes == [] || (PlainRefs(nodes[0]) && AllPlainRefs(nodes[1..]))
  }

  lemma {:induction false} PlainBelow(nodes: seq<Json>, node: Json)
    requires AllPlainRefs(nodes) && node in nodes
    ensures PlainRefs(node)
  {
    if nodes[0] != node { PlainBelow(nodes[1..], node); }
  }

  lemma {:induction false} WalkStaysPlain(node: Json, parts: seq<string>)
    requires PlainRefs(node) && Walk(node, parts).Some?
    ensures PlainRefs(Walk(node, parts).value)
    decreases |parts|
  {
    if parts != [] {
      var next := Lookup(node.keys, node.values, Unescaped(parts[0])).value;
      PlainBelow(node.values, next);
      WalkStaysPlain(next, parts[1..]);
    }
  }

  /** When every `$ref` is a string, cyclic or not, no ref is left. */
  lemma {:induction false} InlinedIsSelfContained(node: Json, doc: Json, stack: seq<string>)
    requires PlainRefs(node) && PlainRefs(doc)
    ensures SelfContained(Inline(node, doc, stack))
  {
    PlainLeavesNone(node, doc, stack);
    SelfContainedIff(node, doc, stack);
  }

  lemma {:induction false} PlainLeavesNone(node: Json, doc: Json, stack: seq<string>)
    requires PlainRefs(node) && PlainRefs(doc)
    ensures !LeavesRef(node, doc, stack)
    decreases |Unvisited(Refs(node) + Refs(doc), stack)|, node, 0
  {
    match node
    case Arr(items) => AllPlainLeaveNone(items, doc, stack);
    case Obj(_, values) =>
      var ref := RefOf(node);
      if ref.None? {
        DescendingKeeps(node, values, doc, stack);
        AllPlainLeaveNone(values, doc, stack);
      } else if ref.value !in stack && ResolveLocalRef(doc, ref.value).Some? {
        FollowingShrinks(node, doc, stack, ref.value);
        WalkStaysPlain(doc, SplitPointer(ref.value[2..], ""));
        PlainLeavesNone(ResolveLocalRef(doc, ref.value).value, doc, stack + [ref.value]);
      }
    case _ =>
  }

  lemma {:induction false} AllPlainLeaveNone(nodes: seq<Json>, doc: Json, stack: seq<string>)
    requires AllPlainRefs(nodes) && PlainRefs(doc)
    ensures !AnyLeavesRef(nodes, doc, stack)
    decreases |Unvisited(RefsOfAll(nodes) + Refs(doc), stack)|, nodes, 1
  {
    if nodes != [] {
      ListingKeeps(nodes, doc, stack);
      PlainLeavesNone(nodes[0], doc, stack);
      AllPlainLeaveNone(nodes[1..], doc, stack);
    }
  }
}
