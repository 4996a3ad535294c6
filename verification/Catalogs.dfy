/**
  The in-memory tool catalog: an insertion-ordered map by tool name, its two mutations, and search.
*/
module Catalogs {
  import opened Wrappers

  datatype Tool = Tool(name: string, namespace: string, description: string)

  // ---------------------------------------------------------------- names

  predicate NoDot(s: string) { '.' !in s }

  /** The part of a tool name before its first dot. */
  function NamespaceOf(name: string): string {
    if name == "" || name[0] == '.' then "" else [name[0]] + NamespaceOf(name[1..])
  }

  function FullName(namespace: string, segment: string): string { namespace + "." + segment }

  /** A namespace has no dot, so a full name says which namespace it is in. */
  lemma {:induction false} NameTellsNamespace(namespace: string, segment: string)
    requires NoDot(namespace)
    ensures NamespaceOf(FullName(namespace, segment)) == namespace
  {
    if namespace != "" {
      assert FullName(namespace, segment)[1..] == FullName(namespace[1..], segment);
      NameTellsNamespace(namespace[1..], segment);
    } else {
      assert FullName(namespace, segment) == "." + segment;
    }
  }

  predicate WordChar(c: char) { 'A' <= c <= 'Z' || 'a' <= c <= 'z' || '0' <= c <= '9' || c == '_' || c == '.' }

  /** Slashes read as path dots; anything else outside the word characters becomes an underscore. */
  function ToolSegment(raw: string): string {
    seq(|raw|, i requires 0 <= i < |raw| => if raw[i] == '/' then '.' else if WordChar(raw[i]) then raw[i] else '_')
  }

  /** A segment is made of word characters, keeps every one that was, and is what it makes of itself. */
  lemma ToolSegmentCleans(raw: string)
    ensures
      var segment := ToolSegment(raw);
      && |segment| == |raw| && ToolSegment(segment) == segment
      && (forall i :: 0 <= i < |raw| ==> WordChar(segment[i]))
      && (forall i :: 0 <= i < |raw| && WordChar(raw[i]) ==> segment[i] == raw[i])
      && (forall i :: 0 <= i < |raw| && !WordChar(raw[i]) ==> segment[i] == if raw[i] == '/' then '.' else '_')
  {
  }

  predicate Distinct(names: seq<string>) {
    forall i, j :: 0 <= i < j < |names| ==> names[i] != names[j]
  }

  /** One entry of an upstream's tool list. */
  datatype RawTool = RawTool(name: string, description: string)

  function FullNames(namespace: string, raws: seq<RawTool>): seq<string> {
    seq(|raws|, i requires 0 <= i < |raws| => FullName(namespace, ToolSegment(raws[i].name)))
  }

  function Names(tools: seq<Tool>): seq<string> {
    seq(|tools|, i requires 0 <= i < |tools| => tools[i].name)
  }

  /** Refused exactly when two upstream tools would collapse onto one name. */
  method NormalizeMcp(namespace: string, raws: seq<RawTool>) returns (tools: Option<seq<Tool>>)
    ensures tools.Some? <==> Distinct(FullNames(namespace, raws))
    ensures tools.Some? ==>
              && Names(tools.value) == FullNames(namespace, raws)
              && forall i :: 0 <= i < |tools.value| ==>
                   tools.value[i].namespace == namespace && tools.value[i].description == raws[i].description
  {
    var built: seq<Tool> := [];
    var seen: set<string> := {};
    var all := FullNames(namespace, raws);
    while |built| < |raws|
      invariant |built| <= |raws|
      invariant forall i :: 0 <= i < |built| ==> built[i] == Tool(all[i], namespace, raws[i].description)
      invariant forall name :: name in seen <==> exists i :: 0 <= i < |built| && all[i] == name
      invariant Distinct(all[..|built|])
      decreases |raws| - |built|
    {
      var raw := raws[|built|];
      var name := FullName(namespace, ToolSegment(raw.name));
      assert name == all[|built|];
      if name in seen {
        return None;
      }
      seen := seen + {name};
      built := built + [Tool(name, namespace, raw.description)];
    }
    assert all[..|built|] == all && Names(built) == all;
    return Some(built);
  }

  /** What normalizing hands on: tools of one namespace, each name once. */
  lemma NormalizedTools(namespace: string, raws: seq<RawTool>, tools: seq<Tool>)
    requires NoDot(namespace) && Distinct(FullNames(namespace, raws)) && Names(tools) == FullNames(namespace, raws)
    requires forall t :: t in tools ==> t.namespace == namespace
    ensures Unique(tools) && WellNamed(tools)
  {
    forall i, j | 0 <= i < j < |tools| ensures tools[i].name != tools[j].name {
      assert Names(tools)[i] == FullNames(namespace, raws)[i] && Names(tools)[j] == FullNames(namespace, raws)[j];
    }
    forall t | t in tools ensures NamespaceOf(t.name) == t.namespace {
      var i :| 0 <= i < |tools| && tools[i] == t;
      assert t.name == Names(tools)[i] == FullName(namespace, ToolSegment(raws[i].name));
      NameTellsNamespace(namespace, ToolSegment(raws[i].name));
    }
  }

  // ---------------------------------------------------------------- the map

  predicate Unique(entries: seq<Tool>) {
    forall i, j :: 0 <= i < j < |entries| ==> entries[i].name != entries[j].name
  }

  predicate Has(entries: seq<Tool>, name: string) {
    exists i :: 0 <= i < |entries| && entries[i].name == name
  }

  /** Setting a name keeps its place if it is there, and appends it otherwise. */
  function Put(entries: seq<Tool>, tool: Tool): seq<Tool> {
    if entries == [] then [tool]
    else if entries[0].name == tool.name then [tool] + entries[1..]
    else [entries[0]] + Put(entries[1..], tool)
  }

  function Upserted(entries: seq<Tool>, tools: seq<Tool>): seq<Tool> {
    if tools == [] then entries else Put(Upserted(entries, tools[..|tools| - 1]), tools[|tools| - 1])
  }

  function Without(entries: seq<Tool>, namespace: string): seq<Tool> {
    if entries == [] then []
    else if entries[0].namespace == namespace then Without(entries[1..], namespace)
    else [entries[0]] + Without(entries[1..], namespace)
  }

  lemma {:induction false} PutHolds(entries: seq<Tool>, tool: Tool)
    requires Unique(entries)
    ensures Unique(Put(entries, tool))
    ensures forall t :: t in Put(entries, tool) <==> t == tool || (t in entries && t.name != tool.name)
  {
    if entries != [] {
      var tail := entries[1..];
      assert entries == [entries[0]] + tail;
      assert forall t :: t in tail ==> t.name != entries[0].name;
      if entries[0].name != tool.name {
        PutHolds(tail, tool);
        var rest := Put(tail, tool);
        assert forall i :: 0 <= i < |rest| ==> rest[i] in rest && rest[i].name != entries[0].name;
      }
    }
  }

  /** An upsert leaves the last tool given for each name, and every name it does not mention. */
  lemma {:induction false} UpsertHolds(entries: seq<Tool>, tools: seq<Tool>)
    requires Unique(entries) && Unique(tools)
    ensures Unique(Upserted(entries, tools))
    ensures forall t :: t in Upserted(entries, tools) <==> t in tools || (t in entries && !Has(tools, t.name))
    decreases |tools|
  {
    if tools != [] {
      var n := |tools| - 1;
      var front, last := tools[..n], tools[n];
      assert tools == front + [last];
      UpsertHolds(entries, front);
      PutHolds(Upserted(entries, front), last);
      forall t ensures t in Upserted(entries, tools) <==> t in tools || (t in entries && !Has(tools, t.name)) {
        assert t in tools <==> t in front || t == last;
        assert Has(tools, t.name) <==> Has(front, t.name) || last.name == t.name by {
          if Has(front, t.name) { var i :| 0 <= i < n && front[i].name == t.name; assert tools[i].name == t.name; }
          if last.name == t.name { assert tools[n].name == t.name; }
        }
        if t in front { assert t.name != last.name; }
      }
    }
  }

  lemma {:induction false} WithoutHolds(entries: seq<Tool>, namespace: string)
    requires Unique(entries)
    ensures Unique(Without(entries, namespace))
    ensures forall t :: t in Without(entries, namespace) <==> t in entries && t.namespace != namespace
  {
    if entries != [] {
      WithoutHolds(entries[1..], namespace);
      assert entries == [entries[0]] + entries[1..];
      var rest := Without(entries[1..], namespace);
      assert forall i :: 0 <= i < |rest| ==> rest[i] in rest && rest[i].name != entries[0].name;
    }
  }

  /** Every tool's name says its namespace. */
  predicate WellNamed(entries: seq<Tool>) {
    forall t :: t in entries ==> NamespaceOf(t.name) == t.namespace
  }

  /**
    Remove-then-upsert makes a namespace hold exactly the tools given and leaves every other namespace
    exactly as it was.  It rests on names never colliding across namespaces.
  */
  lemma RefreshReplacesNamespace(entries: seq<Tool>, namespace: string, tools: seq<Tool>)
    requires Unique(entries) && WellNamed(entries) && Unique(tools) && WellNamed(tools)
    requires forall t :: t in tools ==> t.namespace == namespace
    ensures var after := Upserted(Without(entries, namespace), tools);
            && Unique(after) && WellNamed(after)
            && forall t :: t in after <==> if t.namespace == namespace then t in tools else t in entries
  {
    WithoutHolds(entries, namespace);
    UpsertHolds(Without(entries, namespace), tools);
    forall t | t in entries && t.namespace != namespace ensures !Has(tools, t.name) {
      assert forall i :: 0 <= i < |tools| ==> tools[i] in tools && NamespaceOf(tools[i].name) == namespace;
    }
  }

  // ---------------------------------------------------------------- search

  datatype Hit = Hit(tool: Tool, score: nat)

  /** A query: how it scores a tool, how names collate, and whether it has any token at all. */
  datatype Query = Query(score: Tool -> nat, collate: (string, string) -> int, blank: bool)

  predicate Before(q: Query, a: Hit, b: Hit) {
    a.score > b.score || (a.score == b.score && q.collate(a.tool.name, b.tool.name) <= 0)
  }

  /** What a collation promises: any two names compare, consistently. */
  ghost predicate Collates(q: Query) {
    && (forall x, y :: q.collate(x, y) <= 0 || q.collate(y, x) <= 0)
    && (forall x, y, z :: q.collate(x, y) <= 0 && q.collate(y, z) <= 0 ==> q.collate(x, z) <= 0)
  }

  function Hits(q: Query, entries: seq<Tool>): seq<Hit> {
    if entries == [] then []
    else if q.score(entries[0]) > 0 then [Hit(entries[0], q.score(entries[0]))] + Hits(q, entries[1..])
    else Hits(q, entries[1..])
  }

  /** The earlier of two equal hits stays first. */
  function InsertHit(q: Query, h: Hit, sorted: seq<Hit>): seq<Hit> {
    if sorted == [] || Before(q, h, sorted[0]) then [h] + sorted else [sorted[0]] + InsertHit(q, h, sorted[1..])
  }

  function Ranked(q: Query, hits: seq<Hit>): seq<Hit> {
    if hits == [] then [] else InsertHit(q, hits[0], Ranked(q, hits[1..]))
  }

  /** `slice(0, end)`: a negative end counts from the back. */
  function Slice<T>(s: seq<T>, end: int): seq<T> {
    if end >= |s| then s else if end >= 0 then s[..end] else if |s| + end >= 0 then s[..|s| + end] else []
  }

  const DEFAULT_LIMIT: int := 10

  const MAX_SAFE_INTEGER: int := 0x1F_FFFF_FFFF_FFFF

  function Search(q: Query, entries: seq<Tool>, limit: Option<int>): seq<Hit> {
    if q.blank then [] else Slice(Ranked(q, Hits(q, entries)), if limit.Some? then limit.value else DEFAULT_LIMIT)
  }

  function PermittedHits(permits: string -> bool, hits: seq<Hit>): seq<Hit> {
    if hits == [] then []
    else if permits(hits[0].tool.name) then [hits[0]] + PermittedHits(permits, hits[1..])
    else PermittedHits(permits, hits[1..])
  }

  function PermittedTools(permits: string -> bool, entries: seq<Tool>): seq<Tool> {
    if entries == [] then []
    else if permits(entries[0].name) then [entries[0]] + PermittedTools(permits, entries[1..])
    else PermittedTools(permits, entries[1..])
  }

  /** The scoped host: rank everything, keep what the scope permits, then cut. */
  function ScopedSearch(q: Query, permits: string -> bool, entries: seq<Tool>, limit: Option<int>): seq<Hit> {
    Slice(PermittedHits(permits, Search(q, entries, Some(MAX_SAFE_INTEGER))), if limit.Some? then limit.value
        else DEFAULT_LIMIT)
  }

  predicate Sorted(q: Query, hits: seq<Hit>) {
    forall i, j :: 0 <= i < j < |hits| ==> Before(q, hits[i], hits[j])
  }

  lemma {:induction false} InsertKeepsAll(q: Query, h: Hit, sorted: seq<Hit>)
    ensures multiset(InsertHit(q, h, sorted)) == multiset(sorted) + multiset{h}
    ensures |InsertHit(q, h, sorted)| == |sorted| + 1
  {
    if sorted != [] && !Before(q, h, sorted[0]) {
      assert sorted == [sorted[0]] + sorted[1..];
      InsertKeepsAll(q, h, sorted[1..]);
    }
  }

  lemma SortedStart(q: Query, head: Hit, tail: seq<Hit>)
    requires Sorted(q, tail) && forall h :: h in tail ==> Before(q, head, h)
    ensures Sorted(q, [head] + tail)
  {
  }

  lemma {:induction false} InsertSorts(q: Query, h: Hit, sorted: seq<Hit>)
    requires Collates(q) && Sorted(q, sorted)
    ensures Sorted(q, InsertHit(q, h, sorted))
  {
    if sorted == [] || Before(q, h, sorted[0]) {
      assert forall x :: x in sorted ==> Before(q, h, x);
      SortedStart(q, h, sorted);
    } else {
      var head, tail := sorted[0], sorted[1..];
      assert sorted == [head] + tail;
      InsertSorts(q, h, tail);
      InsertKeepsAll(q, h, tail);
      var rest := InsertHit(q, h, tail);
      forall x | x in rest ensures Before(q, head, x) {
        assert x in multiset(rest);
        assert x == h || x in tail;
      }
      SortedStart(q, head, rest);
    }
  }

  /** The ranking is a sorted rearrangement of the hits. */
  lemma {:induction false} RankedSorts(q: Query, hits: seq<Hit>)
    requires Collates(q)
    ensures Sorted(q, Ranked(q, hits)) && multiset(Ranked(q, hits)) == multiset(hits) && |Ranked(q, hits)| == |hits|
  {
    if hits != [] {
      RankedSorts(q, hits[1..]);
      InsertSorts(q, hits[0], Ranked(q, hits[1..]));
      InsertKeepsAll(q, hits[0], Ranked(q, hits[1..]));
      assert hits == [hits[0]] + hits[1..];
    }
  }

  /** Each of the first `n` positions, once. */
  predicate Permutes(order: seq<int>, n: nat) {
    && |order| == n
    && (forall i :: 0 <= i < n ==> 0 <= order[i] < n)
    && (forall i, j :: 0 <= i < j < n ==> order[i] != order[j])
    && (forall m :: 0 <= m < n ==> m in order)
  }

  /** What a stable sort promises: `order` says where each result stood, and equal hits keep their order. */
  predicate StableSort(q: Query, hits: seq<Hit>, ranked: seq<Hit>, order: seq<int>) {
    && Permutes(order, |hits|) && |ranked| == |hits|
    && (forall i :: 0 <= i < |order| ==> ranked[i] == hits[order[i]])
    && Sorted(q, ranked)
    && (forall i, j :: 0 <= i < j < |order| && Before(q, ranked[j], ranked[i]) ==> order[i] < order[j])
  }

  lemma {:induction false} InsertAt(q: Query, h: Hit, sorted: seq<Hit>, k: nat)
    requires k <= |sorted| && forall i :: 0 <= i < k ==> !Before(q, h, sorted[i])
    requires k < |sorted| ==> Before(q, h, sorted[k])
    ensures InsertHit(q, h, sorted) == sorted[..k] + [h] + sorted[k..]
    decreases k
  {
    if k > 0 {
      InsertAt(q, h, sorted[1..], k - 1);
      assert sorted[..k] == [sorted[0]] + sorted[1..][..k - 1] && sorted[k..] == sorted[1..][k - 1..];
    }
  }

  function Skip(i: int, k: int): int { if i < k then i else i + 1 }

  function Removed<T>(s: seq<T>, k: nat): (r: seq<T>)
    requires k < |s|
    ensures |r| == |s| - 1 && forall i :: 0 <= i < |r| ==> r[i] == s[Skip(i, k)]
  {
    s[..k] + s[k + 1..]
  }

  /** The positions of all but the first hit, among themselves. */
  function Lowered(order: seq<int>, k: nat): (less: seq<int>)
    requires k < |order|
    ensures |less| == |order| - 1 && forall i :: 0 <= i < |less| ==> less[i] == order[Skip(i, k)] - 1
  {
    seq(|order| - 1, i requires 0 <= i < |order| - 1 => order[Skip(i, k)] - 1)
  }

  lemma LoweredPermutes(order: seq<int>, n: nat, k: nat)
    requires Permutes(order, n) && k < n && order[k] == 0
    ensures Permutes(Lowered(order, k), n - 1)
  {
    var less := Lowered(order, k);
    forall i | 0 <= i < n - 1 ensures 0 <= less[i] < n - 1 {
      assert Skip(i, k) != k;
    }
    forall m | 0 <= m < n - 1 ensures m in less {
      assert m + 1 in order;
      var at :| 0 <= at < |order| && order[at] == m + 1;
      assert less[if at < k then at else at - 1] == m;
    }
  }

  /** Without its first hit, the sort is a stable sort of the others. */
  lemma StableWithoutFirst(q: Query, hits: seq<Hit>, ranked: seq<Hit>, order: seq<int>, k: nat)
    requires StableSort(q, hits, ranked, order) && k < |order| && order[k] == 0
    ensures StableSort(q, hits[1..], Removed(ranked, k), Lowered(order, k))
  {
    LoweredPermutes(order, |hits|, k);
    var rest, less := Removed(ranked, k), Lowered(order, k);
    forall i | 0 <= i < |less| ensures rest[i] == hits[1..][less[i]] {
      assert ranked[Skip(i, k)] == hits[order[Skip(i, k)]];
    }
  }

  /** The first hit stands before everything it may stand before, and after everything else. */
  lemma FirstStandsAt(q: Query, hits: seq<Hit>, ranked: seq<Hit>, order: seq<int>, k: nat)
    requires StableSort(q, hits, ranked, order) && k < |order| && order[k] == 0
    ensures forall i :: 0 <= i < k ==> !Before(q, hits[0], ranked[i])
    ensures forall i :: k < i < |ranked| ==> Before(q, hits[0], ranked[i])
  {
    assert ranked[k] == hits[0];
  }

  lemma FirstIsInserted(q: Query, hits: seq<Hit>, ranked: seq<Hit>, order: seq<int>, k: nat)
    requires StableSort(q, hits, ranked, order) && k < |order| && order[k] == 0
    ensures InsertHit(q, hits[0], Removed(ranked, k)) == ranked
  {
    FirstStandsAt(q, hits, ranked, order, k);
    InsertAt(q, hits[0], Removed(ranked, k), k);
    assert ranked[k] == hits[order[k]];
    assert ranked == ranked[..k] + [ranked[k]] + ranked[k + 1..];
    assert Removed(ranked, k)[..k] == ranked[..k] && Removed(ranked, k)[k..] == ranked[k + 1..];
  }

  /** A stable sort has one result, whatever its algorithm: the ranking. */
  lemma {:induction false} StableSortIsRanked(q: Query, hits: seq<Hit>, ranked: seq<Hit>, order: seq<int>)
    requires StableSort(q, hits, ranked, order)
    ensures ranked == Ranked(q, hits)
    decreases |hits|
  {
    if hits != [] {
      var k := FirstAt(order, |hits|);
      StableWithoutFirst(q, hits, ranked, order, k);
      FirstIsInserted(q, hits, ranked, order, k);
      StableSortIsRanked(q, hits[1..], Removed(ranked, k), Lowered(order, k));
    }
  }

  lemma FirstAt(order: seq<int>, n: nat) returns (k: nat)
    requires Permutes(order, n) && n > 0
    ensures k < |order| && order[k] == 0
  {
    assert 0 in order;
    k :| k < |order| && order[k] == 0;
  }

  lemma {:induction false} PermittedIn(permits: string -> bool, hits: seq<Hit>)
    ensures forall h :: h in PermittedHits(permits, hits) ==> h in hits
  {
    if hits != [] { PermittedIn(permits, hits[1..]); }
  }

  lemma {:induction false} InsertThenFilter(q: Query, permits: string -> bool, h: Hit, sorted: seq<Hit>)
    requires Collates(q) && Sorted(q, sorted)
    ensures PermittedHits(permits, InsertHit(q, h, sorted)) ==
              if permits(h.tool.name) then InsertHit(q, h, PermittedHits(permits, sorted))
                  else PermittedHits(permits, sorted)
  {
    var kept := PermittedHits(permits, sorted);
    if sorted == [] || Before(q, h, sorted[0]) {
      assert ([h] + sorted)[1..] == sorted;
      PermittedIn(permits, sorted);
      if kept != [] {
        assert kept[0] in sorted;
        assert Before(q, h, kept[0]);
      }
    } else {
      var out := InsertHit(q, h, sorted);
      assert out[0] == sorted[0] && out[1..] == InsertHit(q, h, sorted[1..]);
      InsertThenFilter(q, permits, h, sorted[1..]);
    }
  }

  /** Filtering the ranking is ranking the filtered hits: the ranking is stable. */
  lemma {:induction false} RankThenFilter(q: Query, permits: string -> bool, hits: seq<Hit>)
    requires Collates(q)
    ensures PermittedHits(permits, Ranked(q, hits)) == Ranked(q, PermittedHits(permits, hits))
  {
    if hits != [] {
      var tail := hits[1..];
      RankedSorts(q, tail);
      RankThenFilter(q, permits, tail);
      InsertThenFilter(q, permits, hits[0], Ranked(q, tail));
    }
  }

  lemma {:induction false} HitsThenFilter(q: Query, permits: string -> bool, entries: seq<Tool>)
    ensures PermittedHits(permits, Hits(q, entries)) == Hits(q, PermittedTools(permits, entries))
    ensures |Hits(q, entries)| <= |entries|
  {
    if entries != [] {
      HitsThenFilter(q, permits, entries[1..]);
    }
  }

  /**
    A scoped search answers exactly what a plain search answers over a catalog that holds only the
    permitted tools, for every query, every limit and every scope.
  */
  lemma ScopedIsPlainOverPermitted(q: Query, permits: string -> bool, entries: seq<Tool>, limit: Option<int>)
    requires Collates(q) && |entries| <= MAX_SAFE_INTEGER
    ensures ScopedSearch(q, permits, entries, limit) == Search(q, PermittedTools(permits, entries), limit)
  {
    HitsThenFilter(q, permits, entries);
    RankedSorts(q, Hits(q, entries));
    RankThenFilter(q, permits, Hits(q, entries));
  }

  // ---------------------------------------------------------------- what a search finds

  /** A limit counts from the front, a negative one from the back; what is kept is a prefix. */
  function Kept(n: nat, end: int): nat {
    if end >= n then n else if end >= 0 then end else if n + end >= 0 then n + end else 0
  }

  lemma SliceKeeps<T>(s: seq<T>, end: int)
    ensures Kept(|s|, end) <= |s| && Slice(s, end) == s[..Kept(|s|, end)]
  {
  }

  lemma {:induction false} HitsAre(q: Query, entries: seq<Tool>)
    ensures |Hits(q, entries)| <= |entries|
    ensures forall h :: h in Hits(q, entries) <==> h.tool in entries && h.score == q.score(h.tool) && h.score > 0
  {
    if entries != [] {
      HitsAre(q, entries[1..]);
      assert forall t :: t in entries <==> t == entries[0] || t in entries[1..];
    }
  }

  lemma RankedHasHits(q: Query, hits: seq<Hit>, h: Hit)
    requires Collates(q)
    ensures h in Ranked(q, hits) <==> h in hits
  {
    RankedSorts(q, hits);
    assert h in multiset(Ranked(q, hits)) <==> h in multiset(hits);
  }

  lemma FrontIsBefore(q: Query, ranked: seq<Hit>, k: nat, left: Hit)
    requires Sorted(q, ranked) && k <= |ranked| && left in ranked[k..]
    ensures forall h :: h in ranked[..k] ==> Before(q, h, left)
  {
    var at :| 0 <= at < |ranked[k..]| && ranked[k..][at] == left;
    assert ranked[k + at] == left;
    assert forall i :: 0 <= i < k ==> Before(q, ranked[i], ranked[k + at]);
  }

  /** The front of the ranking: only hits, and none that ranks after one left out. */
  lemma PrefixIsBest(q: Query, hits: seq<Hit>, k: nat, left: Hit)
    requires Collates(q) && k <= |Ranked(q, hits)|
    ensures forall h :: h in Ranked(q, hits)[..k] ==> h in hits
    ensures left in hits && left !in Ranked(q, hits)[..k] ==>
              k < |Ranked(q, hits)| && forall h :: h in Ranked(q, hits)[..k] ==> Before(q, h, left)
  {
    var ranked := Ranked(q, hits);
    assert ranked == ranked[..k] + ranked[k..];
    forall h | h in ranked[..k] ensures h in hits {
      RankedHasHits(q, hits, h);
    }
    if left in hits && left !in ranked[..k] {
      RankedHasHits(q, hits, left);
      RankedSorts(q, hits);
      FrontIsBefore(q, ranked, k, left);
    }
  }

  /**
    A search with a token and no scope returns only tools that match, best score first and ties by name;
    whatever matching tool it leaves out ranks after everything it returns, and it leaves none out unless
    the limit is used up.
  */
  lemma FindsTheBest(q: Query, entries: seq<Tool>, limit: Option<int>, tool: Tool)
    requires Collates(q) && !q.blank
    ensures
      var found, end := Search(q, entries, limit), if limit.Some? then limit.value else 10;
      && |found| == Kept(|Hits(q, entries)|, end)
      && (forall h :: h in found ==> h.tool in entries && h.score == q.score(h.tool) && h.score > 0)
      && (forall i, j :: 0 <= i < j < |found| ==>
            && found[i].score >= found[j].score
            && (found[i].score == found[j].score ==> q.collate(found[i].tool.name, found[j].tool.name) <= 0))
      && (tool in entries && q.score(tool) > 0 && Hit(tool, q.score(tool)) !in found ==>
            && |found| < |Hits(q, entries)|
            && forall h :: h in found ==> Before(q, h, Hit(tool, q.score(tool))))
  {
    var hits := Hits(q, entries);
    var end := if limit.Some? then limit.value else 10;
    HitsAre(q, entries);
    RankedSorts(q, hits);
    SliceKeeps(Ranked(q, hits), end);
    PrefixIsBest(q, hits, Kept(|hits|, end), Hit(tool, q.score(tool)));
  }

  /** A query without a token finds nothing. */
  lemma BlankFindsNothing(q: Query, entries: seq<Tool>, limit: Option<int>, permits: string -> bool)
    requires q.blank
    ensures Search(q, entries, limit) == [] && ScopedSearch(q, permits, entries, limit) == []
  {
  }

  // ---------------------------------------------------------------- the object

  class InMemoryCatalog {
    var entries: seq<Tool>

    constructor ()
      ensures entries == []
    {
      entries := [];
    }

    method Upsert(tools: seq<Tool>)
      modifies this
      ensures entries == Upserted(old(entries), tools)
    {
      var i := 0;
      while i < |tools|
        invariant i <= |tools|
        invariant entries == Upserted(old(entries), tools[..i])
      {
        assert tools[..i + 1][..i] == tools[..i];
        entries := Put(entries, tools[i]);
        i := i + 1;
      }
      assert tools[..i] == tools;
    }

    method RemoveNamespace(namespace: string)
      modifies this
      ensures entries == Without(old(entries), namespace)
    {
      var kept, i := [], 0;
      while i < |entries|
        invariant i <= |entries| && entries == old(entries)
        invariant kept + Without(entries[i..], namespace) == Without(old(entries), namespace)
      {
        assert entries[i..][1..] == entries[i + 1..];
        if entries[i].namespace != namespace {
          kept := kept + [entries[i]];
        }
        i := i + 1;
      }
      entries := kept;
    }

    /**
      Collects the hits in a loop, ranks them and cuts.  The sort is the engine's own; being stable it can
      only give the ranking (`StableSortIsRanked`).
    */
    method Find(q: Query, limit: Option<int>) returns (found: seq<Hit>)
      ensures found == Search(q, entries, limit)
    {
      if q.blank {
        return [];
      }
      var hits, i := [], 0;
      while i < |entries|
        invariant i <= |entries|
        invariant hits + Hits(q, entries[i..]) == Hits(q, entries)
      {
        assert entries[i..][1..] == entries[i + 1..];
        var score := q.score(entries[i]);
        if score > 0 {
          hits := hits + [Hit(entries[i], score)];
        }
        i := i + 1;
      }
      assert hits == Hits(q, entries);
      found := Slice(Ranked(q, hits), if limit.Some? then limit.value else DEFAULT_LIMIT);
    }
  }
}
