/**
  Operator decisions: staged for one pending call, consumed at most once, by that call alone.

  `Seam` is the value the in-memory store holds; the class updates it in place.
*/
module Decisions {
  import opened Wrappers

  /** `request` is the byte-exact serialization of the call's input. */
  datatype Identity = Identity(toolName: string, request: string)

  datatype Decision = Approve | Deny

  datatype Staged = Staged(identity: Identity, decision: Decision)

  datatype Seam = Seam(staged: map<string, Staged>, consumed: set<string>)

  const EMPTY := Seam(map[], {})

  datatype Op = Stage(id: string, entry: Staged) | Take(id: string, identity: Identity) | Discard(id: string)

  /** What a `take` answers. */
  function Taken(s: Seam, id: string, identity: Identity): Option<Decision> {
    if id in s.staged && s.staged[id].identity == identity then Some(s.staged[id].decision) else None
  }

  function After(s: Seam, op: Op): Seam {
    match op
    case Stage(id, entry) => Seam(s.staged[id := entry], s.consumed - {id})
    case Take(id, identity) =>
      if Taken(s, id, identity).Some? then Seam(s.staged - {id}, s.consumed + {id}) else s
    case Discard(id) => s.(staged := s.staged - {id})
  }

  function AfterAll(s: Seam, ops: seq<Op>): Seam {
    if ops == [] then s else After(AfterAll(s, ops[..|ops| - 1]), ops[|ops| - 1])
  }

  /** The `k`-th operation of a run consumed a decision. */
  predicate Consumes(s: Seam, ops: seq<Op>, k: nat)
    requires k < |ops|
  {
    ops[k].Take? && Taken(AfterAll(s, ops[..k]), ops[k].id, ops[k].identity).Some?
  }

  /** Operation `i` staged what operation `k` then found: nothing in between touched that execution. */
  predicate StagedFor(ops: seq<Op>, i: nat, k: nat)
    requires i < k < |ops|
  {
    && ops[i].Stage? && ops[k].Take? && ops[i].id == ops[k].id
    && ops[i].entry.identity == ops[k].identity
    && forall m :: i < m < k && ops[m].id == ops[k].id ==>
         ops[m].Take? && ops[m].identity != ops[k].identity
  }

  /** What is staged for an execution was staged by its last operation that was not a mismatched take. */
  lemma {:induction false} StagedComesFromStage(ops: seq<Op>, id: string) returns (i: nat)
    requires id in AfterAll(EMPTY, ops).staged
    ensures i < |ops| && ops[i] == Stage(id, AfterAll(EMPTY, ops).staged[id])
    ensures forall m :: i < m < |ops| && ops[m].id == id ==>
              ops[m].Take? && ops[m].identity != ops[i].entry.identity
    decreases |ops|
  {
    var n := |ops| - 1;
    if ops[n].Stage? && ops[n].id == id {
      i := n;
    } else {
      i := StagedComesFromStage(ops[..n], id);
    }
  }

  /** Operation `i` staged for `id`, and nothing since could take, replace or drop what it staged. */
  predicate Lasts(ops: seq<Op>, id: string, i: nat) {
    && i < |ops| && ops[i].Stage? && ops[i].id == id
    && forall m :: i < m < |ops| && ops[m].id == id ==> ops[m].Take? && ops[m].identity != ops[i].entry.identity
  }

  /** Executions do not meet in the store: an operation on one leaves every other as it was. */
  lemma OthersUntouched(s: Seam, op: Op, other: string)
    requires op.id != other
    ensures
      var t := After(s, op);
      && (other in t.staged <==> other in s.staged) && (other in t.consumed <==> other in s.consumed)
      && (other in s.staged ==> t.staged[other] == s.staged[other])
  {
  }

  /** A stage lasts: whatever else happens to other executions, its decision is there until its own call takes it. */
  lemma {:induction false} StageLasts(ops: seq<Op>, id: string, i: nat)
    requires Lasts(ops, id, i)
    ensures id in AfterAll(EMPTY, ops).staged && AfterAll(EMPTY, ops).staged[id] == ops[i].entry
    decreases |ops|
  {
    var n := |ops| - 1;
    if i < n {
      assert Lasts(ops[..n], id, i);
      StageLasts(ops[..n], id, i);
      if ops[n].id != id {
        OthersUntouched(AfterAll(EMPTY, ops[..n]), ops[n], id);
      }
    }
  }

  /**
    In every run an entry is staged exactly when some stage put it there and since then only takes of other
    calls happened to that execution.
  */
  lemma StagedIff(ops: seq<Op>, id: string, entry: Staged)
    ensures
      var s := AfterAll(EMPTY, ops);
      id in s.staged && s.staged[id] == entry <==> exists i: nat :: Lasts(ops, id, i) && ops[i].entry == entry
  {
    var s := AfterAll(EMPTY, ops);
    if id in s.staged && s.staged[id] == entry {
      var i := StagedComesFromStage(ops, id);
      assert Lasts(ops, id, i);
    }
    if i: nat :| Lasts(ops, id, i) && ops[i].entry == entry {
      StageLasts(ops, id, i);
    }
  }

  /** And a take answers exactly the decision such a stage bound to that very call. */
  lemma TakenIff(ops: seq<Op>, id: string, identity: Identity, decision: Decision)
    ensures
      Taken(AfterAll(EMPTY, ops), id, identity) == Some(decision) <==>
        exists i: nat :: Lasts(ops, id, i) && ops[i].entry == Staged(identity, decision)
  {
    StagedIff(ops, id, Staged(identity, decision));
  }

  /**
    In every run of the store, a take that succeeds returns the decision some earlier `stage` bound to
    exactly that identity, and between the two nobody staged, discarded or consumed: an approval for
    one call never authorizes another, and no approval authorizes twice.
  */
  lemma ConsumedOnceByItsOwnCall(ops: seq<Op>, k: nat) returns (i: nat)
    requires k < |ops| && Consumes(EMPTY, ops, k)
    ensures i < k && StagedFor(ops, i, k)
    ensures Taken(AfterAll(EMPTY, ops[..k]), ops[k].id, ops[k].identity) == Some(ops[i].entry.decision)
    ensures forall j :: i < j < k && ops[j].id == ops[k].id ==> !Consumes(EMPTY, ops, j)
  {
    i := StagedComesFromStage(ops[..k], ops[k].id);
    forall j | i < j < k && ops[j].id == ops[k].id ensures !Consumes(EMPTY, ops, j) {
      assert ops[..k][j] == ops[j] && ops[..k][..j] == ops[..j];
      if Consumes(EMPTY, ops, j) {
        var h := StagedComesFromStage(ops[..j], ops[k].id);
      }
    }
    forall m | i < m < k && ops[m].id == ops[k].id ensures ops[m].Take? && ops[m].identity != ops[k].identity {
      assert ops[..k][m] == ops[m];
    }
  }

  /** `consumed` is true exactly when the latest operation that settled the execution's fate was a matching take. */
  lemma {:induction false} ConsumedMeansApplied(ops: seq<Op>, id: string)
    ensures id in AfterAll(EMPTY, ops).consumed <==>
              exists k :: 0 <= k < |ops| && ops[k].id == id && Consumes(EMPTY, ops, k)
                          && forall m :: k < m < |ops| && ops[m].id == id ==> !ops[m].Stage?
    decreases |ops|
  {
    if ops != [] {
      var n := |ops| - 1;
      var before := ops[..n];
      ConsumedMeansApplied(before, id);
      forall k | 0 <= k < n ensures Consumes(EMPTY, before, k) == Consumes(EMPTY, ops, k) {
        assert before[k] == ops[k] && before[..k] == ops[..k];
      }
      if ops[n].id == id {
        if Consumes(EMPTY, ops, n) {
          assert id in AfterAll(EMPTY, ops).consumed;
        } else if ops[n].Stage? {
          assert id !in AfterAll(EMPTY, ops).consumed;
        } else {
          assert (id in AfterAll(EMPTY, ops).consumed) == (id in AfterAll(EMPTY, before).consumed);
        }
      }
    }
  }

  class ApprovalDecisions {
    var staged: map<string, Staged>
    var consumedIds: set<string>

    ghost function Value(): Seam
      reads this
    {
      Seam(staged, consumedIds)
    }

    constructor ()
      ensures Value() == EMPTY
    {
      staged, consumedIds := map[], {};
    }

    method Stage(id: string, identity: Identity, decision: Decision)
      modifies this
      ensures Value() == After(old(Value()), Op.Stage(id, Staged(identity, decision)))
    {
      staged := staged[id := Staged(identity, decision)];
      consumedIds := consumedIds - {id};
    }

    /** A mismatch leaves the staged decision in place. */
    method Take(id: string, identity: Identity) returns (decision: Option<Decision>)
      modifies this
      ensures decision == Taken(old(Value()), id, identity)
      ensures Value() == After(old(Value()), Op.Take(id, identity))
    {
      if id !in staged {
        return None;
      }
      var entry := staged[id];
      if entry.identity != identity {
        return None;
      }
      staged := staged - {id};
      consumedIds := consumedIds + {id};
      return Some(entry.decision);
    }

    method Peek(id: string) returns (present: bool)
      ensures present == (id in Value().staged)
    {
      present := id in staged;
    }

    method Discard(id: string)
      modifies this
      ensures Value() == After(old(Value()), Op.Discard(id))
    {
      staged := staged - {id};
    }

    method Consumed(id: string) returns (applied: bool)
      ensures applied == (id in Value().consumed)
    {
      applied := id in consumedIds;
    }
  }
}
