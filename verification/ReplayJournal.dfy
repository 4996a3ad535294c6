/**
  The durable replay journal of a code execution and the prefix a resume rebuilds from it.
*/
module ReplayJournal {
  import opened Wrappers
  import opened Causes

  datatype Op = Search | Describe | Call

  datatype Request = Request(op: Op, payload: Text)

  /** What a tool call hands back to the guest; values are JSON text. */
  datatype Outcome = Ok(value: Text) | Failed(name: Text, message: Text)

  datatype Entry = Entry(request: Request, outcome: Outcome)

  datatype Row = Row(ordinal: int, entry: Entry)

  /** Stable insertion by ordinal, later rows after equal ones. */
  function Insert(r: Row, sorted: seq<Row>): seq<Row> {
    if sorted == [] || r.ordinal <= sorted[0].ordinal then [r] + sorted
    else [sorted[0]] + Insert(r, sorted[1..])
  }

  function SortByOrdinal(rows: seq<Row>): (sorted: seq<Row>)
    ensures |sorted| == |rows|
  {
    if rows == [] then [] else
      InsertLength(rows[0], SortByOrdinal(rows[1..]));
      Insert(rows[0], SortByOrdinal(rows[1..]))
  }

  lemma {:induction false} InsertLength(r: Row, sorted: seq<Row>)
    ensures |Insert(r, sorted)| == |sorted| + 1
  {
    if sorted != [] && r.ordinal > sorted[0].ordinal { InsertLength(r, sorted[1..]); }
  }

  predicate Contiguous(rows: seq<Row>) {
    forall i :: 0 <= i < |rows| ==> rows[i].ordinal == i
  }

  function Entries(rows: seq<Row>): seq<Entry> { seq(|rows|, i requires 0 <= i < |rows| => rows[i].entry) }

  /** `None` is the thrown corruption error. */
  function ToSandboxJournal(rows: seq<Row>): Option<seq<Entry>> {
    var sorted := SortByOrdinal(rows);
    if Contiguous(sorted) then Some(Entries(sorted)) else None
  }

  /** The stored ordinals are 0..n-1, each once, in whatever order the rows are listed. */
  predicate OrdinalsExact(rows: seq<Row>) {
    && (forall r :: r in rows ==> 0 <= r.ordinal < |rows|)
    && (forall i, j :: 0 <= i < j < |rows| ==> rows[i].ordinal != rows[j].ordinal)
  }

  predicate Increasing(rows: seq<Row>) {
    forall i, j :: 0 <= i < j < |rows| ==> rows[i].ordinal < rows[j].ordinal
  }

  lemma {:induction false} InsertKeepsOrder(r: Row, sorted: seq<Row>)
    ensures forall q :: q in Insert(r, sorted) <==> q == r || q in sorted
    ensures Increasing(Insert(r, sorted)) <==> Increasing(sorted) && forall q :: q in sorted ==> q.ordinal != r.ordinal
  {
    var out := Insert(r, sorted);
    if sorted == [] || r.ordinal <= sorted[0].ordinal {
      assert out[0] == r && out[1..] == sorted;
      if Increasing(out) {
        forall i, j | 0 <= i < j < |sorted| ensures sorted[i].ordinal < sorted[j].ordinal {
          assert sorted[i] == out[i + 1] && sorted[j] == out[j + 1];
        }
        forall q | q in sorted ensures q.ordinal != r.ordinal {
          var i :| 0 <= i < |sorted| && sorted[i] == q;
          assert out[i + 1] == q && out[0].ordinal < out[i + 1].ordinal;
        }
      }
    } else {
      InsertKeepsOrder(r, sorted[1..]);
      HeadFirst(sorted[0], sorted[1..]);
      HeadFirst(sorted[0], Insert(r, sorted[1..]));
      assert sorted == [sorted[0]] + sorted[1..];
    }
  }

  lemma HeadFirst(h: Row, tail: seq<Row>)
    ensures Increasing([h] + tail) <==> Increasing(tail) && forall q :: q in tail ==> h.ordinal < q.ordinal
  {
    var s := [h] + tail;
    if Increasing(s) {
      forall i, j | 0 <= i < j < |tail| ensures tail[i].ordinal < tail[j].ordinal {
        assert tail[i] == s[i + 1] && tail[j] == s[j + 1];
      }
      forall q | q in tail ensures h.ordinal < q.ordinal {
        var i :| 0 <= i < |tail| && tail[i] == q;
        assert s[0] == h && s[i + 1] == q;
      }
    }
  }

  lemma {:induction false} SortOrders(rows: seq<Row>)
    ensures forall q :: q in SortByOrdinal(rows) <==> q in rows
    ensures Increasing(SortByOrdinal(rows)) <==> forall i, j ::
        0 <= i < j < |rows| ==> rows[i].ordinal != rows[j].ordinal
  {
    if rows != [] {
      var tail := rows[1..];
      SortOrders(tail);
      InsertKeepsOrder(rows[0], SortByOrdinal(tail));
      assert rows == [rows[0]] + tail;
      if forall i, j :: 0 <= i < j < |rows| ==> rows[i].ordinal != rows[j].ordinal {
        forall i, j | 0 <= i < j < |tail| ensures tail[i].ordinal != tail[j].ordinal {
          assert tail[i] == rows[i + 1] && tail[j] == rows[j + 1];
        }
        forall q | q in tail ensures q.ordinal != rows[0].ordinal {
          var i :| 0 <= i < |tail| && tail[i] == q;
          assert rows[i + 1] == q;
        }
      } else {
        var i, j :| 0 <= i < j < |rows| && rows[i].ordinal == rows[j].ordinal;
        if i == 0 {
          assert rows[j] == tail[j - 1] && rows[j] in tail;
        } else {
          assert tail[i - 1] == rows[i] && tail[j - 1] == rows[j];
        }
      }
    }
  }

  lemma {:induction false} IncreasingIsAtLeastIndex(s: seq<Row>, i: nat)
    requires Increasing(s) && i < |s| && s[0].ordinal >= 0
    ensures s[i].ordinal >= i
    decreases i
  {
    if i > 0 {
      IncreasingIsAtLeastIndex(s, i - 1);
      assert s[i - 1].ordinal < s[i].ordinal;
    }
  }

  lemma {:induction false} IncreasingLeavesRoom(s: seq<Row>, i: nat)
    requires Increasing(s) && i < |s| && s[|s| - 1].ordinal < |s|
    ensures s[i].ordinal <= i
    decreases |s| - i
  {
    if i < |s| - 1 {
      IncreasingLeavesRoom(s, i + 1);
      assert s[i].ordinal < s[i + 1].ordinal;
    }
  }

  /**
    A journal is rebuilt exactly when its ordinals are 0..n-1, each once, whatever order the rows came
    in; position `i` then holds the row with ordinal `i`.  A gap, a duplicate or a non-zero start is
    always caught, never compacted into a shorter prefix.
  */
  lemma JournalRebuiltIffExact(rows: seq<Row>)
    ensures ToSandboxJournal(rows).Some? <==> OrdinalsExact(rows)
    ensures ToSandboxJournal(rows).Some? ==>
              && |ToSandboxJournal(rows).value| == |rows|
              && forall r :: r in rows ==> ToSandboxJournal(rows).value[r.ordinal] == r.entry
  {
    var sorted := SortByOrdinal(rows);
    SortOrders(rows);
    if OrdinalsExact(rows) {
      forall i | 0 <= i < |sorted| ensures sorted[i].ordinal == i {
        assert sorted[0] in rows && sorted[|sorted| - 1] in rows;
        IncreasingIsAtLeastIndex(sorted, i);
        IncreasingLeavesRoom(sorted, i);
      }
    }
    if Contiguous(sorted) {
      forall r | r in rows ensures 0 <= r.ordinal < |rows| && sorted[r.ordinal] == r {
        var i :| 0 <= i < |sorted| && sorted[i] == r;
      }
    }
  }

  /** Rows listed in order come back as they are. */
  lemma OrderedRowsComeBack(rows: seq<Row>)
    requires Contiguous(rows)
    ensures ToSandboxJournal(rows) == Some(Entries(rows))
  {
    JournalRebuiltIffExact(rows);
    assert forall i :: 0 <= i < |rows| ==> rows[i] in rows && rows[i].ordinal == i;
    assert ToSandboxJournal(rows).value == Entries(rows);
  }
}
