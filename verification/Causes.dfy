/**
  How an error text is made printable before it is stored: control characters and line separators are
  dropped, and a long text is cut and marked.

  A text is its sequence of UTF-16 code units, as `length` and `slice` count them.
*/
module Causes {
  type CodeUnit = u: int | 0 <= u < 0x1_0000

  type Text = seq<CodeUnit>

  const CAUSE_MAX_LENGTH: nat := 300

  const ELLIPSIS: CodeUnit := 0x2026

  predicate Printable(u: CodeUnit) {
    u >= 0x20 && u != 0x7F && !(0x80 <= u <= 0x9F) && u != 0x2028 && u != 0x2029
  }

  predicate AllPrintable(t: Text) {
    forall i :: 0 <= i < |t| ==> Printable(t[i])
  }

  function Cleaned(t: Text): Text {
    if t == [] then [] else (if Printable(t[0]) then [t[0]] else []) + Cleaned(t[1..])
  }

  function FormatCause(t: Text): Text {
    var cleaned := Cleaned(t);
    if |cleaned| > CAUSE_MAX_LENGTH then cleaned[..CAUSE_MAX_LENGTH] + [ELLIPSIS] else cleaned
  }

  /** Cleaning leaves only printable units, and drops nothing exactly when all were printable. */
  lemma {:induction false} CleanedIsPrintable(t: Text)
    ensures AllPrintable(Cleaned(t)) && |Cleaned(t)| <= |t|
    ensures |Cleaned(t)| == |t| <==> AllPrintable(t)
    ensures AllPrintable(t) ==> Cleaned(t) == t
  {
    if t != [] {
      CleanedIsPrintable(t[1..]);
      if Printable(t[0]) {
        assert AllPrintable(t) <==> AllPrintable(t[1..]);
      }
    }
  }

  /** The units that stay keep their order: cleaning goes through concatenation. */
  lemma {:induction false} CleanedAppends(a: Text, b: Text)
    ensures Cleaned(a + b) == Cleaned(a) + Cleaned(b)
  {
    if a == [] {
      assert a + b == b;
    } else {
      assert (a + b)[1..] == a[1..] + b && (a + b)[0] == a[0];
      CleanedAppends(a[1..], b);
      var kept := if Printable(a[0]) then [a[0]] else [];
      assert kept + (Cleaned(a[1..]) + Cleaned(b)) == (kept + Cleaned(a[1..])) + Cleaned(b);
    }
  }

  /**
    What is not printable leaves no trace, wherever and however often it stands: a line break cannot
    forge a line of the log, and it costs the rest of the text none of the room the limit leaves.
  */
  lemma NoiseLeavesNoTrace(a: Text, noise: Text, b: Text)
    requires forall u :: u in noise ==> !Printable(u)
    ensures FormatCause(a + noise + b) == FormatCause(a + b)
  {
    CleanedAppends(a + noise, b);
    CleanedAppends(a, noise);
    CleanedAppends(a, b);
    NoiseIsDropped(noise);
    assert Cleaned(a) + [] == Cleaned(a);
  }

  lemma {:induction false} NoiseIsDropped(noise: Text)
    requires forall u :: u in noise ==> !Printable(u)
    ensures Cleaned(noise) == []
  {
    if noise != [] {
      NoiseIsDropped(noise[1..]);
    }
  }

  /**
    Which texts are stored as they are: the printable ones of at most the limit, and the ones that
    already end in the cut mark.  So storing a stored text again changes nothing.
  */
  predicate Unchanged(t: Text) {
    && AllPrintable(t)
    && (|t| <= CAUSE_MAX_LENGTH || (|t| == CAUSE_MAX_LENGTH + 1 && t[CAUSE_MAX_LENGTH] == ELLIPSIS))
  }

  lemma FormatKeepsExactly(t: Text)
    ensures FormatCause(t) == t <==> Unchanged(t)
    ensures Unchanged(FormatCause(t))
  {
    CleanedIsPrintable(t);
    if Unchanged(t) && |t| == CAUSE_MAX_LENGTH + 1 {
      assert t == t[..CAUSE_MAX_LENGTH] + [t[CAUSE_MAX_LENGTH]];
    }
    if FormatCause(t) == t {
      assert AllPrintable(FormatCause(t));
    }
  }

  /** Whatever the text, what is stored is one short line: no control character, no line break, at most 301 units. */
  lemma StoredIsOneLine(t: Text, u: CodeUnit)
    requires u in FormatCause(t)
    ensures |FormatCause(t)| <= 301
    ensures u > 0x1F && !(0x7F <= u <= 0x9F) && u != 0x2028 && u != 0x2029
  {
    CleanedIsPrintable(t);
    var i :| 0 <= i < |FormatCause(t)| && FormatCause(t)[i] == u;
    assert (i < |Cleaned(t)| && u == Cleaned(t)[i]) || u == ELLIPSIS;
  }

  /** A long text is cut at its end and marked: what is stored begins as the cleaned text does. */
  lemma CutKeepsTheStart(t: Text)
    ensures
      var cleaned, stored := Cleaned(t), FormatCause(t);
      if |cleaned| <= CAUSE_MAX_LENGTH then stored == cleaned
      else
        && |stored| == CAUSE_MAX_LENGTH + 1 && stored[..CAUSE_MAX_LENGTH] <= cleaned
        && stored[CAUSE_MAX_LENGTH] == ELLIPSIS
  {
  }
}
