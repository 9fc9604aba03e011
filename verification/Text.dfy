/** Idempotency keys as text. */
module Text {

  /** The ASCII characters `str.strip` removes. */
  predicate IsSpace(c: char) { c in " \t\n\r\U{0B}\U{0C}\U{1C}\U{1D}\U{1E}\U{1F}" }

  function LStrip(s: string): (r: string)
    ensures r == [] || !IsSpace(r[0])
    ensures |r| <= |s|
  {
    if s == [] || !IsSpace(s[0]) then s else LStrip(s[1..])
  }

  function RStrip(s: string): (r: string)
    ensures r == [] || !IsSpace(r[|r| - 1])
    ensures r <= s
  {
    if s == [] || !IsSpace(s[|s| - 1]) then s else RStrip(s[..|s| - 1])
  }

  /** `str.strip`. */
  function Strip(s: string): string { RStrip(LStrip(s)) }

  predicate Blank(s: string) { Strip(s) == [] }

  predicate AllSpace(s: string) { forall i :: 0 <= i < |s| ==> IsSpace(s[i]) }

  lemma {:induction false} LStripIs(s: string) returns (before: string)
    ensures AllSpace(before) && s == before + LStrip(s)
  {
    if s == [] || !IsSpace(s[0]) {
      before := [];
    } else {
      before := LStripIs(s[1..]);
      before := [s[0]] + before;
    }
  }

  lemma {:induction false} RStripIs(s: string) returns (after: string)
    ensures AllSpace(after) && s == RStrip(s) + after
  {
    if s == [] || !IsSpace(s[|s| - 1]) {
      after := [];
    } else {
      var front := s[..|s| - 1];
      after := RStripIs(front);
      assert s == front + [s[|s| - 1]];
      after := after + [s[|s| - 1]];
    }
  }

  /** What is left is the text between the spaces around it. */
  lemma StripIs(s: string) returns (before: string, after: string)
    ensures AllSpace(before) && AllSpace(after) && s == before + Strip(s) + after
    ensures Strip(s) != [] ==> !IsSpace(Strip(s)[0]) && !IsSpace(Strip(s)[|Strip(s)| - 1])
  {
    before := LStripIs(s);
    after := RStripIs(LStrip(s));
  }

  lemma BlankIff(s: string)
    ensures Blank(s) <==> AllSpace(s)
  {
    var before, after := StripIs(s);
    if Strip(s) != [] { assert s[|before|] == Strip(s)[0]; }
  }

  predicate Bare(s: string) { s == [] || (!IsSpace(s[0]) && !IsSpace(s[|s| - 1])) }

  lemma {:induction false} LStripOf(before: string, s: string)
    requires AllSpace(before) && (s == [] || !IsSpace(s[0]))
    ensures LStrip(before + s) == s
  {
    if before == [] {
      assert before + s == s;
    } else {
      assert (before + s)[1..] == before[1..] + s;
      LStripOf(before[1..], s);
    }
  }

  lemma {:induction false} RStripOf(s: string, after: string)
    requires AllSpace(after) && (s == [] || !IsSpace(s[|s| - 1]))
    ensures RStrip(s + after) == s
  {
    if after == [] {
      assert s + after == s;
    } else {
      assert (s + after)[..|s + after| - 1] == s + after[..|after| - 1];
      RStripOf(s, after[..|after| - 1]);
    }
  }

  /** Whatever bare text stands between spaces is what is left of the whole. */
  lemma StripOf(before: string, s: string, after: string)
    requires AllSpace(before) && AllSpace(after) && s != [] && Bare(s)
    ensures Strip(before + s + after) == s
  {
    assert before + s + after == before + (s + after);
    assert (s + after)[0] == s[0];
    LStripOf(before, s + after);
    RStripOf(s, after);
  }
}
