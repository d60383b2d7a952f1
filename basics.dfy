/** Shared vocabulary of the projection engine: optional values, the taxpayer's
    bracket, and real-valued min, max and sums. Money is an exact `real`. */
module Basics {

  datatype Option<+T> = None | Some(value: T)

  /** The bracket as the engine compares `tax_bracket.lower()`: 'higher',
      'additional', and Basic for every other string. */
  datatype Bracket = Higher | Additional | Basic

  function Max(a: real, b: real): real { if a >= b then a else b }

  function Min(a: real, b: real): real { if a <= b then a else b }

  /** The sum of a sequence of amounts. */
  function Sum(s: seq<real>): real
  {
    if |s| == 0 then 0.0 else s[0] + Sum(s[1..])
  }

  lemma {:induction false} SumConcat(a: seq<real>, b: seq<real>)
    ensures Sum(a + b) == Sum(a) + Sum(b)
  {
    if |a| > 0 {
      assert (a + b)[1..] == a[1..] + b;
      SumConcat(a[1..], b);
    } else {
      assert a + b == b;
    }
  }

  lemma SumSingle(v: real)
    ensures Sum([v]) == v
  {
    assert [v][1..] == [];
  }

  /** Extending a running total by one more amount (the shape of a `+=` loop). */
  lemma SumSnoc(s: seq<real>, k: nat)
    requires k < |s|
    ensures Sum(s[..k + 1]) == Sum(s[..k]) + s[k]
  {
    assert s[..k + 1] == s[..k] + [s[k]];
    SumConcat(s[..k], [s[k]]);
  }

  predicate NonNegative(s: seq<real>)
  {
    forall j :: 0 <= j < |s| ==> s[j] >= 0.0
  }

  /** In a sequence of non-negative amounts no element exceeds the sum. */
  lemma {:induction false} ElementBelowSum(s: seq<real>, j: nat)
    requires NonNegative(s) && j < |s|
    ensures 0.0 <= s[j] <= Sum(s)
  {
    SumNonNegative(s[1..]);
    if j > 0 {
      ElementBelowSum(s[1..], j - 1);
    }
  }

  lemma {:induction false} SumNonNegative(s: seq<real>)
    requires NonNegative(s)
    ensures Sum(s) >= 0.0
  {
    if |s| > 0 {
      SumNonNegative(s[1..]);
    }
  }

  /** A sequence that starts with u + [v] starts with u, and has v right after it. */
  lemma PrefixOfSnoc<T>(r: seq<T>, u: seq<T>, v: T)
    requires |u| < |r| && r[..|u| + 1] == u + [v]
    ensures r[..|u|] == u && r[|u|] == v
  {
    assert r[..|u|] == r[..|u| + 1][..|u|];
    assert r[|u|] == r[..|u| + 1][|u|];
  }
}
