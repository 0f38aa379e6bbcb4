/** Reductions over real vectors used by the classifier: the maximum that
    stabilises the softmax and the sum that normalises it. */
module Numerics {

  /** `x.max()` of a non-empty vector: an element of the vector that no
      element exceeds. */
  function Max(s: seq<real>): (m: real)
    requires |s| > 0
    ensures m in s
    ensures forall i :: 0 <= i < |s| ==> s[i] <= m
  {
    if |s| == 1 then s[0]
    else
      var rest := Max(s[1..]);
      if s[0] < rest then rest else s[0]
  }

  /** `x.sum()` of a vector, left to right. */
  function Sum(s: seq<real>): real
  {
    if |s| == 0 then 0.0 else s[0] + Sum(s[1..])
  }

  ghost predicate AllPositive(s: seq<real>)
  {
    forall i :: 0 <= i < |s| ==> 0.0 < s[i]
  }

  lemma {:induction false} SumAppend(a: seq<real>, b: seq<real>)
    ensures Sum(a + b) == Sum(a) + Sum(b)
  {
    if |a| == 0 {
      assert a + b == b;
    } else {
      assert (a + b)[1..] == a[1..] + b;
      SumAppend(a[1..], b);
    }
  }

  /** A sum of positive terms is at least each of its terms, and positive
      when there is at least one term. */
  lemma {:induction false} SumOfPositives(s: seq<real>)
    requires AllPositive(s)
    ensures |s| > 0 ==> 0.0 < Sum(s)
    ensures forall i :: 0 <= i < |s| ==> s[i] <= Sum(s)
  {
    if |s| > 0 {
      SumOfPositives(s[1..]);
      assert forall i :: 1 <= i < |s| ==> s[i] == s[1..][i - 1];
    }
  }

  /** Dividing every term by `d` divides the sum by `d`. */
  lemma {:induction false} SumDivided(s: seq<real>, d: real)
    requires d != 0.0
    ensures Sum(seq(|s|, i requires 0 <= i < |s| => s[i] / d)) == Sum(s) / d
  {
    var q := seq(|s|, i requires 0 <= i < |s| => s[i] / d);
    if |s| > 0 {
      SumDivided(s[1..], d);
      assert q[1..] == seq(|s[1..]|, i requires 0 <= i < |s[1..]| => s[1..][i] / d);
      assert q[0] + Sum(s[1..]) / d == (s[0] + Sum(s[1..])) / d;
    }
  }
}
