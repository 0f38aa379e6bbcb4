/** The numerically stable softmax of `VisionClassifier.predict`:
    `exp = np.exp(logits - logits.max()); probs = exp / exp.sum()`.
    The exponential is a parameter: any function that is positive and
    strictly increasing, as the real exponential is. */
module Probabilities {
  import opened Numerics

  /** The two facts about the exponential the model relies on. */
  ghost predicate IsExp(exp: real -> real)
  {
    && (forall x :: 0.0 < exp(x))
    && (forall x, y :: x < y ==> exp(x) < exp(y))
  }

  /** `np.exp(logits - shift)`, element by element. */
  function ShiftedExps(exp: real -> real, logits: seq<real>, shift: real): (e: seq<real>)
    ensures |e| == |logits|
    ensures IsExp(exp) ==> AllPositive(e)
    ensures IsExp(exp) && 0 < |logits| && shift == Max(logits) ==>
              forall i :: 0 <= i < |e| ==> e[i] <= exp(0.0)
  {
    seq(|logits|, i requires 0 <= i < |logits| => exp(logits[i] - shift))
  }

  /** The probability vector of a non-empty logit vector: one probability per
      class, each in (0, 1]. */
  function Softmax(exp: real -> real, logits: seq<real>): (probs: seq<real>)
    requires |logits| > 0
    requires IsExp(exp)
    ensures |probs| == |logits|
    ensures forall i :: 0 <= i < |probs| ==> 0.0 < probs[i] <= 1.0
  {
    var e := ShiftedExps(exp, logits, Max(logits));
    FractionsOfSum(e);
    Normalized(e)
  }

  /** Each term divided by the (positive) total. */
  function Normalized(e: seq<real>): (q: seq<real>)
    requires 0.0 < Sum(e)
    ensures |q| == |e|
    ensures forall i :: 0 <= i < |q| ==> q[i] * Sum(e) == e[i]
  {
    seq(|e|, i requires 0 <= i < |e| => e[i] / Sum(e))
  }

  lemma UnitFraction(a: real, t: real)
    requires 0.0 < a <= t
    ensures 0.0 < a / t <= 1.0
  {
  }

  lemma FractionsOfSum(e: seq<real>)
    requires |e| > 0 && AllPositive(e)
    ensures 0.0 < Sum(e)
    ensures forall i :: 0 <= i < |e| ==> 0.0 < Normalized(e)[i] <= 1.0
  {
    SumOfPositives(e);
    forall i | 0 <= i < |e| ensures 0.0 < Normalized(e)[i] <= 1.0 {
      UnitFraction(e[i], Sum(e));
    }
  }

  lemma NormalizedSumsToOne(e: seq<real>)
    requires 0.0 < Sum(e)
    ensures Sum(Normalized(e)) == 1.0
  {
    var total := Sum(e);
    SumDivided(e, total);
    assert total / total == 1.0;
  }

  /** The probabilities add up to exactly one. */
  lemma SoftmaxSumsToOne(exp: real -> real, logits: seq<real>)
    requires |logits| > 0
    requires IsExp(exp)
    ensures Sum(Softmax(exp, logits)) == 1.0
  {
    var e := ShiftedExps(exp, logits, Max(logits));
    FractionsOfSum(e);
    NormalizedSumsToOne(e);
  }

  lemma DivideByPositive(a: real, b: real, t: real)
    requires 0.0 < t
    ensures a <= b <==> a / t <= b / t
  {
  }

  /** Softmax ranks classes exactly as the logits do: one probability is at
      most another if and only if its logit is at most the other's. */
  lemma SoftmaxPreservesOrder(exp: real -> real, logits: seq<real>, i: int, j: int)
    requires |logits| > 0
    requires IsExp(exp)
    requires 0 <= i < |logits| && 0 <= j < |logits|
    ensures Softmax(exp, logits)[i] <= Softmax(exp, logits)[j] <==> logits[i] <= logits[j]
  {
    var m := Max(logits);
    var e := ShiftedExps(exp, logits, m);
    FractionsOfSum(e);
    assert e[i] <= e[j] <==> logits[i] <= logits[j] by {
      if logits[i] < logits[j] {
        assert exp(logits[i] - m) < exp(logits[j] - m);
      } else if logits[j] < logits[i] {
        assert exp(logits[j] - m) < exp(logits[i] - m);
      }
    }
    DivideByPositive(e[i], e[j], Sum(e));
  }

  /** A class of the largest logit gets the largest probability, and only
      such a class does. */
  lemma SoftmaxArgmax(exp: real -> real, logits: seq<real>, i: int)
    requires |logits| > 0
    requires IsExp(exp)
    requires 0 <= i < |logits|
    ensures (forall j :: 0 <= j < |logits| ==> Softmax(exp, logits)[j] <= Softmax(exp, logits)[i])
            <==> logits[i] == Max(logits)
  {
    var p := Softmax(exp, logits);
    if logits[i] == Max(logits) {
      forall j | 0 <= j < |logits| ensures p[j] <= p[i] {
        SoftmaxPreservesOrder(exp, logits, j, i);
      }
    } else {
      var k :| 0 <= k < |logits| && logits[k] == Max(logits);
      SoftmaxPreservesOrder(exp, logits, k, i);
    }
  }
}
