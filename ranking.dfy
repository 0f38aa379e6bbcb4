/** The top-K selection of `VisionClassifier.predict`:
    `top_k = min(top_k, len(labels))`,
    `top_indices = np.argsort(probs)[::-1][:top_k]`, and one
    `{label, confidence}` item per selected index.

    `np.argsort` uses an unstable sort, so the order it gives to equal
    probabilities is not fixed. `IsArgsort` says what every permissible
    result is; the lemmas about ranking hold for each of them, and
    `Argsort` is one of them. */
module Ranking {
  import opened Numerics
  import opened Outcomes

  /** One `{"label": ..., "confidence": ...}` item of the result. */
  datatype Prediction = Prediction(name: string, confidence: real)

  ghost predicate InRange(s: seq<int>, n: int)
  {
    forall p :: 0 <= p < |s| ==> 0 <= s[p] < n
  }

  ghost predicate Distinct(s: seq<int>)
  {
    forall p, q :: 0 <= p < q < |s| ==> s[p] != s[q]
  }

  ghost predicate SortedBy(keys: seq<real>, s: seq<int>)
    requires InRange(s, |keys|)
  {
    forall p, q :: 0 <= p < q < |s| ==> keys[s[p]] <= keys[s[q]]
  }

  /** `order` is a permissible result of `np.argsort(keys)`: every index of
      `keys` exactly once, in ascending order of key. */
  ghost predicate IsArgsort(keys: seq<real>, order: seq<int>)
  {
    IsPermutation(order, |keys|) && SortedBy(keys, order)
  }

  /** The indices are exactly 0 .. n-1, each once. */
  ghost predicate IsPermutation(idx: seq<int>, n: nat)
  {
    && |idx| == n && InRange(idx, n) && Distinct(idx)
    && (forall j :: 0 <= j < n ==> j in idx)
  }

  /** Inserts index `x` into `sorted` before the first index whose key is
      not smaller. */
  function Insert(keys: seq<real>, sorted: seq<int>, x: int): (r: seq<int>)
    requires 0 <= x < |keys| && InRange(sorted, |keys|)
    ensures |r| == |sorted| + 1
    ensures forall y :: y in r <==> y in sorted || y == x
    ensures InRange(r, |keys|)
  {
    if |sorted| == 0 then [x]
    else if keys[x] <= keys[sorted[0]] then [x] + sorted
    else [sorted[0]] + Insert(keys, sorted[1..], x)
  }

  lemma {:induction false} InsertKeepsSortedAndDistinct(keys: seq<real>, sorted: seq<int>, x: int)
    requires 0 <= x < |keys| && InRange(sorted, |keys|)
    requires SortedBy(keys, sorted) && Distinct(sorted) && x !in sorted
    ensures SortedBy(keys, Insert(keys, sorted, x)) && Distinct(Insert(keys, sorted, x))
  {
    if |sorted| > 0 && keys[sorted[0]] < keys[x] {
      var rest := sorted[1..];
      assert forall y :: y in rest ==> y in sorted;
      InsertKeepsSortedAndDistinct(keys, rest, x);
      var r := Insert(keys, sorted, x);
      assert r == [sorted[0]] + Insert(keys, rest, x);
      forall q | 0 < q < |r| ensures keys[sorted[0]] <= keys[r[q]] && sorted[0] != r[q] {
        assert r[q] in Insert(keys, rest, x);
        if r[q] != x {
          var k :| 0 <= k < |rest| && rest[k] == r[q];
          assert sorted[k + 1] == r[q];
        }
      }
    }
  }

  /** The indices 0 .. i-1 sorted by key, by repeated insertion. */
  function SortPrefix(keys: seq<real>, i: nat): (r: seq<int>)
    requires i <= |keys|
    ensures |r| == i && InRange(r, |keys|)
    ensures forall y :: y in r <==> 0 <= y < i
  {
    if i == 0 then [] else Insert(keys, SortPrefix(keys, i - 1), i - 1)
  }

  lemma {:induction false} SortPrefixSortedAndDistinct(keys: seq<real>, i: nat)
    requires i <= |keys|
    ensures SortedBy(keys, SortPrefix(keys, i)) && Distinct(SortPrefix(keys, i))
  {
    if i > 0 {
      SortPrefixSortedAndDistinct(keys, i - 1);
      InsertKeepsSortedAndDistinct(keys, SortPrefix(keys, i - 1), i - 1);
    }
  }

  /** One permissible `np.argsort(keys)`. */
  function Argsort(keys: seq<real>): (order: seq<int>)
    ensures IsArgsort(keys, order)
  {
    SortPrefixSortedAndDistinct(keys, |keys|);
    SortPrefix(keys, |keys|)
  }

  /** `s[::-1]`. */
  function Reverse(s: seq<int>): seq<int>
  {
    seq(|s|, p requires 0 <= p < |s| => s[|s| - 1 - p])
  }

  /** Reversing twice gives the sequence back, and the reversal of a
      permutation of 0 .. n-1 is one too. */
  lemma ReverseIsInvolutivePermutation(s: seq<int>, n: nat)
    ensures Reverse(Reverse(s)) == s
    ensures IsPermutation(s, n) ==> IsPermutation(Reverse(s), n)
  {
    if IsPermutation(s, n) {
      forall j | 0 <= j < n ensures j in Reverse(s) {
        assert j in s;
        var k :| 0 <= k < n && s[k] == j;
        assert Reverse(s)[n - 1 - k] == j;
      }
      forall p, q | 0 <= p < q < n ensures Reverse(s)[p] != Reverse(s)[q] {
        assert Reverse(s)[p] == s[n - 1 - p] && Reverse(s)[q] == s[n - 1 - q];
      }
    }
  }

  /** The number of items `s[:stop]` keeps of a sequence of length n:
      a negative stop counts from the end, and the result is clamped to
      [0, n]. */
  function SliceStop(n: nat, stop: int): (k: nat)
    ensures k <= n
  {
    if stop < 0 then (if n + stop < 0 then 0 else n + stop)
    else if stop < n then stop
    else n
  }

  /** Position p of a sequence of length n survives `s[:stop]` exactly when
      it lies before `stop`, a negative stop counting from the end. */
  lemma SliceStopKeeps(n: nat, stop: int, p: int)
    requires 0 <= p < n
    ensures p < SliceStop(n, stop) <==> (if stop >= 0 then p < stop else p < n + stop)
  {
  }

  function Min(a: int, b: int): int
  {
    if a < b then a else b
  }

  /** `np.argsort(probs)[::-1][:min(top_k, numLabels)]` for a given
      argsort result `order`. */
  function TopIndices(order: seq<int>, topK: int, numLabels: nat): (top: seq<int>)
    ensures |top| <= |order|
    ensures topK >= 0 ==> |top| <= topK && |top| <= numLabels
    ensures forall p :: 0 <= p < |top| ==> top[p] == order[|order| - 1 - p]
  {
    var descending := Reverse(order);
    descending[..SliceStop(|descending|, Min(topK, numLabels))]
  }

  /** The label and confidence of every selected index, or the error that
      `self.labels[idx]` raises when the model scores more classes than there
      are labels and such a class is selected. */
  function RankFrom(labels: seq<string>, probs: seq<real>, order: seq<int>, topK: int): (r: Result<seq<Prediction>>)
    requires IsArgsort(probs, order)
    ensures r.Err? ==> r.error == LabelIndexError && |labels| < |probs|
    ensures |probs| <= |labels| ==> r.Ok?
    ensures r.Ok? ==> |r.value| == |TopIndices(order, topK, |labels|)|
    ensures r.Ok? ==> forall p :: 0 <= p < |r.value| ==>
                         var idx := TopIndices(order, topK, |labels|)[p];
                         0 <= idx < |labels| && r.value[p] == Prediction(labels[idx], probs[idx])
  {
    var top := TopIndices(order, topK, |labels|);
    if forall p :: 0 <= p < |top| ==> top[p] < |labels| then
      Ok(seq(|top|, p requires 0 <= p < |top| => Prediction(labels[top[p]], probs[top[p]])))
    else
      Err(LabelIndexError)
  }

  /** The ranking `predict` performs, with one permissible argsort. */
  function Rank(labels: seq<string>, probs: seq<real>, topK: int): (r: Result<seq<Prediction>>)
    ensures |labels| == |probs| ==> r.Ok? && |r.value| == ExpectedCount(|probs|, topK)
    ensures r.Ok? ==> forall p, q :: 0 <= p < q < |r.value| ==> r.value[q].confidence <= r.value[p].confidence
  {
    var order := Argsort(probs);
    assert |labels| == |probs| ==> RankFrom(labels, probs, order, topK).Ok? by {
      if |labels| == |probs| { RankFromCount(labels, probs, order, topK); }
    }
    RankFromOrdered(labels, probs, order, topK);
    RankFrom(labels, probs, order, topK)
  }

  /** The number of items `predict` returns when the model scores one class
      per label: min(top_k, n) for a non-negative top_k, max(0, n + top_k)
      for a negative one. */
  function ExpectedCount(n: nat, topK: int): nat
  {
    if topK >= 0 then Min(topK, n) else if n + topK < 0 then 0 else n + topK
  }

  /** The selected indices are distinct positions of `keys`, there are as
      many as Python's slice keeps, and every index is selected when top_k is
      at least the number of classes. */
  lemma TopIndicesAreDistinctClasses(keys: seq<real>, order: seq<int>, topK: int, numLabels: nat)
    requires IsArgsort(keys, order)
    ensures var top := TopIndices(order, topK, numLabels);
      && |top| == SliceStop(|keys|, Min(topK, numLabels))
      && InRange(top, |keys|) && Distinct(top)
      && (topK >= |keys| && numLabels >= |keys| ==> forall j :: 0 <= j < |keys| ==> j in top)
  {
    var n := |keys|;
    var top := TopIndices(order, topK, numLabels);
    forall p, q | 0 <= p < q < |top| ensures top[p] != top[q] {
      assert top[p] == order[n - 1 - p] && top[q] == order[n - 1 - q];
    }
    if topK >= n && numLabels >= n {
      forall j | 0 <= j < n ensures j in top {
        assert j in order;
        var k :| 0 <= k < n && order[k] == j;
        assert top[n - 1 - k] == j;
      }
    }
  }

  /** The selected keys are non-increasing from first to last. */
  lemma TopIndicesDescending(keys: seq<real>, order: seq<int>, topK: int, numLabels: nat)
    requires IsArgsort(keys, order)
    ensures var top := TopIndices(order, topK, numLabels);
      InRange(top, |keys|) &&
      forall p, q :: 0 <= p < q < |top| ==> keys[top[q]] <= keys[top[p]]
  {
  }

  /** Top-k dominance: no index left out has a larger key than any index
      selected. */
  lemma TopIndicesDominate(keys: seq<real>, order: seq<int>, topK: int, numLabels: nat)
    requires IsArgsort(keys, order)
    ensures var top := TopIndices(order, topK, numLabels);
      InRange(top, |keys|) &&
      forall j, p :: 0 <= j < |keys| && j !in top && 0 <= p < |top| ==> keys[j] <= keys[top[p]]
  {
    var n := |keys|;
    var top := TopIndices(order, topK, numLabels);
    forall j, p | 0 <= j < n && j !in top && 0 <= p < |top| ensures keys[j] <= keys[top[p]] {
      assert j in order;
      var k :| 0 <= k < n && order[k] == j;
      var q := n - 1 - k;
      assert Reverse(order)[q] == j;
      assert q >= |top|;
      assert top[p] == order[n - 1 - p];
    }
  }

  /** `keys[idx]` for every index of `idx`. */
  function Gather(keys: seq<real>, idx: seq<int>): seq<real>
    requires InRange(idx, |keys|)
  {
    seq(|idx|, p requires 0 <= p < |idx| => keys[idx[p]])
  }

  /** Removing the position of the largest index leaves a permutation of
      the smaller ones. */
  lemma RemoveLast(idx: seq<int>, n: nat, q: int)
    requires n > 0 && IsPermutation(idx, n)
    requires 0 <= q < n && idx[q] == n - 1
    ensures IsPermutation(idx[..q] + idx[q + 1..], n - 1)
  {
    var rest := idx[..q] + idx[q + 1..];
    assert forall p :: 0 <= p < q ==> rest[p] == idx[p];
    assert forall p :: q <= p < n - 1 ==> rest[p] == idx[p + 1];
    forall p, p' | 0 <= p < p' < n - 1 ensures rest[p] != rest[p'] {
      var a := if p < q then p else p + 1;
      var b := if p' < q then p' else p' + 1;
      assert a < b && rest[p] == idx[a] && rest[p'] == idx[b];
    }
    forall j | 0 <= j < n - 1 ensures j in rest {
      assert j in idx;
      var k :| 0 <= k < n && idx[k] == j;
      if k < q {
        assert rest[k] == j;
      } else {
        assert rest[k - 1] == j;
      }
    }
  }

  /** The sum over `idx` is the sum without position q plus the term at q. */
  lemma SumGatherWithout(keys: seq<real>, idx: seq<int>, q: int)
    requires InRange(idx, |keys|) && 0 <= q < |idx|
    ensures Sum(Gather(keys, idx)) == Sum(Gather(keys, idx[..q] + idx[q + 1..])) + keys[idx[q]]
  {
    var a, b := Gather(keys, idx[..q]), Gather(keys, idx[q + 1..]);
    assert Gather(keys, idx[..q] + idx[q + 1..]) == a + b;
    assert Gather(keys, idx) == a + [keys[idx[q]]] + b;
    SumAppend(a, b);
    SumAppend(a + [keys[idx[q]]], b);
    SumAppend(a, [keys[idx[q]]]);
  }

  /** Visiting every index exactly once, in any order, gives the same sum. */
  lemma {:induction false} SumOfPermutation(keys: seq<real>, idx: seq<int>)
    requires IsPermutation(idx, |keys|)
    ensures Sum(Gather(keys, idx)) == Sum(keys)
  {
    var n := |keys|;
    if n > 0 {
      assert n - 1 in idx;
      var q :| 0 <= q < n && idx[q] == n - 1;
      var rest := idx[..q] + idx[q + 1..];
      RemoveLast(idx, n, q);
      var init := keys[..n - 1];
      SumOfPermutation(init, rest);
      assert Gather(init, rest) == Gather(keys, rest);
      SumGatherWithout(keys, idx, q);
      assert keys == init + [keys[n - 1]];
      SumAppend(init, [keys[n - 1]]);
    }
  }

  function Confidences(items: seq<Prediction>): seq<real>
  {
    seq(|items|, p requires 0 <= p < |items| => items[p].confidence)
  }

  /** With one class per label, ranking never fails and returns
      min(top_k, n) items for a non-negative top_k and max(0, n + top_k)
      for a negative one. */
  lemma RankFromCount(labels: seq<string>, probs: seq<real>, order: seq<int>, topK: int)
    requires IsArgsort(probs, order)
    requires |labels| == |probs|
    ensures RankFrom(labels, probs, order, topK).Ok?
    ensures |RankFrom(labels, probs, order, topK).value| == ExpectedCount(|probs|, topK)
  {
  }

  /** The confidences come out non-increasing, and none of the classes left
      out has a larger probability than any class returned. */
  lemma RankFromOrdered(labels: seq<string>, probs: seq<real>, order: seq<int>, topK: int)
    requires IsArgsort(probs, order)
    ensures var r := RankFrom(labels, probs, order, topK);
      var top := TopIndices(order, topK, |labels|);
      r.Ok? ==>
        && (forall p, q :: 0 <= p < q < |r.value| ==> r.value[q].confidence <= r.value[p].confidence)
        && (forall j, p :: 0 <= j < |probs| && j !in top && 0 <= p < |r.value| ==> probs[j] <= r.value[p].confidence)
  {
    TopIndicesDescending(probs, order, topK, |labels|);
    TopIndicesDominate(probs, order, topK, |labels|);
  }

  /** When every class is returned, the confidences add up to the total
      probability. */
  lemma RankFromKeepsTotal(labels: seq<string>, probs: seq<real>, order: seq<int>, topK: int)
    requires IsArgsort(probs, order)
    requires |labels| == |probs| && topK >= |probs|
    ensures RankFrom(labels, probs, order, topK).Ok?
    ensures Sum(Confidences(RankFrom(labels, probs, order, topK).value)) == Sum(probs)
  {
    var top := TopIndices(order, topK, |labels|);
    TopIndicesAreDistinctClasses(probs, order, topK, |labels|);
    var r := RankFrom(labels, probs, order, topK);
    assert Confidences(r.value) == Gather(probs, top);
    SumOfPermutation(probs, top);
  }
}
