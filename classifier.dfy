/** `VisionClassifier.predict`: preprocess the decoded image, run the model,
    turn its logits into probabilities and return the top-K labels with
    their confidences. */
module Classifier {
  import opened Numerics
  import opened Probabilities
  import opened Ranking
  import opened Outcomes
  import opened ImageTensor

  /** The state `__init__` sets up once and never changes: the label
      catalogue and the loaded model, seen as a function from the input
      tensor to the logits of the first output's first batch row. */
  datatype VisionClassifier = VisionClassifier(labels: seq<string>, session: Tensor -> seq<real>)

  /** `__init__`: the model file is checked first, then the labels file.
      `modelExists` and `labelsExist` stand for the two `os.path.exists`
      checks, `labels` for what `json.load` reads and `session` for the
      loaded ONNX model. */
  function NewClassifier(modelExists: bool, labelsExist: bool, labels: seq<string>,
                         session: Tensor -> seq<real>): (r: Result<VisionClassifier>)
    ensures r.Ok? <==> modelExists && labelsExist
    ensures !modelExists ==> r == Err(ModelNotFound)
    ensures modelExists && !labelsExist ==> r == Err(LabelsNotFound)
    ensures r.Ok? ==> r.value.labels == labels
  {
    if !modelExists then Err(ModelNotFound)
    else if !labelsExist then Err(LabelsNotFound)
    else Ok(VisionClassifier(labels, session))
  }

  /** The logits the model gives for a decoded image. */
  function Logits(clf: VisionClassifier, img: Image): seq<real>
    requires IsRgbImage(img)
  {
    clf.session(Preprocess(img))
  }

  /** `predict(image, top_k)`, with `exp` standing for `np.exp`. */
  function Predict(clf: VisionClassifier, exp: real -> real, img: Image, topK: int): (r: Result<seq<Prediction>>)
    requires IsRgbImage(img)
    requires IsExp(exp)
    ensures r == Err(EmptyLogits) <==> |Logits(clf, img)| == 0
    ensures 0 < |Logits(clf, img)| <= |clf.labels| ==> r.Ok?
    ensures r.Err? && r.error == LabelIndexError ==> |clf.labels| < |Logits(clf, img)|
  {
    var logits := Logits(clf, img);
    if |logits| == 0 then Err(EmptyLogits)
    else Rank(clf.labels, Softmax(exp, logits), topK)
  }

  /** The indices of the classes `predict` reports, best first. */
  function PredictedClasses(clf: VisionClassifier, exp: real -> real, img: Image, topK: int): seq<int>
    requires IsRgbImage(img)
    requires IsExp(exp)
    requires |Logits(clf, img)| > 0
  {
    TopIndices(Argsort(Softmax(exp, Logits(clf, img))), topK, |clf.labels|)
  }

  /** A model that scores one class per label: then `predict` never fails,
      whatever `top_k` is, and returns min(top_k, n) items for a
      non-negative top_k (none for 0) and max(0, n + top_k) for a negative
      one; each item is the label of a distinct class with that class's
      probability, a confidence in (0, 1]. */
  lemma PredictReturnsLabelledClasses(clf: VisionClassifier, exp: real -> real, img: Image, topK: int)
    requires IsRgbImage(img)
    requires IsExp(exp)
    requires 0 < |Logits(clf, img)| == |clf.labels|
    ensures var r := Predict(clf, exp, img, topK);
      var top := PredictedClasses(clf, exp, img, topK);
      var probs := Softmax(exp, Logits(clf, img));
      && r.Ok?
      && |r.value| == ExpectedCount(|clf.labels|, topK) == |top|
      && Distinct(top)
      && forall p :: 0 <= p < |top| ==>
           && 0 <= top[p] < |clf.labels|
           && r.value[p] == Prediction(clf.labels[top[p]], probs[top[p]])
           && 0.0 < r.value[p].confidence <= 1.0
  {
    var probs := Softmax(exp, Logits(clf, img));
    RankFromCount(clf.labels, probs, Argsort(probs), topK);
    TopIndicesAreDistinctClasses(probs, Argsort(probs), topK, |clf.labels|);
  }

  /** For every permissible argsort of the probabilities, ties in any
      order: the selected logits are non-increasing, and every class left
      out has a logit no larger than that of any class selected. */
  lemma TopIndicesRankByLogit(exp: real -> real, logits: seq<real>, order: seq<int>, topK: int, numLabels: nat)
    requires |logits| > 0
    requires IsExp(exp)
    requires IsArgsort(Softmax(exp, logits), order)
    ensures var top := TopIndices(order, topK, numLabels);
      && InRange(top, |logits|)
      && (forall p, q :: 0 <= p < q < |top| ==> logits[top[q]] <= logits[top[p]])
      && (forall j, p :: 0 <= j < |logits| && j !in top && 0 <= p < |top| ==> logits[j] <= logits[top[p]])
  {
    var probs := Softmax(exp, logits);
    var top := TopIndices(order, topK, numLabels);
    TopIndicesDescending(probs, order, topK, numLabels);
    TopIndicesDominate(probs, order, topK, numLabels);
    forall p, q | 0 <= p < q < |top| ensures logits[top[q]] <= logits[top[p]] {
      SoftmaxPreservesOrder(exp, logits, top[q], top[p]);
    }
    forall j, p | 0 <= j < |logits| && j !in top && 0 <= p < |top| ensures logits[j] <= logits[top[p]] {
      SoftmaxPreservesOrder(exp, logits, j, top[p]);
    }
  }

  /** A selection sorted by logit, best first, that no class left out
      beats, starts with a class of the largest logit. */
  lemma LeadOfDominantSelection(logits: seq<real>, top: seq<int>)
    requires |logits| > 0 && InRange(top, |logits|)
    requires forall p, q :: 0 <= p < q < |top| ==> logits[top[q]] <= logits[top[p]]
    requires forall j, p :: 0 <= j < |logits| && j !in top && 0 <= p < |top| ==> logits[j] <= logits[top[p]]
    ensures |top| > 0 ==> logits[top[0]] == Max(logits)
  {
    if |top| > 0 {
      var m :| 0 <= m < |logits| && logits[m] == Max(logits);
      if m in top {
        var k :| 0 <= k < |top| && top[k] == m;
        assert k == 0 || logits[top[k]] <= logits[top[0]];
      } else {
        assert logits[m] <= logits[top[0]];
      }
    }
  }

  /** Confidences come out non-increasing; every class left out has a logit
      no larger than that of any class returned; and the first class
      returned has the largest logit. */
  lemma PredictRanksByLogit(clf: VisionClassifier, exp: real -> real, img: Image, topK: int)
    requires IsRgbImage(img)
    requires IsExp(exp)
    requires 0 < |Logits(clf, img)| == |clf.labels|
    ensures var r := Predict(clf, exp, img, topK);
      var top := PredictedClasses(clf, exp, img, topK);
      var logits := Logits(clf, img);
      && r.Ok? && |r.value| == |top| && InRange(top, |logits|)
      && (forall p, q :: 0 <= p < q < |r.value| ==> r.value[q].confidence <= r.value[p].confidence)
      && (forall p, q :: 0 <= p < q < |top| ==> logits[top[q]] <= logits[top[p]])
      && (forall j, p :: 0 <= j < |logits| && j !in top && 0 <= p < |top| ==> logits[j] <= logits[top[p]])
      && (|top| > 0 ==> logits[top[0]] == Max(logits))
  {
    var logits := Logits(clf, img);
    var probs := Softmax(exp, logits);
    var order := Argsort(probs);
    RankFromCount(clf.labels, probs, order, topK);
    RankFromOrdered(clf.labels, probs, order, topK);
    TopIndicesRankByLogit(exp, logits, order, topK, |clf.labels|);
    LeadOfDominantSelection(logits, TopIndices(order, topK, |clf.labels|));
  }

  /** When every label is returned, the confidences sum to one. */
  lemma PredictAllConfidencesSumToOne(clf: VisionClassifier, exp: real -> real, img: Image, topK: int)
    requires IsRgbImage(img)
    requires IsExp(exp)
    requires 0 < |Logits(clf, img)| == |clf.labels| <= topK
    ensures Predict(clf, exp, img, topK).Ok?
    ensures Sum(Confidences(Predict(clf, exp, img, topK).value)) == 1.0
  {
    var probs := Softmax(exp, Logits(clf, img));
    RankFromKeepsTotal(clf.labels, probs, Argsort(probs), topK);
    SoftmaxSumsToOne(exp, Logits(clf, img));
  }

  /** The labels and logits the tests use: class 3, "cat", has the largest
      logit. */
  const SampleLabels: seq<string> := ["airplane", "automobile", "bird", "cat", "deer"]
  const MockLogits: seq<real> := [0.1, 0.2, 0.3, 5.0, 0.4]

  function MockSession(input: Tensor): seq<real>
  {
    MockLogits
  }

  /** With the test model, the default top_k of 5 returns all five labels,
      "cat" first, top_k = 2 returns two, and top_k = 0 returns none. */
  lemma MockPredictions(exp: real -> real, img: Image)
    requires IsRgbImage(img)
    requires IsExp(exp)
    ensures var clf := VisionClassifier(SampleLabels, MockSession);
      && Predict(clf, exp, img, 5).Ok?
      && |Predict(clf, exp, img, 5).value| == 5
      && Predict(clf, exp, img, 5).value[0].name == "cat"
      && Predict(clf, exp, img, 2).Ok? && |Predict(clf, exp, img, 2).value| == 2
      && Predict(clf, exp, img, 0) == Ok([])
  {
    var clf := VisionClassifier(SampleLabels, MockSession);
    assert Logits(clf, img) == MockLogits;
    PredictReturnsLabelledClasses(clf, exp, img, 5);
    PredictReturnsLabelledClasses(clf, exp, img, 2);
    PredictReturnsLabelledClasses(clf, exp, img, 0);
    PredictRanksByLogit(clf, exp, img, 5);
    var top := PredictedClasses(clf, exp, img, 5);
    assert MockLogits[top[0]] == Max(MockLogits);
    assert top[0] == 3;
  }
}
