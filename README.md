# VisionSense classifier core in Dafny

This project models `VisionClassifier` from `src/classifier.py`. That class
sits behind the lite VisionSense image-classification API. The model covers
its two pieces of logic:

- **Input tensor** (`_preprocess`): a decoded 224 x 224 RGB image is scaled
  to [0, 1], transposed from height-width-channel to channel-height-width,
  normalised per channel with the ImageNet mean and standard deviation, and
  given a batch axis. Module `ImageTensor`, file `image_tensor.dfy`.
- **Top-K ranking** (`predict`): the logits go through a max-shifted
  softmax, `top_k` is clamped to the number of labels, the classes are
  ordered by `np.argsort(probs)[::-1][:top_k]`, and each selected class
  becomes a `{label, confidence}` item. Modules `Numerics`, `Probabilities`
  and `Ranking`, and `Classifier` for `predict` as a whole.

The source is pure: `predict` and `_preprocess` are pipelines of vectorised
calls with no loops and no in-place updates. The constructor fixes the
labels, the model session and the normalisation constants once and never
changes them. So the model consists of datatypes, functions and lemmas.
`VisionClassifier` is a datatype that holds the label catalogue and the model
session. The session is a function from the input tensor to the logits.
`_mean` and `_std` are the same constants for every instance, so they are
module constants (`ImageTensor.Mean`, `ImageTensor.Std`).

Modelling decisions:

- **Exponential.** `np.exp` is a parameter `exp: real -> real` that must
  satisfy `IsExp`: it is positive and strictly increasing. Those two facts are
  all the softmax properties need.
- **`top_k`.** `predict` raises nothing for any `top_k`. It clamps `top_k` to
  the number of labels, returns `[]` for `top_k = 0`, and for a negative
  `top_k` keeps `max(0, n + top_k)` items, as a Python slice does.
- **Ties.** `np.argsort` defaults to an unstable sort, so the order of equal
  probabilities is left to NumPy. `Ranking.IsArgsort` describes every
  permissible argsort result. `RankFrom` and all the ranking lemmas hold for
  each such result, and so do `Classifier.TopIndicesRankByLogit` and
  `Classifier.LeadOfDominantSelection`. `Ranking.Argsort` is one concrete
  permissible result (insertion by index), and `Predict` uses it.
- **Errors.** The constructor raises `FileNotFoundError` for a missing model
  file, and otherwise for a missing labels file (`ModelNotFound`,
  `LabelsNotFound`). The model keeps the two errors `predict` can raise on
  its own:
  - `logits.max()` on an empty logit vector (`EmptyLogits`);
  - `self.labels[idx]` when the model scores more classes than there are
    labels and selects one of the extra classes (`LabelIndexError`).

  When the model scores at least one class and no more classes than there
  are labels, `predict` never fails, whatever `top_k` is.

## Model

| member | source | states |
|---|---|---|
| `Classifier.NewClassifier` | src/classifier.py:9-46 | given that the model loads and the labels parse, `VisionClassifier(...)` succeeds if and only if both existence checks pass; a missing model file is reported first, then a missing labels file; a built classifier holds the labels it was given |
| `Numerics.Max` | src/classifier.py:61 | `logits.max()` of a non-empty vector is one of its elements, and no element exceeds it |
| `Numerics.SumOfPositives` | src/classifier.py:62 | `exp.sum()` of positive terms is positive and at least each term |
| `Numerics.SumDivided` | src/classifier.py:62 | dividing every term by a non-zero `d` divides the sum by `d` |
| `Probabilities.ShiftedExps` | src/classifier.py:61 | `np.exp(logits - logits.max())` has one positive term per logit, and none exceeds `exp(0)` |
| `Probabilities.Normalized` | src/classifier.py:62 | `exp / exp.sum()` has one entry per term, and entry i times the sum gives back term i |
| `Probabilities.FractionsOfSum` | src/classifier.py:62 | for positive terms the sum is positive and each normalised entry lies in (0, 1] |
| `Probabilities.NormalizedSumsToOne` | src/classifier.py:62 | the normalised entries add up to exactly 1 |
| `Probabilities.Softmax` | src/classifier.py:60-62 | the probability vector has one entry per logit, and each entry lies in (0, 1] |
| `Probabilities.SoftmaxSumsToOne` | src/classifier.py:61-62 | the probabilities add up to exactly 1 |
| `Probabilities.SoftmaxPreservesOrder` | src/classifier.py:60-62 | `probs[i] <= probs[j]` if and only if `logits[i] <= logits[j]`, so ranking by probability is ranking by logit |
| `Probabilities.SoftmaxArgmax` | src/classifier.py:60-62 | a class has the largest probability if and only if it has the largest logit |
| `Ranking.Argsort` | src/classifier.py:65 | gives a permissible `np.argsort`: every index exactly once, in ascending order of probability |
| `Ranking.ReverseIsInvolutivePermutation` | src/classifier.py:65 | `[::-1]` applied twice gives the sequence back, and it turns a permutation of the class indices into another one |
| `Ranking.SliceStop` | src/classifier.py:65 | `s[:stop]` never keeps more than the n items there are |
| `Ranking.SliceStopKeeps` | src/classifier.py:65 | position p survives `s[:stop]` if and only if p is before `stop`, where a negative `stop` counts from the end |
| `Ranking.TopIndices` | src/classifier.py:64-65 | the p-th selected index is the p-th from the end of the argsort; a non-negative `top_k` selects at most `top_k` indices and at most one per label |
| `Ranking.RankFrom` | src/classifier.py:64-70 | for any permissible argsort, item p is `{labels[idx], probs[idx]}` for the p-th selected index `idx`; the only failure is the label lookup; it can happen only when there are fewer labels than probabilities, and never when there are at least as many |
| `Ranking.Rank` | src/classifier.py:64-70 | with one probability per label, ranking succeeds with the slice-semantics count of items, and the returned confidences are non-increasing |
| `Ranking.TopIndicesAreDistinctClasses` | src/classifier.py:64-65 | the selected indices are pairwise distinct and in range; their number follows slice semantics on the clamped `top_k`; all classes are selected when `top_k` is at least the class count |
| `Ranking.TopIndicesDescending` | src/classifier.py:65 | the selected probabilities are non-increasing from first to last, for every permissible argsort |
| `Ranking.TopIndicesDominate` | src/classifier.py:65 | top-k dominance: no unselected class has a larger probability than any selected class |
| `Ranking.SumOfPermutation` | src/classifier.py:65 | visiting every class exactly once, in any order, gives the same total probability |
| `Ranking.RankFromCount` | src/classifier.py:64-70 | with one class per label, ranking succeeds for every `top_k` and returns `min(top_k, n)` or `max(0, n + top_k)` items |
| `Ranking.RankFromOrdered` | src/classifier.py:65-70 | the returned confidences are non-increasing, and every class left out has a probability no larger than each returned confidence |
| `Ranking.RankFromKeepsTotal` | src/classifier.py:62-70 | when every class is returned, the confidences add up to the total probability |
| `ImageTensor.Scale` | src/classifier.py:50 | dividing by 255 keeps the 224 x 224 x 3 shape, and each scaled value times 255 is the original intensity |
| `ImageTensor.ChannelsFirst` | src/classifier.py:51 | `transpose(2, 0, 1)` turns an H x W x C grid into a C x H x W tensor, moving element `[y][x][c]` to `[c][y][x]` |
| `ImageTensor.Normalize` | src/classifier.py:52 | the result has 3 channels and the input's shape, and each value times `Std[c]` plus `Mean[c]` is the input value |
| `ImageTensor.Preprocess` | src/classifier.py:48-53 | the output has shape 1 x 3 x 224 x 224, and `out[0][c][y][x] == (img[y][x][c] / 255 - Mean[c]) / Std[c]` |
| `ImageTensor.ScaleInUnitInterval` | src/classifier.py:50 | dividing by 255 maps every 8-bit intensity into [0, 1] and keeps the 224 x 224 x 3 shape |
| `ImageTensor.TransposeRoundTrip` | src/classifier.py:51 | HWC-to-CHW and CHW-to-HWC are inverse to each other in both orders, so the transposition loses and invents nothing |
| `ImageTensor.NormalizeRoundTrip` | src/classifier.py:52 | the per-channel normalisation can be undone exactly |
| `ImageTensor.PreprocessSign` | src/classifier.py:45-52 | an element is negative if and only if its intensity is below 255 times its channel mean, so intensity 0 gives a negative value and 255 a positive one in every channel |
| `ImageTensor.UniformImageHasBothSigns` | tests/test_classifier.py:123-131 | the uniform colour (100, 149, 237) yields both a negative and a positive element |
| `Classifier.Predict` | src/classifier.py:55-70 | the logits are the session's output on the preprocessed image (`Classifier.Logits`); `predict` fails with `EmptyLogits` if and only if there are no logits; with at least one logit and no more logits than labels it succeeds; a label-lookup failure needs more logits than labels |
| `Classifier.PredictReturnsLabelledClasses` | src/classifier.py:64-70 | with one class per label, `predict` never fails; it returns the slice-semantics count of items; each item is the label and probability of a distinct in-range class, with a confidence in (0, 1] |
| `Classifier.TopIndicesRankByLogit` | src/classifier.py:60-65 | for every permissible argsort of the probabilities, the selected logits are non-increasing and no unselected class has a larger logit than a selected one |
| `Classifier.LeadOfDominantSelection` | src/classifier.py:65 | a selection in descending logit order that no unselected class beats starts with the largest logit, whichever order ties take |
| `Classifier.PredictRanksByLogit` | src/classifier.py:60-65 | confidences are non-increasing; selected logits are non-increasing; every unselected class has a logit no larger than any selected one; the first item has the maximum logit |
| `Classifier.PredictAllConfidencesSumToOne` | tests/test_classifier.py:182-185 | when all labels are returned, the confidences sum to 1 |
| `Classifier.MockPredictions` | tests/test_classifier.py:142-174 | with the test labels and logits, `top_k = 5` returns five items with "cat" first, `top_k = 2` returns two, and `top_k = 0` returns none |

## Left out

- Reading the image file, PIL decoding, RGB conversion and the bilinear
  resize (src/classifier.py:49) are image-codec work. The model's input is
  the 224 x 224 x 3 grid of intensities in [0, 255] that they produce.
- The ONNX runtime forward pass (src/classifier.py:36-39, 58) is foreign
  code. It is the `session` field, an arbitrary function from the input
  tensor to the logits of the first output's first batch row. Nothing about
  it is assumed beyond what each lemma requires of the logit count.
- float32 storage, the accuracy of `np.exp` and `round(..., 4)` on the
  confidence (src/classifier.py:50-52, 61-62, 68) are floating-point details.
  All arithmetic is exact over the reals. The ImageNet constants are their
  decimal values, not their float32 roundings.
- `Classifier.Predict`: the confidence is the exact probability, without
  rounding to 4 decimals, so its rounding is not modelled.
- `Classifier.Predict`: it uses the one concrete argsort `Ranking.Argsort`.
  The order NumPy gives to tied probabilities is captured by the lemmas about
  `Ranking.RankFrom`, `Classifier.TopIndicesRankByLogit` and
  `Classifier.LeadOfDominantSelection`, which hold for every permissible
  argsort.
- `Classifier.NewClassifier`: its `session` and `labels` parameters stand for
  a successful `ort.InferenceSession` load and a successful `json.load`
  (src/classifier.py:36-42). The exceptions those two steps raise for a file
  that is not a loadable ONNX model, a labels path that is a directory or
  malformed JSON are not modelled, so its success means only that both
  existence checks pass.
- The constructor's file-existence checks are the two boolean parameters of
  `Classifier.NewClassifier`; the error messages are not modelled. The
  `json.load` of the labels, `input_name` and the constant `device = "cpu"`
  (src/classifier.py:33-42) are filesystem I/O or plain attributes. The
  labels are a given `seq<string>`.
- src/export_onnx.py builds the PyTorch model, loads weights and writes the
  ONNX and JSON files. It is foreign library calls and file I/O.
- The HTTP routes, the dashboard and the prediction log that
  tests/test_app.py exercises live in `app.py`. app.py is not part of this
  model.
