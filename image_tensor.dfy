/** `VisionClassifier._preprocess` after the image has been decoded,
    converted to RGB and resized to 224 x 224: scale to [0, 1], move the
    channel axis first, normalise each channel with the ImageNet statistics
    and add a batch axis. Values are exact reals. */
module ImageTensor {

  /** Side of the square image the classifier resizes to. */
  const Size: nat := 224
  const Channels: nat := 3

  /** ImageNet per-channel mean and standard deviation, in R, G, B order. */
  const Mean: seq<real> := [0.485, 0.456, 0.406]
  const Std: seq<real> := [0.229, 0.224, 0.225]

  /** Pixel intensities indexed [row][column][channel]. */
  type Image = seq<seq<seq<int>>>

  /** A three-axis array of reals. */
  type Grid = seq<seq<seq<real>>>

  /** The model input: a batch of channel-first grids, [n][c][h][w]. */
  type Tensor = seq<Grid>

  ghost predicate HasShape(g: Grid, d0: nat, d1: nat, d2: nat)
  {
    && |g| == d0
    && (forall i :: 0 <= i < d0 ==> |g[i]| == d1)
    && (forall i, j :: 0 <= i < d0 && 0 <= j < d1 ==> |g[i][j]| == d2)
  }

  /** What the decoding and resizing deliver: 224 x 224 RGB pixels with
      8-bit intensities. */
  ghost predicate IsRgbImage(img: Image)
  {
    && |img| == Size
    && (forall y :: 0 <= y < Size ==> |img[y]| == Size)
    && (forall y, x :: 0 <= y < Size && 0 <= x < Size ==> |img[y][x]| == Channels)
    && (forall y, x, c :: 0 <= y < Size && 0 <= x < Size && 0 <= c < Channels ==>
          0 <= img[y][x][c] <= 255)
  }

  /** `np.array(img, dtype=np.float32) / 255.0`. */
  function Scale(img: Image): (g: Grid)
    ensures |g| == |img|
    ensures forall y :: 0 <= y < |img| ==> |g[y]| == |img[y]|
    ensures forall y, x :: 0 <= y < |img| && 0 <= x < |img[y]| ==> |g[y][x]| == |img[y][x]|
    ensures forall y, x, c :: 0 <= y < |img| && 0 <= x < |img[y]| && 0 <= c < |img[y][x]| ==>
              g[y][x][c] * 255.0 == img[y][x][c] as real
  {
    seq(|img|, y requires 0 <= y < |img| =>
      seq(|img[y]|, x requires 0 <= x < |img[y]| =>
        seq(|img[y][x]|, c requires 0 <= c < |img[y][x]| => img[y][x][c] as real / 255.0)))
  }

  /** `arr.transpose(2, 0, 1)`: from [h][w][c] to [c][h][w]. */
  function ChannelsFirst(g: Grid, h: nat, w: nat, ch: nat): (t: Grid)
    requires HasShape(g, h, w, ch)
    ensures HasShape(t, ch, h, w)
    ensures forall c, y, x :: 0 <= c < ch && 0 <= y < h && 0 <= x < w ==> t[c][y][x] == g[y][x][c]
  {
    seq(ch, c requires 0 <= c < ch =>
      seq(h, y requires 0 <= y < h =>
        seq(w, x requires 0 <= x < w => g[y][x][c])))
  }

  /** The inverse transposition, from [c][h][w] back to [h][w][c]. */
  function ChannelsLast(t: Grid, ch: nat, h: nat, w: nat): Grid
    requires HasShape(t, ch, h, w)
  {
    seq(h, y requires 0 <= y < h =>
      seq(w, x requires 0 <= x < w =>
        seq(ch, c requires 0 <= c < ch => t[c][y][x])))
  }

  /** `(v - mean[c]) / std[c]` for one value of channel c. */
  function NormalizeValue(v: real, c: nat): real
    requires c < Channels
  {
    (v - Mean[c]) / Std[c]
  }

  /** `(arr - self._mean) / self._std`, broadcast over each channel. */
  function Normalize(t: Grid): (n: Grid)
    requires |t| == Channels
    ensures |n| == Channels
    ensures forall c :: 0 <= c < Channels ==> |n[c]| == |t[c]|
    ensures forall c, y :: 0 <= c < Channels && 0 <= y < |t[c]| ==> |n[c][y]| == |t[c][y]|
    ensures forall c, y, x :: 0 <= c < Channels && 0 <= y < |t[c]| && 0 <= x < |t[c][y]| ==>
              n[c][y][x] * Std[c] + Mean[c] == t[c][y][x]
  {
    seq(Channels, c requires 0 <= c < Channels =>
      seq(|t[c]|, y requires 0 <= y < |t[c]| =>
        seq(|t[c][y]|, x requires 0 <= x < |t[c][y]| => NormalizeValue(t[c][y][x], c))))
  }

  /** Undoes `Normalize`: `v * std[c] + mean[c]`. */
  function Denormalize(t: Grid): Grid
    requires |t| == Channels
  {
    seq(Channels, c requires 0 <= c < Channels =>
      seq(|t[c]|, y requires 0 <= y < |t[c]| =>
        seq(|t[c][y]|, x requires 0 <= x < |t[c][y]| => t[c][y][x] * Std[c] + Mean[c])))
  }

  /** The model input for a decoded image: shape 1 x 3 x 224 x 224, and the
      element at [0][c][y][x] is the intensity of channel c at row y,
      column x, scaled to [0, 1] and normalised with channel c's statistics. */
  function Preprocess(img: Image): (out: Tensor)
    requires IsRgbImage(img)
    ensures |out| == 1 && HasShape(out[0], Channels, Size, Size)
    ensures forall c, y, x :: 0 <= c < Channels && 0 <= y < Size && 0 <= x < Size ==>
              out[0][c][y][x] == (img[y][x][c] as real / 255.0 - Mean[c]) / Std[c]
  {
    var scaled := Scale(img);
    assert HasShape(scaled, Size, Size, Channels);
    [Normalize(ChannelsFirst(scaled, Size, Size, Channels))]
  }

  /** Scaling maps every 8-bit intensity into [0, 1]. */
  lemma ScaleInUnitInterval(img: Image)
    requires IsRgbImage(img)
    ensures HasShape(Scale(img), Size, Size, Channels)
    ensures forall y, x, c :: 0 <= y < Size && 0 <= x < Size && 0 <= c < Channels ==>
              0.0 <= Scale(img)[y][x][c] <= 1.0
  {
  }

  /** The two transpositions are inverse to each other, in both orders. */
  lemma TransposeRoundTrip(g: Grid, t: Grid, h: nat, w: nat, ch: nat)
    requires HasShape(g, h, w, ch) && HasShape(t, ch, h, w)
    ensures HasShape(ChannelsFirst(g, h, w, ch), ch, h, w)
    ensures ChannelsLast(ChannelsFirst(g, h, w, ch), ch, h, w) == g
    ensures HasShape(ChannelsLast(t, ch, h, w), h, w, ch)
    ensures ChannelsFirst(ChannelsLast(t, ch, h, w), h, w, ch) == t
  {
    var f := ChannelsFirst(g, h, w, ch);
    var back := ChannelsLast(f, ch, h, w);
    forall y | 0 <= y < h ensures back[y] == g[y] {
      forall x | 0 <= x < w ensures back[y][x] == g[y][x] {
        assert back[y][x] == seq(ch, c requires 0 <= c < ch => g[y][x][c]);
      }
    }
    var l := ChannelsLast(t, ch, h, w);
    var fwd := ChannelsFirst(l, h, w, ch);
    forall c | 0 <= c < ch ensures fwd[c] == t[c] {
      forall y | 0 <= y < h ensures fwd[c][y] == t[c][y] {
        assert fwd[c][y] == seq(w, x requires 0 <= x < w => t[c][y][x]);
      }
    }
  }

  /** Normalisation loses nothing: denormalising gives the input back. */
  lemma NormalizeRoundTrip(t: Grid)
    requires |t| == Channels
    ensures Denormalize(Normalize(t)) == t
  {
    var back := Denormalize(Normalize(t));
    forall c | 0 <= c < Channels ensures back[c] == t[c] {
      forall y | 0 <= y < |t[c]| ensures back[c][y] == t[c][y] {
        forall x | 0 <= x < |t[c][y]| ensures back[c][y][x] == t[c][y][x] {
          assert NormalizeValue(t[c][y][x], c) * Std[c] == t[c][y][x] - Mean[c];
        }
      }
    }
  }

  /** An element of the model input is negative exactly when its intensity
      is below 255 times its channel's mean; so intensity 0 always gives a
      negative value and intensity 255 a positive one, in every channel. */
  lemma PreprocessSign(img: Image, c: int, y: int, x: int)
    requires IsRgbImage(img)
    requires 0 <= c < Channels && 0 <= y < Size && 0 <= x < Size
    ensures Preprocess(img)[0][c][y][x] < 0.0 <==> (img[y][x][c] as real) < 255.0 * Mean[c]
    ensures img[y][x][c] == 0 ==> Preprocess(img)[0][c][y][x] < 0.0
    ensures img[y][x][c] == 255 ==> 0.0 < Preprocess(img)[0][c][y][x]
  {
  }

  /** An image of the uniform colour (100, 149, 237), the one the tests
      use, yields both negative values (its red channel lies below the red
      mean) and positive ones (its blue channel lies above the blue mean). */
  lemma UniformImageHasBothSigns(img: Image)
    requires IsRgbImage(img)
    requires forall y, x :: 0 <= y < Size && 0 <= x < Size ==> img[y][x] == [100, 149, 237]
    ensures Preprocess(img)[0][0][0][0] < 0.0 < Preprocess(img)[0][2][0][0]
  {
    PreprocessSign(img, 0, 0, 0);
    PreprocessSign(img, 2, 0, 0);
  }
}
