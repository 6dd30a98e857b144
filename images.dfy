/**
 * A single image plane: the last two axes (height, width) of an N x C x H x W
 * tensor. Batch and channel axes are left out; every operation of the model acts
 * on these two axes only, pixel by pixel. Pixels are ideal reals.
 */
module Images {
  type Image = seq<seq<real>>

  /** Width of an image, read from its first row (an image with no rows has width 0). */
  function Width(img: Image): nat {
    if |img| == 0 then 0 else |img[0]|
  }

  /** `img` has `h` rows of `w` pixels each. */
  predicate HasShape(img: Image, h: nat, w: nat) {
    |img| == h && forall i :: 0 <= i < h ==> |img[i]| == w
  }

  /** Every row of `img` is as long as its first one. */
  predicate IsRect(img: Image) {
    HasShape(img, |img|, Width(img))
  }

  /** `a` and `b` have the same rows of the same lengths. */
  predicate SameShape(a: Image, b: Image) {
    |a| == |b| && forall i :: 0 <= i < |a| ==> |a[i]| == |b[i]|
  }

  /** The pixel at row `i`, column `j`, or zero outside the image. */
  function At(img: Image, i: int, j: int): real {
    if 0 <= i < |img| && 0 <= j < |img[i]| then img[i][j] else 0.0
  }

  function ZeroRow(n: nat): (z: seq<real>)
    ensures |z| == n && forall j :: 0 <= j < n ==> z[j] == 0.0
  {
    seq(n, _ => 0.0)
  }

  function Zeros(h: nat, w: nat): (z: Image)
    ensures HasShape(z, h, w)
    ensures forall i, j :: 0 <= i < h && 0 <= j < w ==> z[i][j] == 0.0
  {
    seq(h, _ => ZeroRow(w))
  }
}
