/**
 * The shift transform of the ACE ensemble: `ACE.pad_shape` turns a signed
 * offset into four zero-padding amounts, `nn.ZeroPad2d` pads, and a slice crops
 * the padded image back to its size. Together they translate an image by the
 * offset with zero fill.
 */
module Shift {
  import opened Images

  /** Pad amounts in `nn.ZeroPad2d` order: columns left and right, rows on top (up) and bottom (down). */
  datatype Padding = Padding(left: int, right: int, up: int, down: int)

  predicate NonNegative(p: Padding) {
    p.left >= 0 && p.right >= 0 && p.up >= 0 && p.down >= 0
  }

  /** Python's `int(b)`: the value a bool takes in integer arithmetic. */
  function BoolToInt(b: bool): int {
    if b then 1 else 0
  }

  /**
   * `ACE.pad_shape(x, y)`: each amount is the offset times a comparison, that is
   * `left = max(x, 0)`, `right = max(-x, 0)`, and the same for `up`/`down` from `y`.
   */
  function PadShape(x: int, y: int): (p: Padding)
    ensures NonNegative(p)
    ensures p.left - p.right == x && p.up - p.down == y
    ensures p.left == 0 || p.right == 0
    ensures p.up == 0 || p.down == 0
  {
    Padding(x * BoolToInt(x > 0), -x * BoolToInt(x < 0), y * BoolToInt(y > 0), -y * BoolToInt(y < 0))
  }

  /** The contract of PadShape determines its result: no other split of (x, y) has its properties. */
  lemma PadShapeUnique(x: int, y: int, p: Padding)
    requires NonNegative(p)
    requires p.left - p.right == x && p.up - p.down == y
    requires (p.left == 0 || p.right == 0) && (p.up == 0 || p.down == 0)
    ensures p == PadShape(x, y)
  {
  }

  lemma PadShapeOfZero()
    ensures PadShape(0, 0) == Padding(0, 0, 0, 0)
  {
  }

  /** One row of the padded image: `l` zeros, the row, `r` zeros. */
  function PadRow(row: seq<real>, l: nat, r: nat): (out: seq<real>)
    ensures |out| == l + |row| + r
    ensures forall j :: 0 <= j < |out| ==> out[j] == if l <= j < l + |row| then row[j - l] else 0.0
  {
    ZeroRow(l) + row + ZeroRow(r)
  }

  /** `nn.ZeroPad2d(padding=(l, r, u, d))`: `u` zero rows above, `d` below, `l` zero columns left, `r` right. */
  function ZeroPad(img: Image, p: Padding): (q: Image)
    requires IsRect(img) && NonNegative(p)
    ensures HasShape(q, p.up + |img| + p.down, p.left + Width(img) + p.right)
    ensures forall i, j :: 0 <= i < |q| && 0 <= j < p.left + Width(img) + p.right ==>
              q[i][j] == At(img, i - p.up, j - p.left)
  {
    var w := p.left + Width(img) + p.right;
    var middle := seq(|img|, i requires 0 <= i < |img| => PadRow(img[i], p.left, p.right));
    assert HasShape(middle, |img|, w);
    Zeros(p.up, w) + middle + Zeros(p.down, w)
  }

  /** The slice `q[r0:r1, c0:c1]` of the last two axes, with bounds inside the image. */
  function Crop(q: Image, r0: int, r1: int, c0: int, c1: int): (c: Image)
    requires 0 <= r0 <= r1 <= |q| && 0 <= c0 <= c1
    requires forall i :: r0 <= i < r1 ==> c1 <= |q[i]|
    ensures HasShape(c, r1 - r0, c1 - c0)
    ensures forall i, j :: 0 <= i < r1 - r0 && 0 <= j < c1 - c0 ==> c[i][j] == q[r0 + i][c0 + j]
  {
    seq(r1 - r0, i requires 0 <= i < r1 - r0 => q[r0 + i][c0..c1])
  }

  /**
   * The pad-then-crop of `ACE.forward`: pad by `pad_shape(dx, dy)`, then keep rows
   * `d:h-u` and columns `r:w-l` of the padded image. The result has the shape of
   * `img` and holds `img` moved `dx` columns right and `dy` rows down, zero where
   * that moved image does not reach.
   */
  function ShiftImage(img: Image, dx: int, dy: int): (s: Image)
    requires IsRect(img)
    ensures HasShape(s, |img|, Width(img))
    ensures forall i, j :: 0 <= i < |img| && 0 <= j < Width(img) ==> s[i][j] == At(img, i - dy, j - dx)
  {
    var p := PadShape(dx, dy);
    var q := ZeroPad(img, p);
    var h, w := |q|, p.left + Width(img) + p.right;
    var s := Crop(q, p.down, h - p.up, p.right, w - p.left);
    CropOfPadIsShift(img, p, q, s);
    s
  }

  lemma CropOfPadIsShift(img: Image, p: Padding, q: Image, s: Image)
    requires IsRect(img) && NonNegative(p)
    requires q == ZeroPad(img, p)
    requires s == Crop(q, p.down, |q| - p.up, p.right, p.left + Width(img) + p.right - p.left)
    ensures forall i, j :: 0 <= i < |img| && 0 <= j < Width(img) ==>
              s[i][j] == At(img, i + p.down - p.up, j + p.right - p.left)
  {
    forall i, j | 0 <= i < |img| && 0 <= j < Width(img)
      ensures s[i][j] == At(img, i + p.down - p.up, j + p.right - p.left)
    {
      assert s[i][j] == q[p.down + i][p.right + j];
    }
  }

  /** A shifted image is again rectangular, with the same width. */
  lemma ShiftIsRect(img: Image, dx: int, dy: int)
    requires IsRect(img)
    ensures IsRect(ShiftImage(img, dx, dy)) && Width(ShiftImage(img, dx, dy)) == Width(img)
  {
  }

  /** Shift (0, 0) is the identity. */
  lemma ShiftByZero(img: Image)
    requires IsRect(img)
    ensures ShiftImage(img, 0, 0) == img
  {
    var s := ShiftImage(img, 0, 0);
    forall i | 0 <= i < |img|
      ensures s[i] == img[i]
    {
      assert forall j :: 0 <= j < Width(img) ==> s[i][j] == img[i][j];
    }
  }

  /**
   * Shifting by (dx, dy) and then by (-dx, -dy) gives back every pixel whose
   * shifted position stays inside the image; the pixels that were pushed out are
   * lost and come back as zero.
   */
  lemma ShiftThenUnshift(img: Image, dx: int, dy: int)
    requires IsRect(img)
    ensures var t := ShiftImage(ShiftImage(img, dx, dy), -dx, -dy);
      HasShape(t, |img|, Width(img)) &&
      forall i, j :: 0 <= i < |img| && 0 <= j < Width(img) ==>
        t[i][j] == if 0 <= i + dy < |img| && 0 <= j + dx < Width(img) then img[i][j] else 0.0
  {
    var s := ShiftImage(img, dx, dy);
    ShiftIsRect(img, dx, dy);
    var t := ShiftImage(s, -dx, -dy);
    forall i, j | 0 <= i < |img| && 0 <= j < Width(img)
      ensures t[i][j] == if 0 <= i + dy < |img| && 0 <= j + dx < Width(img) then img[i][j] else 0.0
    {
      assert t[i][j] == At(s, i + dy, j + dx);
    }
  }
}
