/** `normalize_box` of src/utils.py: pixel coordinates scaled to the 0..1000 grid,
    clamped into it, and put in [x_min, y_min, x_max, y_max] order. Division is
    exact (rational); float rounding is abstracted away. */
module BoxUtils {
  import opened PyValue
  import Geometry

  function Min(a: int, b: int): int { if a <= b then a else b }

  function Max(a: int, b: int): int { if a <= b then b else a }

  /** `max(0, min(1000, v))` */
  function Clamp(v: int): (r: int)
    ensures 0 <= r <= 1000
    ensures 0 <= v <= 1000 ==> r == v
    ensures v < 0 ==> r == 0
    ensures v > 1000 ==> r == 1000
  {
    Max(0, Min(1000, v))
  }

  /** `int(c / dim * 1000)` */
  function Scale(c: real, dim: int): int
    requires dim > 0
  {
    Trunc(c / dim as real * 1000.0)
  }

  /** `normalize_box(box, width, height)` */
  function NormalizeBox(box: seq<real>, width: int, height: int): (r: seq<int>)
    requires |box| >= 4 && width > 0 && height > 0
    ensures |r| == 4
    ensures forall k :: 0 <= k < 4 ==> 0 <= r[k] <= 1000
    ensures r[0] <= r[2] && r[1] <= r[3]
  {
    var x1 := Clamp(Scale(box[0], width));
    var y1 := Clamp(Scale(box[1], height));
    var x2 := Clamp(Scale(box[2], width));
    var y2 := Clamp(Scale(box[3], height));
    [Min(x1, x2), Min(y1, y2), Max(x1, x2), Max(y1, y2)]
  }

  /** The x outputs are the two clamped x inputs and the y outputs the two clamped
      y inputs; x and y are never mixed. */
  lemma NormalizeBoxCoordinates(box: seq<real>, width: int, height: int)
    requires |box| >= 4 && width > 0 && height > 0
    ensures var r := NormalizeBox(box, width, height);
      {r[0], r[2]} == {Clamp(Scale(box[0], width)), Clamp(Scale(box[2], width))} &&
      {r[1], r[3]} == {Clamp(Scale(box[1], height)), Clamp(Scale(box[3], height))}
  {
  }

  /** Exchanging the two x coordinates, or the two y coordinates, changes nothing. */
  lemma NormalizeBoxSwapInvariant(box: seq<real>, width: int, height: int)
    requires |box| >= 4 && width > 0 && height > 0
    ensures NormalizeBox([box[2], box[1], box[0], box[3]], width, height) == NormalizeBox(box, width, height)
    ensures NormalizeBox([box[0], box[3], box[2], box[1]], width, height) == NormalizeBox(box, width, height)
  {
  }

  /** Both scalings in the source compute the same exact quotient. */
  lemma ScaleAgrees(c: real, dim: int)
    requires dim > 0
    ensures Scale(c, dim) == Geometry.ScaleCoord(c, dim)
  {
    assert c / dim as real * 1000.0 == 1000.0 * (c / dim as real);
  }

  /** For an ordered box inside the image, clamping and reordering do nothing:
      the result is plain truncated scaling. */
  lemma NormalizeBoxPlain(box: seq<real>, width: int, height: int)
    requires |box| >= 4 && width > 0 && height > 0
    requires 0.0 <= box[0] <= box[2] <= width as real
    requires 0.0 <= box[1] <= box[3] <= height as real
    ensures NormalizeBox(box, width, height) == Geometry.NormalizeBBox(box, width, height)
  {
    ScaleAgrees(box[0], width);
    ScaleAgrees(box[1], height);
    ScaleAgrees(box[2], width);
    ScaleAgrees(box[3], height);
    Geometry.NormalizeBBoxInRange(box, width, height);
    Geometry.NormalizeBBoxOrdered(box, width, height);
  }
}
