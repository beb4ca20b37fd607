/** `normalize_bbox` of src/utils/geometry.py: pixel coordinates scaled to the
    0..1000 grid the layout model reads, truncated toward zero and not clamped.
    The source divides floats; here the division is exact (rational), so float
    rounding is abstracted away. */
module Geometry {
  import opened PyValue

  /** `int(1000 * (c / dim))` */
  function ScaleCoord(c: real, dim: int): int
    requires dim > 0
  {
    Trunc(1000.0 * (c / dim as real))
  }

  /** `normalize_bbox(bbox, width, height)`: the x entries (0 and 2) are scaled by
      the width, the y entries (1 and 3) by the height, each on its own; entries
      past the fourth are ignored. */
  function NormalizeBBox(bbox: seq<real>, width: int, height: int): seq<int>
    requires |bbox| >= 4 && width > 0 && height > 0
  {
    [ScaleCoord(bbox[0], width), ScaleCoord(bbox[1], height),
     ScaleCoord(bbox[2], width), ScaleCoord(bbox[3], height)]
  }

  /** The exact quotient scaled to 1000ths, before truncation. */
  lemma ScaledValue(c: real, dim: int)
    requires dim > 0
    ensures 1000.0 * (c / dim as real) * (dim as real) == 1000.0 * c
  {
  }

  /** A coordinate inside the image lands in [0, 1000]; the image's edges land on 0 and 1000. */
  lemma ScaleCoordInRange(c: real, dim: int)
    requires dim > 0 && 0.0 <= c <= dim as real
    ensures 0 <= ScaleCoord(c, dim) <= 1000
  {
    var q := 1000.0 * (c / dim as real);
    ScaledValue(c, dim);
    assert (q - 1000.0) * (dim as real) <= 0.0;
    assert q * (dim as real) >= 0.0;
  }

  lemma ScaleCoordEdges(dim: int)
    requires dim > 0
    ensures ScaleCoord(0.0, dim) == 0
    ensures ScaleCoord(dim as real, dim) == 1000
  {
    assert (dim as real) / (dim as real) == 1.0;
  }

  /** Scaling preserves order. */
  lemma ScaleCoordMonotone(c1: real, c2: real, dim: int)
    requires dim > 0 && c1 <= c2
    ensures ScaleCoord(c1, dim) <= ScaleCoord(c2, dim)
  {
    var q1 := 1000.0 * (c1 / dim as real);
    var q2 := 1000.0 * (c2 / dim as real);
    ScaledValue(c1, dim);
    ScaledValue(c2, dim);
    assert (q2 - q1) * (dim as real) >= 0.0;
    assert q1 <= q2;
    TruncMonotone(q1, q2);
  }

  /** The scaled value is truncated toward zero, not floored: -1/3 of the width
      gives -333, where flooring would give -334. */
  lemma ScaleCoordTruncates()
    ensures ScaleCoord(-1.0, 3) == -333
  {
    assert 1000.0 * (-1.0 / 3.0) == -1000.0 / 3.0;
  }

  /** There is no clamping: a coordinate at twice the image size scales to 2000. */
  lemma ScaleCoordNotClamped(dim: int)
    requires dim > 0
    ensures ScaleCoord(2.0 * dim as real, dim) == 2000
  {
    assert (2.0 * dim as real) / dim as real == 2.0;
  }

  /** An ordered box stays ordered. */
  lemma NormalizeBBoxOrdered(bbox: seq<real>, width: int, height: int)
    requires |bbox| >= 4 && width > 0 && height > 0
    requires bbox[0] <= bbox[2] && bbox[1] <= bbox[3]
    ensures NormalizeBBox(bbox, width, height)[0] <= NormalizeBBox(bbox, width, height)[2]
    ensures NormalizeBBox(bbox, width, height)[1] <= NormalizeBBox(bbox, width, height)[3]
  {
    ScaleCoordMonotone(bbox[0], bbox[2], width);
    ScaleCoordMonotone(bbox[1], bbox[3], height);
  }

  /** A box inside the image scales into the 0..1000 grid. */
  lemma NormalizeBBoxInRange(bbox: seq<real>, width: int, height: int)
    requires |bbox| >= 4 && width > 0 && height > 0
    requires 0.0 <= bbox[0] <= width as real && 0.0 <= bbox[2] <= width as real
    requires 0.0 <= bbox[1] <= height as real && 0.0 <= bbox[3] <= height as real
    ensures forall k :: 0 <= k < 4 ==> 0 <= NormalizeBBox(bbox, width, height)[k] <= 1000
  {
    ScaleCoordInRange(bbox[0], width);
    ScaleCoordInRange(bbox[1], height);
    ScaleCoordInRange(bbox[2], width);
    ScaleCoordInRange(bbox[3], height);
  }
}
