/**
 * The padded face crop shared by the three Python trackers: a detector box is
 * widened by a padding, clamped to the frame with `max(0, …)` / `min(size, …)`,
 * and cut out with a NumPy slice `frame[y1:y2, x1:x2]`.
 */
module FaceCrop {
  /** A detector box: top-left corner, width and height in pixels. */
  datatype Box = Box(x: int, y: int, w: int, h: int)

  /** The slice bounds `frame[y1:y2, x1:x2]`. */
  datatype Rect = Rect(y1: int, y2: int, x1: int, x2: int)

  /** The absolute value of a whole number, as Python's `abs`. */
  function Abs(n: int): nat { if n < 0 then -n else n }

  /** `int(size * percent / 100)` for a non-negative size, as floor division. */
  function Pad(size: nat, percent: nat): (p: nat)
    ensures p * 100 <= size * percent < p * 100 + 100
  {
    size * percent / 100
  }

  function Max(a: int, b: int): int { if a >= b then a else b }
  function Min(a: int, b: int): int { if a <= b then a else b }

  /** The box widened by `hPad` rows and `wPad` columns on each side, clamped to the frame. */
  function PaddedRect(b: Box, hPad: int, wPad: int, height: nat, width: nat): (r: Rect)
    ensures 0 <= r.y1 && r.y2 <= height && 0 <= r.x1 && r.x2 <= width
    ensures r.y1 == 0 || r.y1 == b.y - hPad
    ensures r.y2 == height || r.y2 == b.y + b.h + hPad
    ensures r.x1 == 0 || r.x1 == b.x - wPad
    ensures r.x2 == width || r.x2 == b.x + b.w + wPad
    ensures b.y - hPad <= r.y1 && r.y2 <= b.y + b.h + hPad && b.x - wPad <= r.x1 && r.x2 <= b.x + b.w + wPad
  {
    Rect(Max(0, b.y - hPad), Min(height, b.y + b.h + hPad),
         Max(0, b.x - wPad), Min(width, b.x + b.w + wPad))
  }

  /**
   * The crop cut around a face by `_trigger_emotion` and by the older
   * classifiers: `percent` % of the face height on all four sides, clamped.
   */
  function HeightPaddedCrop(b: Box, percent: nat, height: nat, width: nat): (r: Rect)
    requires b.h >= 0
    ensures 0 <= r.y1 && r.y2 <= height && 0 <= r.x1 && r.x2 <= width
    ensures var pad := Pad(b.h, percent);
            b.y - pad <= r.y1 && r.y2 <= b.y + b.h + pad && b.x - pad <= r.x1 && r.x2 <= b.x + b.w + pad
  {
    var pad := Pad(b.h, percent);
    PaddedRect(b, pad, pad, height, width)
  }

  /** Python's normalisation of one slice bound over a length-n axis (negative counts from the end). */
  function SliceBound(i: int, n: nat): (k: nat)
    ensures k <= n
    ensures 0 <= i <= n ==> k == i
  {
    if i < 0 then (if i + n < 0 then 0 else i + n)
    else if i > n then n
    else i
  }

  /** The length of `a[start:stop]` for an axis of length n. */
  function SliceLength(start: int, stop: int, n: nat): (len: nat)
    ensures len <= n
    ensures 0 <= start <= stop <= n ==> len == stop - start
  {
    var a := SliceBound(start, n);
    var b := SliceBound(stop, n);
    if b > a then b - a else 0
  }

  /** `crop.size > 0`: the cut-out has at least one row and one column. */
  predicate NonEmptyCrop(r: Rect, height: nat, width: nat)
  {
    SliceLength(r.y1, r.y2, height) > 0 && SliceLength(r.x1, r.x2, width) > 0
  }

  /** A box lying inside the frame gives a non-empty crop that contains it. */
  lemma CropCoversBox(b: Box, hPad: nat, wPad: nat, height: nat, width: nat)
    requires 0 <= b.x && 0 < b.w && b.x + b.w <= width
    requires 0 <= b.y && 0 < b.h && b.y + b.h <= height
    ensures var r := PaddedRect(b, hPad, wPad, height, width);
            NonEmptyCrop(r, height, width) && r.y1 <= b.y && b.y + b.h <= r.y2 && r.x1 <= b.x && b.x + b.w <= r.x2
  {
  }

  /** A box that starts below or right of the frame gives an empty crop. */
  lemma CropOutsideFrameIsEmpty(b: Box, hPad: nat, wPad: nat, height: nat, width: nat)
    requires b.y - hPad >= height && b.h >= 0
    ensures !NonEmptyCrop(PaddedRect(b, hPad, wPad, height, width), height, width)
  {
  }

  /**
   * Python slicing counts a negative stop from the end, so a box lying wholly
   * above the frame (stop = y + h + pad < 0) still cuts out rows of the frame.
   */
  lemma BoxAboveFrameStillCrops()
    ensures var r := PaddedRect(Box(100, -200, 100, 100), 10, 10, 480, 640);
            r == Rect(0, -90, 90, 210) && SliceLength(r.y1, r.y2, 480) == 390 && NonEmptyCrop(r, 480, 640)
  {
  }
}
