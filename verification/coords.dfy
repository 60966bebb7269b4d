/**
  The three coordinate spaces of the point mapper.

  A point is stored as a pair of ratios (fractions of the main stage's width
  and height). From a ratio the mapper derives a main-stage pixel
  (`dim * ratio`), a zoom-stage pixel (`size * ratio + offset`, where the
  zoom image is `size` pixels wide and shifted by `offset`) and a pixel of
  the original, natural-size image (`Math.round(ratio * dim)`). Coordinates
  are exact reals here, not IEEE doubles.
*/
module Coords {

  /** Radius of the diamond drawn for a marker: the drawing library reports a
      marker's position as the top-left of its bounding box, which lies
      `Radius` to the left of and above the marker's centre. */
  const Radius: real := 5.0

  /** JavaScript's `Math.round` on an exact real: the nearest integer, with
      halves going towards +infinity. */
  function Round(x: real): (r: int)
    ensures x - 0.5 < r as real <= x + 0.5
  {
    (x + 0.5).Floor
  }

  /** The bounds of `Round` leave no choice: it is the nearest integer. */
  lemma RoundIsNearest(x: real, n: int)
    requires x - 0.5 < n as real <= x + 0.5
    ensures n == Round(x)
  {
  }

  /** The original-image pixel of a ratio, for an original dimension `dim`. */
  function Original(ratio: real, dim: nat): (px: int)
    ensures ratio * dim as real - 0.5 < px as real <= ratio * dim as real + 0.5
  {
    Round(ratio * dim as real)
  }

  /** Ratio to main-stage pixel. */
  function ToStage(ratio: real, dim: real): real
  {
    dim * ratio
  }

  /** Main-stage pixel to ratio, as the main drag handler computes it. */
  function FromStage(px: real, dim: real): real
    requires dim != 0.0
  {
    px / dim
  }

  /** Ratio to zoom-stage pixel for a zoom image `size` pixels long shifted by `offset`. */
  function ToZoom(ratio: real, size: int, offset: real): real
  {
    size as real * ratio + offset
  }

  /** Zoom-stage pixel to ratio, as the zoom drag handler computes it. */
  function FromZoom(px: real, size: int, offset: real): real
    requires size != 0
  {
    (px - offset) / size as real
  }

  /** Centre of a marker whose bounding box starts at `reported`. */
  function Centre(reported: real): real
  {
    reported + Radius
  }

  /** Main-stage pixels and ratios convert into each other without loss. */
  lemma StageRoundTrip(ratio: real, px: real, dim: real)
    requires dim != 0.0
    ensures FromStage(ToStage(ratio, dim), dim) == ratio
    ensures ToStage(FromStage(px, dim), dim) == px
  {
  }

  /** Zoom-stage pixels and ratios convert into each other without loss,
      whatever the zoom image's offset, as long as its size is not zero. */
  lemma ZoomRoundTrip(ratio: real, px: real, size: int, offset: real)
    requires size != 0
    ensures FromZoom(ToZoom(ratio, size, offset), size, offset) == ratio
    ensures ToZoom(FromZoom(px, size, offset), size, offset) == px
  {
  }
}
