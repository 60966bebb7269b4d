/**
  Zoom-region selection: the rubber-band rectangle drawn on the main stage
  in zoom-selection mode and the zoom viewport computed from it when the
  mouse is released.
*/
module Zoom {
  import opened Wrappers
  import opened Coords
  import opened Paths

  /** `Math.min` and `Math.max` on exact reals. */
  function Min(a: real, b: real): real { if a <= b then a else b }
  function Max(a: real, b: real): real { if a <= b then b else a }

  /** The selected rectangle, in main-stage pixels: its top-left corner and its width. */
  datatype Selection = Selection(left: real, top: real, width: real)

  /** The rectangle between the press point and the release point,
      whichever way the user dragged. */
  function Normalize(anchor: Pos, release: Pos): (s: Selection)
    ensures s.width >= 0.0
    ensures s.left <= anchor.x && s.left <= release.x
    ensures s.left == anchor.x || s.left == release.x
    ensures anchor.x <= s.left + s.width && release.x <= s.left + s.width
    ensures s.left + s.width == anchor.x || s.left + s.width == release.x
    ensures s.top <= anchor.y && s.top <= release.y
    ensures s.top == anchor.y || s.top == release.y
  {
    var minX := Min(anchor.x, release.x);
    var minY := Min(anchor.y, release.y);
    var maxX := Max(anchor.x, release.x);
    Selection(minX, minY, maxX - minX)
  }

  /** Swapping the press and release points selects the same rectangle. */
  lemma NormalizeSymmetric(a: Pos, b: Pos)
    ensures Normalize(a, b) == Normalize(b, a)
  {
  }

  /** The outline drawn while the selection is being dragged: from the
      anchor down (or up) to the pointer's row, across to the pointer,
      back to the anchor's row, and closed. */
  function Outline(anchor: Pos, pointer: Pos): seq<PathCmd>
  {
    [MoveTo(anchor.x, anchor.y), LineTo(anchor.x, pointer.y), LineTo(pointer.x, pointer.y),
     LineTo(pointer.x, anchor.y), Close]
  }

  /** The outline is the closed rectangle with the anchor and the pointer
      as opposite corners: it visits the four corners and draws four sides. */
  lemma OutlineIsRectangle(anchor: Pos, pointer: Pos)
    ensures Vertices(Outline(anchor, pointer)) ==
      [anchor, Pos(anchor.x, pointer.y), pointer, Pos(pointer.x, anchor.y)]
    ensures Segments(Outline(anchor, pointer)) == 4
  {
    var c0, c1, c2, c3 := MoveTo(anchor.x, anchor.y), LineTo(anchor.x, pointer.y),
                          LineTo(pointer.x, pointer.y), LineTo(pointer.x, anchor.y);
    assert Outline(anchor, pointer) == [c0] + [c1] + [c2] + [c3] + [Close];
    AppendOne([c0], c1);
    AppendOne([c0] + [c1], c2);
    AppendOne([c0] + [c1] + [c2], c3);
    AppendOne([c0] + [c1] + [c2] + [c3], Close);
  }

  /** The zoom viewport: the zoom image's rendered size in pixels and the
      (non-positive) margins that shift it under the zoom stage. */
  datatype Viewport = Viewport(width: int, height: int, left: real, top: real)

  /** Rendered zoom-image width: the zoom wrapper's width divided by the
      fraction of the main stage's width that was selected, rounded. */
  function ZoomWidth(widthRatio: real, wrapperWidth: real): int
    requires widthRatio != 0.0
  {
    Round(wrapperWidth / widthRatio)
  }

  /** Rendered zoom-image height: the zoom width divided by the rendered
      image's aspect ratio (width over height), rounded. */
  function ZoomHeight(zoomWidth: int, domWidth: real, domHeight: real): int
    requires domWidth > 0.0 && domHeight > 0.0
  {
    Round(zoomWidth as real / (domWidth / domHeight))
  }

  /** The viewport selected by `sel`, or None where the computation would
      divide by zero: an empty selection, or a zoom image rounded to zero
      pixels in either direction. */
  function SelectViewport(sel: Selection, stageWidth: real, stageHeight: real,
                          wrapperWidth: real, domWidth: real, domHeight: real): (r: Option<Viewport>)
    requires stageWidth > 0.0 && stageHeight > 0.0 && domWidth > 0.0 && domHeight > 0.0
    ensures sel.width == 0.0 ==> r.None?
    ensures r.Some? <==> sel.width != 0.0 && ZoomWidth(sel.width / stageWidth, wrapperWidth) != 0 &&
                         ZoomHeight(ZoomWidth(sel.width / stageWidth, wrapperWidth), domWidth, domHeight) != 0
    ensures r.Some? ==> r.value.width != 0 && r.value.height != 0
    ensures r.Some? ==> KeepsAspect(r.value.width, r.value.height, domWidth, domHeight)
    ensures r.Some? ==> ToZoom(sel.left / stageWidth, r.value.width, r.value.left) == 0.0
    ensures r.Some? ==> ToZoom(sel.top / stageHeight, r.value.height, r.value.top) == 0.0
  {
    var widthRatio := sel.width / stageWidth;
    if widthRatio == 0.0 then None
    else
      var w := ZoomWidth(widthRatio, wrapperWidth);
      var h := ZoomHeight(w, domWidth, domHeight);
      if w == 0 || h == 0 then None
      else
        var leftRatio := sel.left / stageWidth;
        var topRatio := sel.top / stageHeight;
        ZoomHeightKeepsAspect(w, domWidth, domHeight);
        Some(Viewport(w, h, -leftRatio * w as real, -topRatio * h as real))
  }

  /** The right edge of the selection lands on the right edge of the zoom
      wrapper, up to the rounding of the zoom width: within half a pixel
      scaled by the selected width fraction. */
  lemma SelectionFillsWrapper(sel: Selection, stageWidth: real, stageHeight: real,
                              wrapperWidth: real, domWidth: real, domHeight: real, v: Viewport)
    requires stageWidth > 0.0 && stageHeight > 0.0 && domWidth > 0.0 && domHeight > 0.0
    requires sel.width >= 0.0
    requires SelectViewport(sel, stageWidth, stageHeight, wrapperWidth, domWidth, domHeight) == Some(v)
    ensures var right := ToZoom((sel.left + sel.width) / stageWidth, v.width, v.left);
            var widthRatio := sel.width / stageWidth;
            wrapperWidth - widthRatio / 2.0 < right <= wrapperWidth + widthRatio / 2.0
  {
    var widthRatio := sel.width / stageWidth;
    var q := wrapperWidth / widthRatio;
    var w := v.width as real;
    assert w == Round(q) as real;
    calc {
      ToZoom((sel.left + sel.width) / stageWidth, v.width, v.left);
      w * ((sel.left + sel.width) / stageWidth) - (sel.left / stageWidth) * w;
      { assert (sel.left + sel.width) / stageWidth == sel.left / stageWidth + widthRatio; }
      w * widthRatio;
    }
    ScaledRounding(q, w, widthRatio, wrapperWidth);
  }

  /** A value within half a unit of `target / k`, scaled by a positive `k`,
      is within `k / 2` of `target`. */
  lemma ScaledRounding(q: real, w: real, k: real, target: real)
    requires k > 0.0 && q == target / k && q - 0.5 < w <= q + 0.5
    ensures target - k / 2.0 < w * k <= target + k / 2.0
  {
    var h := k / 2.0;
    var d := w - q;
    assert d * k <= h by { assert d * k <= 0.5 * k; }
    assert d * k > -h by { assert d * k > -0.5 * k; }
    assert q * k == target;
    assert d * k == w * k - target;
    ShiftWithin(d * k, w * k, target, h);
  }

  /** If `x - c` lies in `(-h, h]` then `x` lies in `(c - h, c + h]`. */
  lemma ShiftWithin(d: real, x: real, c: real, h: real)
    requires d == x - c && -h < d <= h
    ensures c - h < x <= c + h
  {
  }

  /** Bounds around `c` are bounds around anything equal to `c`. */
  lemma WithinOf(c: real, c': real, x: real, h: real)
    requires c == c' && c - h < x <= c + h
    ensures c' - h < x <= c' + h
  {
  }

  /** A `width` × `height` image has the proportions of a `domWidth` ×
      `domHeight` one, up to rounding of its height to whole pixels. */
  ghost predicate KeepsAspect(width: int, height: int, domWidth: real, domHeight: real)
    requires domWidth > 0.0
  {
    width as real * domHeight / domWidth - 0.5 < height as real <= width as real * domHeight / domWidth + 0.5
  }

  /** The zoom image keeps the rendered image's proportions, up to rounding
      of its height to whole pixels. */
  lemma ZoomHeightKeepsAspect(zoomWidth: int, domWidth: real, domHeight: real)
    requires domWidth > 0.0 && domHeight > 0.0
    ensures KeepsAspect(zoomWidth, ZoomHeight(zoomWidth, domWidth, domHeight), domWidth, domHeight)
  {
    var q := zoomWidth as real / (domWidth / domHeight);
    assert q == zoomWidth as real * domHeight / domWidth;
    WithinOf(q, zoomWidth as real * domHeight / domWidth, Round(q) as real, 0.5);
  }

  /** Half of an 800-pixel-wide stage shown in a 400-pixel-wide wrapper
      gives an 800-pixel-wide zoom image. */
  lemma HalfWidthSelectionDoublesScale()
    ensures SelectViewport(Selection(0.0, 0.0, 400.0), 800.0, 600.0, 400.0, 800.0, 600.0)
            == Some(Viewport(800, 600, 0.0, 0.0))
  {
    assert ZoomWidth(0.5, 400.0) == 800;
    assert ZoomHeight(800, 800.0, 600.0) == 600;
  }
}
