/**
  The point mapper: a list of points placed over an image, kept in step
  across the main stage, the zoom stage and the original image.

  Every point is stored as ratios of the main stage's size. The main
  markers, the main preview contour, the zoom markers and the zoom preview
  contour are all derived from those ratios; `Valid()` states that they
  agree with the points after every event the mapper handles.
*/
module PointMapper {
  import opened Wrappers
  import opened Coords
  import opened Paths
  import opened Zoom

  /** One placed point, as handed to the caller by `GetPointsData`. */
  datatype Point = Point(pointIndex: nat, xRatio: real, yRatio: real, originalX: int, originalY: int)

  /** The original-image pixel of a point is the rounding of its ratio
      times the original image's size. */
  ghost predicate Consistent(p: Point, originalWidth: nat, originalHeight: nat)
  {
    p.originalX == Original(p.xRatio, originalWidth) && p.originalY == Original(p.yRatio, originalHeight)
  }

  /** The point a click creates at position `index` of the list. */
  function Placed(index: nat, xRatio: real, yRatio: real, originalWidth: nat, originalHeight: nat): Point
  {
    Point(index, xRatio, yRatio, Original(xRatio, originalWidth), Original(yRatio, originalHeight))
  }

  /** A point after one of its markers was dragged to new ratios. */
  function Moved(p: Point, xRatio: real, yRatio: real, originalWidth: nat, originalHeight: nat): Point
  {
    p.(xRatio := xRatio, yRatio := yRatio,
       originalX := Original(xRatio, originalWidth), originalY := Original(yRatio, originalHeight))
  }

  /** Indices are dense and every original pixel matches its point's ratios. */
  ghost predicate PointsWellFormed(points: seq<Point>, originalWidth: nat, originalHeight: nat)
  {
    forall i :: 0 <= i < |points| ==> points[i].pointIndex == i && Consistent(points[i], originalWidth, originalHeight)
  }

  /** Where a point sits on the main stage. */
  function StagePos(p: Point, stageWidth: real, stageHeight: real): Pos
  {
    Pos(ToStage(p.xRatio, stageWidth), ToStage(p.yRatio, stageHeight))
  }

  /** Where a point sits on the zoom stage. */
  function ZoomPos(p: Point, v: Viewport): Pos
  {
    Pos(ToZoom(p.xRatio, v.width, v.left), ToZoom(p.yRatio, v.height, v.top))
  }

  function StagePositions(ps: seq<Point>, stageWidth: real, stageHeight: real): seq<Pos>
  {
    seq(|ps|, i requires 0 <= i < |ps| => StagePos(ps[i], stageWidth, stageHeight))
  }

  function ZoomPositions(ps: seq<Point>, v: Viewport): seq<Pos>
  {
    seq(|ps|, i requires 0 <= i < |ps| => ZoomPos(ps[i], v))
  }

  lemma StagePositionsUpdate(ps: seq<Point>, i: nat, p: Point, stageWidth: real, stageHeight: real)
    requires i < |ps|
    ensures StagePositions(ps[i := p], stageWidth, stageHeight)
            == StagePositions(ps, stageWidth, stageHeight)[i := StagePos(p, stageWidth, stageHeight)]
  {
  }

  lemma StagePositionsAppend(ps: seq<Point>, p: Point, stageWidth: real, stageHeight: real)
    ensures StagePositions(ps + [p], stageWidth, stageHeight)
            == StagePositions(ps, stageWidth, stageHeight) + [StagePos(p, stageWidth, stageHeight)]
  {
  }

  lemma ZoomPositionsUpdate(ps: seq<Point>, i: nat, p: Point, v: Viewport)
    requires i < |ps|
    ensures ZoomPositions(ps[i := p], v) == ZoomPositions(ps, v)[i := ZoomPos(p, v)]
  {
  }

  class Mapper {
    /** Size of the main stage (the drawing surface over the displayed image). */
    const stageWidth: real
    const stageHeight: real
    /** Natural size of the image. */
    const originalWidth: nat
    const originalHeight: nat
    /** Rendered size of the image in the page. */
    const domWidth: real
    const domHeight: real

    /** The placed points, in placement order. */
    var points: seq<Point>
    /** Centre of the main-stage marker of each point. */
    var mainMarkers: seq<Pos>
    /** Centre of the zoom-stage marker of each point; created lazily, never removed. */
    var zoomMarkers: seq<Pos>
    /** The dashed contour through the points on the main stage. */
    var previewContour: seq<PathCmd>
    /** The dashed contour through the points on the zoom stage. */
    var zoomPreview: seq<PathCmd>
    /** The rubber-band rectangle of a zoom selection in progress. */
    var selectionPath: seq<PathCmd>
    /** Placement mode when true, zoom-selection mode when false. */
    var addPoints: bool
    /** A zoom-selection drag is in progress. */
    var zooming: bool
    /** Where the zoom-selection drag started, if it has. */
    var anchor: Option<Pos>
    /** Size and offset of the zoom image, once a region has been selected. */
    var zoom: Option<Viewport>
    /** The zoom stage and its contour path have been created. */
    var zoomStageReady: bool

    /** The stage and the rendered image have a size. */
    ghost predicate SizesPositive()
    {
      stageWidth > 0.0 && stageHeight > 0.0 && domWidth > 0.0 && domHeight > 0.0
    }

    /** The mapper's invariant: indices are dense, every point's original
        pixel matches its ratios, and every marker and contour on both
        stages is where the points put it. */
    ghost predicate Valid()
      reads this
    {
      && SizesPositive()
      && PointsWellFormed(points, originalWidth, originalHeight)
      && (zooming ==> anchor.Some?)
      // the zoom stage is created with the first usable viewport
      && (zoomStageReady <==> zoom.Some?)
      && (zoom.Some? ==> zoom.value.width != 0 && zoom.value.height != 0)
      // each main marker sits at its point's main-stage position
      && mainMarkers == StagePositions(points, stageWidth, stageHeight)
      // one zoom marker per point once the zoom stage exists, none before
      && (if zoomStageReady then zoom.Some? && zoomMarkers == ZoomPositions(points, zoom.value)
          else zoomMarkers == [])
      // both contours run through the points in index order
      && previewContour == Contour(StagePositions(points, stageWidth, stageHeight))
      && (zoomStageReady ==> zoom.Some? && zoomPreview == Contour(ZoomPositions(points, zoom.value)))
    }

    /** The mapper once its image has loaded and the main stage is drawn:
        no points, placement mode on, no zoom region yet. */
    constructor (stageWidth: real, stageHeight: real, originalWidth: nat, originalHeight: nat,
                 domWidth: real, domHeight: real)
      requires stageWidth > 0.0 && stageHeight > 0.0 && domWidth > 0.0 && domHeight > 0.0
      ensures Valid()
      ensures this.stageWidth == stageWidth && this.stageHeight == stageHeight
      ensures this.originalWidth == originalWidth && this.originalHeight == originalHeight
      ensures this.domWidth == domWidth && this.domHeight == domHeight
      ensures points == [] && mainMarkers == [] && zoomMarkers == []
      ensures previewContour == [] && zoomPreview == [] && selectionPath == []
      ensures addPoints && !zooming && anchor.None? && zoom.None? && !zoomStageReady
    {
      this.stageWidth, this.stageHeight := stageWidth, stageHeight;
      this.originalWidth, this.originalHeight := originalWidth, originalHeight;
      this.domWidth, this.domHeight := domWidth, domHeight;
      points, mainMarkers, zoomMarkers := [], [], [];
      previewContour, zoomPreview, selectionPath := [], [], [];
      addPoints, zooming := true, false;
      anchor, zoom := None, None;
      zoomStageReady := false;
    }

    /** Switches between placement mode and zoom-selection mode; nothing else changes. */
    method SetMode(val: bool)
      requires Valid()
      modifies this`addPoints
      ensures Valid()
      ensures addPoints == val
    {
      addPoints := val;
    }

    /** The point list as the caller sees it: dense indices, original
        pixels matching the ratios. */
    method GetPointsData() returns (r: seq<Point>)
      requires Valid()
      ensures r == points
      ensures forall i :: 0 <= i < |r| ==> r[i].pointIndex == i
      ensures forall i :: 0 <= i < |r| ==>
                r[i].originalX == Round(r[i].xRatio * originalWidth as real) &&
                r[i].originalY == Round(r[i].yRatio * originalHeight as real)
    {
      r := points;
    }

    /** Redraws the main preview contour from the points. */
    method RefreshPreview()
      modifies this`previewContour
      ensures previewContour == Contour(StagePositions(points, stageWidth, stageHeight))
    {
      ghost var ps := StagePositions(points, stageWidth, stageHeight);
      previewContour := [];
      var i := 0;
      while i < |points|
        invariant 0 <= i <= |points|
        invariant |previewContour| == i
        invariant forall k :: 0 <= k < i ==> previewContour[k] == Step(ps, k)
      {
        var pos := StagePos(points[i], stageWidth, stageHeight);
        if i == 0 {
          previewContour := previewContour + [MoveTo(pos.x, pos.y)];
        } else {
          previewContour := previewContour + [LineTo(pos.x, pos.y)];
        }
        i := i + 1;
      }
      assert previewContour == Polyline(ps);
      if |points| > 2 {
        previewContour := previewContour + [Close];
      }
    }

    /** Creates the zoom stage and its contour path unless they already exist. */
    method InitZoomStage()
      modifies this`zoomStageReady, this`zoomPreview
      ensures zoomStageReady
      ensures old(zoomStageReady) ==> zoomPreview == old(zoomPreview)
      ensures !old(zoomStageReady) ==> zoomPreview == []
    {
      if !zoomStageReady {
        zoomStageReady := true;
        zoomPreview := [];
      }
    }

    /** Moves every existing main marker to its point's main-stage position;
        creates no marker and leaves the points alone. */
    method RefreshPoints()
      modifies this`mainMarkers
      ensures |mainMarkers| == |old(mainMarkers)|
      ensures forall i :: 0 <= i < |mainMarkers| ==>
                mainMarkers[i] == if i < |points| then StagePos(points[i], stageWidth, stageHeight)
                                  else old(mainMarkers)[i]
    {
      var i := 0;
      while i < |points|
        invariant 0 <= i <= |points|
        invariant |mainMarkers| == |old(mainMarkers)|
        invariant forall k :: 0 <= k < |mainMarkers| ==>
                    mainMarkers[k] == if k < i && k < |points| then StagePos(points[k], stageWidth, stageHeight)
                                      else old(mainMarkers)[k]
      {
        if i < |mainMarkers| {
          mainMarkers := mainMarkers[i := StagePos(points[i], stageWidth, stageHeight)];
        }
        i := i + 1;
      }
    }

    /** Redraws the zoom preview contour from the points, once the zoom stage exists. */
    method RefreshZoomPreview()
      requires zoomStageReady ==> zoom.Some?
      modifies this`zoomPreview
      ensures !zoomStageReady ==> zoomPreview == old(zoomPreview)
      ensures zoomStageReady ==> zoomPreview == Contour(ZoomPositions(points, zoom.value))
    {
      if zoomStageReady {
        var v := zoom.value;
        ghost var ps := ZoomPositions(points, v);
        zoomPreview := [];
        var i := 0;
        while i < |points|
          invariant 0 <= i <= |points|
          invariant |zoomPreview| == i
          invariant forall k :: 0 <= k < i ==> zoomPreview[k] == Step(ps, k)
        {
          var pos := ZoomPos(points[i], v);
          if i == 0 {
            zoomPreview := zoomPreview + [MoveTo(pos.x, pos.y)];
          } else {
            zoomPreview := zoomPreview + [LineTo(pos.x, pos.y)];
          }
          i := i + 1;
        }
        assert zoomPreview == Polyline(ps);
        if |points| > 2 {
          zoomPreview := zoomPreview + [Close];
        }
      }
    }

    /** Once the zoom stage exists, moves every existing zoom marker to its
        point's zoom-stage position and appends new markers until there is
        one per point; no marker is ever removed. */
    method RefreshZoomPoints()
      requires zoomStageReady ==> zoom.Some?
      modifies this`zoomMarkers
      ensures !zoomStageReady ==> zoomMarkers == old(zoomMarkers)
      ensures zoomStageReady ==>
                && |zoomMarkers| == (if |old(zoomMarkers)| < |points| then |points| else |old(zoomMarkers)|)
                && (forall i :: 0 <= i < |points| ==> zoomMarkers[i] == ZoomPos(points[i], zoom.value))
                && (forall i :: |points| <= i < |zoomMarkers| ==> zoomMarkers[i] == old(zoomMarkers)[i])
      ensures zoomStageReady && |old(zoomMarkers)| <= |points| ==> zoomMarkers == ZoomPositions(points, zoom.value)
    {
      if zoomStageReady {
        var v := zoom.value;
        var i := 0;
        while i < |points|
          invariant 0 <= i <= |points|
          invariant |zoomMarkers| == if |old(zoomMarkers)| < i then i else |old(zoomMarkers)|
          invariant forall k :: 0 <= k < i ==> zoomMarkers[k] == ZoomPos(points[k], v)
          invariant forall k :: i <= k < |zoomMarkers| ==> zoomMarkers[k] == old(zoomMarkers)[k]
        {
          var pos := ZoomPos(points[i], v);
          if i < |zoomMarkers| {
            zoomMarkers := zoomMarkers[i := pos];
          } else {
            zoomMarkers := zoomMarkers + [pos];
          }
          i := i + 1;
        }
        assert |old(zoomMarkers)| <= |points| ==> zoomMarkers == ZoomPositions(points, v);
      }
    }

    /** A click on the main stage at `(offsetX, offsetY)`. In placement mode
        it appends one point, with the next index and the click's ratios,
        and a marker at the click; otherwise it does nothing. */
    method Click(offsetX: real, offsetY: real)
      requires Valid()
      modifies this`points, this`mainMarkers, this`previewContour, this`zoomPreview, this`zoomMarkers
      ensures Valid()
      ensures !old(addPoints) ==> points == old(points) && mainMarkers == old(mainMarkers)
                                  && zoomMarkers == old(zoomMarkers) && previewContour == old(previewContour)
                                  && zoomPreview == old(zoomPreview)
      ensures old(addPoints) ==>
                && points == old(points) + [Placed(|old(points)|, offsetX / stageWidth, offsetY / stageHeight,
                                                   originalWidth, originalHeight)]
                && mainMarkers == old(mainMarkers) + [Pos(offsetX, offsetY)]
    {
      if addPoints {
        var xRatio := offsetX / stageWidth;
        var yRatio := offsetY / stageHeight;
        var p := Placed(|points|, xRatio, yRatio, originalWidth, originalHeight);
        StageRoundTrip(xRatio, offsetX, stageWidth);
        StageRoundTrip(yRatio, offsetY, stageHeight);
        assert StagePos(p, stageWidth, stageHeight) == Pos(offsetX, offsetY);
        StagePositionsAppend(points, p, stageWidth, stageHeight);
        points := points + [p];
        mainMarkers := mainMarkers + [Pos(offsetX, offsetY)];
        assert PointsWellFormed(points, originalWidth, originalHeight);
        RefreshPreview();
        RefreshZoomPreview();
        RefreshZoomPoints();
      }
    }

    /** Main marker `i` was dragged and the drawing library reports its
        bounding box at `(left, top)`. The point takes the ratios of the
        marker's centre; the contours and the zoom markers follow. */
    method DragMain(i: nat, left: real, top: real)
      requires Valid() && i < |mainMarkers|
      modifies this`points, this`mainMarkers, this`previewContour, this`zoomPreview, this`zoomMarkers
      ensures Valid()
      ensures points == old(points)[i := Moved(old(points)[i], Centre(left) / stageWidth, Centre(top) / stageHeight,
                                                originalWidth, originalHeight)]
      ensures mainMarkers == old(mainMarkers)[i := Pos(Centre(left), Centre(top))]
    {
      var x := Centre(left);
      var y := Centre(top);
      var xRatio := x / stageWidth;
      var yRatio := y / stageHeight;
      StageRoundTrip(xRatio, x, stageWidth);
      StageRoundTrip(yRatio, y, stageHeight);
      var p := Moved(points[i], xRatio, yRatio, originalWidth, originalHeight);
      assert StagePos(p, stageWidth, stageHeight) == Pos(x, y);
      StagePositionsUpdate(points, i, p, stageWidth, stageHeight);
      points := points[i := p];
      mainMarkers := mainMarkers[i := Pos(x, y)];
      assert PointsWellFormed(points, originalWidth, originalHeight);
      RefreshPreview();
      RefreshZoomPreview();
      RefreshZoomPoints();
    }

    /** Zoom marker `i` was dragged and the drawing library reports its
        bounding box at `(left, top)`. The point takes the ratios found by
        inverting the zoom viewport at the marker's centre; the contours and
        the main markers follow. */
    method DragZoom(i: nat, left: real, top: real)
      requires Valid() && i < |zoomMarkers|
      modifies this`points, this`mainMarkers, this`previewContour, this`zoomPreview, this`zoomMarkers
      ensures Valid()
      ensures zoom.Some?
      ensures points == old(points)[i := Moved(old(points)[i],
                                                FromZoom(Centre(left), zoom.value.width, zoom.value.left),
                                                FromZoom(Centre(top), zoom.value.height, zoom.value.top),
                                                originalWidth, originalHeight)]
      ensures zoomMarkers == old(zoomMarkers)[i := Pos(Centre(left), Centre(top))]
    {
      var v := zoom.value;
      var x := Centre(left);
      var y := Centre(top);
      var xRatio := (x - v.left) / v.width as real;
      var yRatio := (y - v.top) / v.height as real;
      ZoomRoundTrip(xRatio, x, v.width, v.left);
      ZoomRoundTrip(yRatio, y, v.height, v.top);
      var p := Moved(points[i], xRatio, yRatio, originalWidth, originalHeight);
      assert ZoomPos(p, v) == Pos(x, y);
      ZoomPositionsUpdate(points, i, p, v);
      points := points[i := p];
      zoomMarkers := zoomMarkers[i := Pos(x, y)];
      assert PointsWellFormed(points, originalWidth, originalHeight);
      RefreshPreview();
      RefreshPoints();
      RefreshZoomPreview();
    }

    /** Mouse pressed on the main stage: in zoom-selection mode a selection
        starts at `(offsetX, offsetY)`; in placement mode nothing happens. */
    method MouseDown(offsetX: real, offsetY: real)
      requires Valid()
      modifies this`zooming, this`anchor, this`selectionPath
      ensures Valid()
      ensures old(addPoints) ==> zooming == old(zooming) && anchor == old(anchor) && selectionPath == old(selectionPath)
      ensures !old(addPoints) ==> zooming && anchor == Some(Pos(offsetX, offsetY)) && selectionPath == []
    {
      if !addPoints {
        zooming := true;
        anchor := Some(Pos(offsetX, offsetY));
        selectionPath := [];
      }
    }

    /** Mouse moved over the main stage: while a selection is being dragged
        in zoom-selection mode, the rubber band spans the anchor and the pointer. */
    method MouseMove(offsetX: real, offsetY: real)
      requires Valid()
      modifies this`selectionPath
      ensures Valid()
      ensures !old(addPoints) && zooming ==> selectionPath == Outline(anchor.value, Pos(offsetX, offsetY))
      ensures old(addPoints) || !zooming ==> selectionPath == old(selectionPath)
    {
      if !addPoints {
        if zooming {
          selectionPath := Outline(anchor.value, Pos(offsetX, offsetY));
        }
      }
    }

    /** The viewport a mouse release at `release` selects, if the selection
        is not degenerate. */
    function Selected(release: Pos, wrapperWidth: real): Option<Viewport>
      requires SizesPositive()
      reads this`anchor
    {
      if anchor.None? then None
      else SelectViewport(Normalize(anchor.value, release), stageWidth, stageHeight, wrapperWidth,
                          domWidth, domHeight)
    }

    /** Mouse released over the main stage, with the zoom wrapper
        `wrapperWidth` pixels wide. In zoom-selection mode the selection
        ends: the rubber band and the anchor are cleared and, unless the
        selection is degenerate, the zoom viewport is replaced by the one it
        selects, the zoom stage is created if needed and the zoom contour
        and markers follow. In placement mode nothing happens. */
    method MouseUp(offsetX: real, offsetY: real, wrapperWidth: real)
      requires Valid()
      modifies this`zooming, this`anchor, this`selectionPath, this`zoom, this`zoomStageReady,
               this`zoomPreview, this`zoomMarkers
      ensures Valid()
      ensures old(addPoints) ==> zooming == old(zooming) && anchor == old(anchor) && selectionPath == old(selectionPath)
                                 && zoom == old(zoom) && zoomMarkers == old(zoomMarkers) && zoomPreview == old(zoomPreview)
      ensures !old(addPoints) ==> !zooming && anchor.None? && selectionPath == []
      ensures !old(addPoints) ==>
                var v := old(Selected(Pos(offsetX, offsetY), wrapperWidth));
                zoom == (if v.Some? then v else old(zoom))
      ensures old(zoomStageReady) ==> zoomStageReady
    {
      if !addPoints {
        zooming := false;
        var v := Selected(Pos(offsetX, offsetY), wrapperWidth);
        selectionPath := [];
        anchor := None;
        if v.Some? {
          zoom := v;
          InitZoomStage();
          RefreshZoomPreview();
          RefreshZoomPoints();
        }
      }
    }

    /** Main and zoom markers invert to their point's ratios: the three views agree. */
    lemma ViewsAgree(i: nat)
      requires Valid() && i < |points|
      ensures FromStage(mainMarkers[i].x, stageWidth) == points[i].xRatio
      ensures FromStage(mainMarkers[i].y, stageHeight) == points[i].yRatio
      ensures zoomStageReady ==>
                && FromZoom(zoomMarkers[i].x, zoom.value.width, zoom.value.left) == points[i].xRatio
                && FromZoom(zoomMarkers[i].y, zoom.value.height, zoom.value.top) == points[i].yRatio
    {
      StageRoundTrip(points[i].xRatio, mainMarkers[i].x, stageWidth);
      StageRoundTrip(points[i].yRatio, mainMarkers[i].y, stageHeight);
      if zoomStageReady {
        var v := zoom.value;
        ZoomRoundTrip(points[i].xRatio, zoomMarkers[i].x, v.width, v.left);
        ZoomRoundTrip(points[i].yRatio, zoomMarkers[i].y, v.height, v.top);
      }
    }
  }

  /** An 863 x 593 image shown at 400 x 275: a click at the stage's centre
      places point 0 at ratios (0.5, 0.5), original pixel (432, 297);
      dragging its marker to (100, 68.75) moves it to ratios (0.25, 0.25),
      original pixel (216, 148); toggling the mode leaves it alone. */
  method PlacementScenario()
  {
    var m := new Mapper(400.0, 275.0, 863, 593, 400.0, 275.0);
    m.Click(200.0, 137.5);
    assert Round(431.5) == 432 && Round(296.5) == 297;
    assert m.points == [Point(0, 0.5, 0.5, 432, 297)];
    m.DragMain(0, 95.0, 63.75);
    assert Round(215.75) == 216 && Round(148.25) == 148;
    assert m.points == [Point(0, 0.25, 0.25, 216, 148)];
    m.SetMode(false);
    m.SetMode(true);
    assert m.points == [Point(0, 0.25, 0.25, 216, 148)];
    assert m.mainMarkers == [Pos(100.0, 68.75)];
  }
}
