# Mapper: point placement over an image, in Dafny

A model of the `Mapper` component of nymphly/Mapper (`js/mapper.js`). The
component lets a user place an ordered list of points over an image, drag
them on a main stage or on a magnified zoom stage, and read them back.
Each point is stored as ratios of the main stage's size. Three coordinate
spaces are derived from those ratios:

- main-stage pixels: `stageWidth * ratio`;
- zoom-stage pixels: `zoomImgWidth * ratio + zoomImgLeftOffset`;
- original-image pixels: `Math.round(ratio * naturalWidth)`.

The model keeps the drawing library's objects as plain data. A path is
the sequence of `MoveTo`, `LineTo` and `Close` commands issued on it since
its last `clear()`. A marker is its centre position. Coordinates are exact
reals. `Math.round(x)` is `(x + 1/2).Floor`.

Modules:

- `Coords` (`coords.dfy`): rounding, and the ratio-to-pixel maps with their inverses.
- `Paths` (`paths.dfy`): positions, path commands, the contour and the positions a path visits.
- `Zoom` (`zoom.dfy`): normalising the rubber-band selection, the rectangle outline, and computing the zoom viewport.
- `PointMapper` (`mapper.dfy`): the `Point` record and the `Mapper` class.
- `Wrappers` (`wrappers.dfy`): `Option`.

`Mapper` has one field per piece of state the source updates in place:

- the point list;
- the centres of the main markers and of the zoom markers;
- the two preview contours and the selection outline;
- the two mode flags and the selection anchor;
- the zoom viewport and whether the zoom stage exists.

Its listeners and refreshers are methods with `modifies` clauses. The
four refreshers build their result with a loop, as the source does.
`Mapper.Valid()` is the invariant that every listener keeps. It says:

- indices are dense;
- every original pixel is the rounding of its ratio times the natural size;
- every main marker sits at its point's stage position;
- once the zoom stage exists, there is exactly one zoom marker per point, at the point's zoom position;
- both contours run through the points in index order.

`PointMapper.PlacementScenario` replays a worked example as a client of
these contracts. The image is 863 × 593, shown at 400 × 275. A click at
(200, 137.5) gives ratios (0.5, 0.5) and original pixel (432, 297). A drag
to (100, 68.75) gives ratios (0.25, 0.25) and original pixel (216, 148).

## Model

| member | source | states |
|---|---|---|
| `Coords.Round` | js/mapper.js:222-223 | `Math.round`: the result is the one integer in (x − ½, x + ½], i.e. the nearest integer, with halves rounded up |
| `Coords.RoundIsNearest` | js/mapper.js:222-223 | any integer in (x − ½, x + ½] equals `Round(x)`, so the rounding is uniquely determined |
| `Coords.Original` | js/mapper.js:222-223 | a ratio's original-image pixel lies within half a pixel of ratio × natural dimension |
| `Coords.StageRoundTrip` | js/mapper.js:236-240 | for a nonzero stage size, ratio → stage pixel → ratio and stage pixel → ratio → stage pixel are both the identity |
| `Coords.ZoomRoundTrip` | js/mapper.js:441-445 | for a nonzero zoom size and any offset, ratio → zoom pixel → ratio and zoom pixel → ratio → zoom pixel are both the identity |
| `Paths.ContourShape` | js/mapper.js:343-357 | the contour moves to point 0, draws a line to each later point, and ends in a close if and only if there are more than 2 points; its length is n, or n + 1 when closed |
| `Paths.ContourVisitsInOrder` | js/mapper.js:345-354 | the positions the contour visits are exactly the input positions, in index order (reading the contour back inverts drawing it) |
| `Paths.ContourSegments` | js/mapper.js:355-356 | a contour through n points draws n − 1 segments when n ≤ 2 (no segment for 0 or 1 point) and n segments when n ≥ 3 |
| `Zoom.Normalize` | js/mapper.js:286-290 | the selection starts at the smaller X and Y of anchor and release; its width is at least 0 and its right edge is the larger X |
| `Zoom.NormalizeSymmetric` | js/mapper.js:286-288 | swapping the anchor and the release point selects the same rectangle |
| `Zoom.OutlineIsRectangle` | js/mapper.js:331-337 | the rubber band visits the four corners spanned by anchor and pointer and draws four sides |
| `Zoom.SelectViewport` | js/mapper.js:290-302 | a viewport is produced exactly when the selection has nonzero width and the rounded zoom width and height are both nonzero (so a zero-width selection yields none); a produced viewport has a nonzero size, its height keeps the rendered image's aspect ratio to within half a pixel, and it maps the selection's top-left corner to zoom pixel (0, 0) |
| `Zoom.SelectionFillsWrapper` | js/mapper.js:291-301 | the selection's right edge lands within widthRatio / 2 pixels of the zoom wrapper's width, so the selection fills the wrapper up to rounding |
| `Zoom.ZoomHeightKeepsAspect` | js/mapper.js:293-296 | the zoom height lies within half a pixel of zoomWidth × domHeight / domWidth, so the rendered image's proportions are kept |
| `Zoom.HalfWidthSelectionDoublesScale` | js/mapper.js:290-302 | selecting half of an 800-pixel stage, with a 400-pixel wrapper, gives an 800-pixel zoom image with zero offsets |
| `PointMapper.Mapper.constructor` | js/mapper.js:97-146 | the mapper starts with no points, markers or contours, in placement mode, not zooming, with no zoom viewport or zoom stage, and satisfies `Valid()` |
| `PointMapper.Mapper.SetMode` | js/mapper.js:188-190 | sets the placement flag and changes nothing else: not the points, the markers or the viewport; `Valid()` is kept |
| `PointMapper.Mapper.GetPointsData` | js/mapper.js:460-462 | returns the point list as a value; each entry's `pointIndex` is its position, and its original pixels are `Round(ratio × natural size)` |
| `PointMapper.Mapper.RefreshPreview` | js/mapper.js:343-357 | the loop leaves the main contour equal to `Contour` of the points' stage positions |
| `PointMapper.Mapper.InitZoomStage` | js/mapper.js:360-368 | afterwards the zoom stage exists; if it already existed nothing changes (idempotent), otherwise the zoom contour starts empty |
| `PointMapper.Mapper.RefreshPoints` | js/mapper.js:371-383 | every existing main marker i < number of points moves to the point's stage position; no marker is created or removed; no point changes |
| `PointMapper.Mapper.RefreshZoomPreview` | js/mapper.js:386-403 | with no zoom stage nothing changes; otherwise the zoom contour equals `Contour` of the points' zoom positions |
| `PointMapper.Mapper.RefreshZoomPoints` | js/mapper.js:406-437 | once the zoom stage exists, markers 0…n−1 sit at the points' zoom positions; the count becomes max(old count, n); markers beyond n are untouched; none is removed |
| `PointMapper.Mapper.Click` | js/mapper.js:214-264 | in placement mode, appends exactly one point with `pointIndex` = old length, ratios offset / stage size and rounded original pixels, plus a marker at the click; earlier points are unchanged; otherwise nothing changes; `Valid()` is kept |
| `PointMapper.Mapper.DragMain` | js/mapper.js:235-251 | point i alone takes the ratios of the marker's centre (reported position + 5) over the stage size, with original pixels recomputed; marker i moves to that centre; `Valid()` is kept, so the contours and the zoom markers follow |
| `PointMapper.Mapper.DragZoom` | js/mapper.js:439-457 | point i alone takes the ratios found by inverting the zoom viewport at the marker's centre, with original pixels recomputed; zoom marker i moves to that centre; `Valid()` is kept, so the main markers and contours follow |
| `PointMapper.Mapper.MouseDown` | js/mapper.js:267-278 | in zoom-selection mode, starts a selection: `zooming` is set, the anchor is the press point, the outline is cleared; in placement mode nothing changes |
| `PointMapper.Mapper.MouseMove` | js/mapper.js:327-340 | in zoom-selection mode, while a selection is being dragged, the outline is the rectangle spanned by anchor and pointer; otherwise it is unchanged |
| `PointMapper.Mapper.MouseUp` | js/mapper.js:281-324 | in zoom-selection mode, clears `zooming`, the anchor and the outline, and replaces the viewport with the one the normalised selection gives when that is not degenerate; the zoom stage then exists and its contour and markers follow; in placement mode nothing changes |
| `PointMapper.Mapper.ViewsAgree` | js/mapper.js:406-457 | in every valid state, inverting a point's main marker and (once the zoom stage exists) its zoom marker gives back the point's ratios; the three views agree |

## Left out

- Image loading and the DOM are not modelled. This covers `load`, `isString`, the `<img>` elements, the wrapper heights and `initGraphics_`. The constructor receives the state after loading: stage size, natural size and rendered size. `load` calls its callback straight away, before the image has loaded (js/mapper.js:184). That ordering is not modelled.
- `PointMapper.Mapper.constructor` requires positive stage and rendered-image sizes. The source divides by them without checking.
- The drawing library is reduced to data. Stage and layer creation, fills, strokes, z-order and the diamond's geometry are not modelled. A marker is its centre, and the drag handlers take the reported bounding-box position and add the radius 5.
- Drag-bounds enforcement is not modelled. Drag positions are taken as given, so the model states no [0, 1] range for ratios. A zoom drag can leave that range in the source too.
- Cursor changes, `preventDefault` and the double-click `console.log` hook (js/mapper.js:253-255) change no state and are not modelled.
- The zoom `<img>` replacement (js/mapper.js:304-313) is represented by the viewport values it is sized and shifted with.
- IEEE doubles are not modelled; coordinates are exact reals.
- `PointMapper.Mapper.MouseUp` skips the viewport update for a degenerate selection. The source does not guard these cases. Degenerate means one of:
  - no anchor (the source would compute with `NaN`);
  - zero width (the source divides by zero at js/mapper.js:291-295);
  - a zoom width or height that rounds to 0 (the next zoom drag would divide by zero at js/mapper.js:444-445).
  In those cases the model still clears `zooming`, the anchor and the outline, keeps the old viewport, and does not create or refresh the zoom stage. In the first two cases the source installs a viewport with non-finite sizes or offsets. In the third it installs a zero-size viewport with zero offsets (js/mapper.js:295-302), so it creates the zoom stage and collapses every zoom marker's coordinate in the zero dimension to 0 (js/mapper.js:391-392, 410-411). All these coordinates stay finite until the next zoom drag divides by the zero size.
- The constructor initialises a field spelled `zoomig_` (js/mapper.js:146), while the listeners read and write `zooming_` (js/mapper.js:271, 282, 330). The model has a single `zooming` flag that starts false. This matches the source's behaviour, because the `zooming_` field it never initialises reads as false.
- A point record is shared between `points_` and its markers' `mapper_data`. Here that sharing is by index: points are never removed or reordered, so marker i always refers to point i. An update in place becomes a reassignment of the point list.
- `PointMapper.Mapper.GetPointsData` returns a snapshot of the point list. The source returns the shared `points_` array itself (js/mapper.js:461). A caller could change that array and get round every invariant above; the model does not capture this aliasing.
- The unused `opt_exceptIndex` parameter of `refreshZoomPoints` is not modelled.
- The zoom height uses the rendered image's aspect ratio, as the code does (js/mapper.js:293-296), not the natural size's.
- A click refreshes the main contour, the zoom contour and the zoom markers, but not the main markers, as in the code (js/mapper.js:258-260). The new marker is already drawn at the click.
