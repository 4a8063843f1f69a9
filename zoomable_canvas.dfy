/**
 * The zoomable, pannable editing canvas: the screen-to-model transform of a
 * drop, cursor-anchored wheel zoom, drag-to-pan, reset, zoom buttons and keys,
 * fit-to-content, and the computation of the canvas extent from its content.
 */
module ZoomableCanvas {
  import opened Wrappers
  import opened Geometry
  import opened DragDrop

  const MinZoom: real := 0.1
  const MaxZoom: real := 3.0

  predicate InZoomRange(z: real) {
    MinZoom <= z <= MaxZoom
  }

  /** The content is drawn translated by `pan`, then scaled by `zoom`: this maps a client point back to model coordinates. */
  function ToModel(client: Point, origin: Point, pan: Point, zoom: real): (m: Point)
    requires zoom != 0.0
    ensures m.x * zoom + pan.x + origin.x == client.x
    ensures m.y * zoom + pan.y + origin.y == client.y
  {
    Point((client.x - origin.x - pan.x) / zoom, (client.y - origin.y - pan.y) / zoom)
  }

  /**
   * The drop handler. Without the canvas origin or the pointer offset it
   * returns a result without position and calls nothing; otherwise the
   * result carries the model position under the pointer and the callback of
   * the item's kind, if supplied, receives the same position.
   */
  function Drop(item: DragItem, origin: Option<Point>, client: Option<Point>, pan: Point, zoom: real, handlers: DropHandlers): (o: DropOutcome)
    requires zoom != 0.0
    ensures o.result.name == CanvasName
    ensures o.result.position.Some? <==> origin.Some? && client.Some?
    ensures o.result.position.Some? ==>
      var m := o.result.position.value;
      m.x * zoom + pan.x + origin.value.x == client.value.x && m.y * zoom + pan.y + origin.value.y == client.value.y
    ensures o.call.Some? <==> o.result.position.Some? && Handles(handlers, item.kind)
    ensures o.call.Some? ==> o.call.value == DropCall(item.kind, item.id, o.result.position.value)
  {
    if origin.None? || client.None? then NoPosition
    else Route(item, ToModel(client.value, origin.value, pan, zoom), handlers)
  }

  /** The zoom after one Ctrl-wheel step: down-scroll shrinks by 10%, otherwise it grows by 10%, clamped to [0.1, 3]. */
  function WheelZoom(zoom: real, deltaY: real): (r: real)
    ensures InZoomRange(r)
    ensures deltaY > 0.0 && InZoomRange(zoom * 0.9) ==> r == zoom * 0.9
    ensures deltaY <= 0.0 && InZoomRange(zoom * 1.1) ==> r == zoom * 1.1
    ensures deltaY > 0.0 && zoom * 0.9 < MinZoom ==> r == MinZoom
    ensures deltaY > 0.0 && zoom * 0.9 > MaxZoom ==> r == MaxZoom
    ensures deltaY <= 0.0 && zoom * 1.1 < MinZoom ==> r == MinZoom
    ensures deltaY <= 0.0 && zoom * 1.1 > MaxZoom ==> r == MaxZoom
    ensures deltaY > 0.0 && zoom >= 0.0 ==> r <= Max(zoom, MinZoom)
    ensures deltaY <= 0.0 && zoom >= 0.0 ==> r >= Min(zoom, MaxZoom)
  {
    var factor := if deltaY > 0.0 then 0.9 else 1.1;
    Clamp(zoom * factor, MinZoom, MaxZoom)
  }

  /** The pan after a zoom step anchored at `mouse` (canvas-relative): the model point under the mouse stays there. */
  function WheelPan(mouse: Point, pan: Point, zoom: real, newZoom: real): (r: Point)
    requires zoom != 0.0 && newZoom != 0.0
    ensures (mouse.x - r.x) / newZoom == (mouse.x - pan.x) / zoom
    ensures (mouse.y - r.y) / newZoom == (mouse.y - pan.y) / zoom
  {
    var k := newZoom / zoom;
    var r := Point(mouse.x - (mouse.x - pan.x) * k, mouse.y - (mouse.y - pan.y) * k);
    assert mouse.x - r.x == (mouse.x - pan.x) * k;
    assert mouse.y - r.y == (mouse.y - pan.y) * k;
    r
  }

  function Sub(p: Point, q: Point): Point {
    Point(p.x - q.x, p.y - q.y)
  }

  /** A wheel zoom leaves the model position under the cursor where it was. */
  lemma WheelKeepsCursorAnchor(client: Point, origin: Point, pan: Point, zoom: real, newZoom: real)
    requires zoom != 0.0 && newZoom != 0.0
    ensures ToModel(client, origin, WheelPan(Sub(client, origin), pan, zoom, newZoom), newZoom)
         == ToModel(client, origin, pan, zoom)
  {
    var mouse := Sub(client, origin);
    var p := WheelPan(mouse, pan, zoom, newZoom);
    assert client.x - origin.x - p.x == mouse.x - p.x;
    assert client.y - origin.y - p.y == mouse.y - p.y;
  }

  /** Where a pan drag started: the pointer and the pan at the press. */
  datatype DragStart = DragStart(client: Point, pan: Point)

  /**
   * The pan while dragging: the press-time pan plus the pointer's
   * displacement from the press point divided by the zoom.
   */
  function PanFrom(start: DragStart, client: Point, zoom: real): (p: Point)
    requires zoom != 0.0
    ensures (p.x - start.pan.x) * zoom == client.x - start.client.x
    ensures (p.y - start.pan.y) * zoom == client.y - start.client.y
  {
    Point(start.pan.x + (client.x - start.client.x) / zoom, start.pan.y + (client.y - start.client.y) / zoom)
  }

  /** Returning the pointer to the press point restores the press-time pan. */
  lemma PanReturns(start: DragStart, zoom: real)
    requires zoom != 0.0
    ensures PanFrom(start, start.client, zoom) == start.pan
  {
  }

  /** Where a model point is drawn: translated by `pan` after scaling by `zoom`, relative to the canvas origin. */
  function ToScreen(m: Point, origin: Point, pan: Point, zoom: real): (c: Point)
    requires zoom != 0.0
    ensures ToModel(c, origin, pan, zoom) == m
  {
    var c := Point(m.x * zoom + pan.x + origin.x, m.y * zoom + pan.y + origin.y);
    assert c.x - origin.x - pan.x == m.x * zoom;
    assert c.y - origin.y - pan.y == m.y * zoom;
    c
  }

  /**
   * During a drag every model point moves on screen by the pointer's
   * displacement divided by the zoom, so the content keeps pace with the
   * pointer only at zoom 1.
   */
  lemma PanDragShift(start: DragStart, client: Point, zoom: real, m: Point, origin: Point)
    requires zoom != 0.0
    ensures ToScreen(m, origin, PanFrom(start, client, zoom), zoom).x - ToScreen(m, origin, start.pan, zoom).x
            == (client.x - start.client.x) / zoom
    ensures ToScreen(m, origin, PanFrom(start, client, zoom), zoom).y - ToScreen(m, origin, start.pan, zoom).y
            == (client.y - start.client.y) / zoom
  {
  }

  /**
   * At any zoom other than 1 a horizontal drag loses its grip: the model
   * point under the pointer is no longer the one grabbed at the press (at
   * zoom 2 a 100-pixel drag moves the content only 50 pixels).
   */
  lemma DragLosesGrip(start: DragStart, client: Point, origin: Point, zoom: real)
    requires zoom != 0.0 && zoom != 1.0 && client.x != start.client.x
    ensures ToModel(client, origin, PanFrom(start, client, zoom), zoom).x != ToModel(start.client, origin, start.pan, zoom).x
  {
    var p := PanFrom(start, client, zoom);
    var a := ToModel(client, origin, p, zoom);
    var b := ToModel(start.client, origin, start.pan, zoom);
    assert (a.x - b.x) * zoom == (client.x - start.client.x) - (p.x - start.pan.x);
    ShiftLeavesGap(p.x - start.pan.x, client.x - start.client.x, a.x - b.x, zoom);
  }

  /** A drag pan that follows the pointer one to one: the press-time pan plus the pointer's displacement. */
  function PanFollowing(start: DragStart, client: Point): (p: Point)
    ensures p.x - start.pan.x == client.x - start.client.x && p.y - start.pan.y == client.y - start.client.y
  {
    Point(start.pan.x + (client.x - start.client.x), start.pan.y + (client.y - start.client.y))
  }

  /** With the one-to-one pan the model point grabbed at the press stays under the pointer at every zoom. */
  lemma GrabStaysUnderPointer(start: DragStart, client: Point, origin: Point, zoom: real)
    requires zoom != 0.0
    ensures ToModel(client, origin, PanFollowing(start, client), zoom) == ToModel(start.client, origin, start.pan, zoom)
  {
    var p := PanFollowing(start, client);
    assert client.x - origin.x - p.x == start.client.x - origin.x - start.pan.x;
    assert client.y - origin.y - p.y == start.client.y - origin.y - start.pan.y;
  }

  /** Ctrl + `=`/`+` and the plus button. */
  function ZoomIn(zoom: real): (r: real)
    ensures r <= MaxZoom
    ensures zoom * 1.2 <= MaxZoom ==> r == zoom * 1.2
    ensures zoom * 1.2 > MaxZoom ==> r == MaxZoom
    ensures zoom > 0.0 ==> r > 0.0
    ensures InZoomRange(zoom) ==> InZoomRange(r) && r >= zoom
  {
    Min(MaxZoom, zoom * 1.2)
  }

  /** Ctrl + `-` and the minus button. */
  function ZoomOut(zoom: real): (r: real)
    ensures r >= MinZoom
    ensures zoom / 1.2 >= MinZoom ==> r == zoom / 1.2
    ensures zoom / 1.2 < MinZoom ==> r == MinZoom
    ensures InZoomRange(zoom) ==> InZoomRange(r) && r <= zoom
  {
    Max(MinZoom, zoom / 1.2)
  }

  /** `zoomTo(level)`. */
  function ZoomToLevel(level: real): (r: real)
    ensures InZoomRange(r)
    ensures InZoomRange(level) ==> r == level
    ensures level < MinZoom ==> r == MinZoom
    ensures level > MaxZoom ==> r == MaxZoom
  {
    Clamp(level, MinZoom, MaxZoom)
  }

  // ---------------------------------------------------------------- extent

  /** A child of the content layer as the extent computation sees it. */
  datatype ContentElement = ContentElement(
    isSvg: bool,
    left: Option<real>,     // `style.left` parsed, `None` when unset or empty
    top: real,              // `style.top` parsed, 0 when it does not parse
    offsetWidth: real,
    offsetHeight: real)

  /** A `line` element of the first SVG layer. */
  datatype LineElement = LineElement(x1: real, y1: real, x2: real, y2: real)

  datatype Axis = X | Y

  datatype Bounds = Bounds(minX: real, minY: real, maxX: real, maxY: real)

  /** SVG layers and elements without a left offset do not count. */
  predicate Counted(e: ContentElement) {
    !e.isSvg && e.left.Some?
  }

  /** `offsetWidth || 200`. */
  function MeasuredWidth(e: ContentElement): real {
    if e.offsetWidth == 0.0 then 200.0 else e.offsetWidth
  }

  /** `offsetHeight || 120`. */
  function MeasuredHeight(e: ContentElement): real {
    if e.offsetHeight == 0.0 then 120.0 else e.offsetHeight
  }

  /** The low edge of a counted element on an axis, with its 300-unit margin. */
  function ElementLow(e: ContentElement, axis: Axis): real
    requires Counted(e)
  {
    match axis
    case X => e.left.value - 300.0
    case Y => e.top - 300.0
  }

  /** The high edge of a counted element on an axis, with its 300-unit margin. */
  function ElementHigh(e: ContentElement, axis: Axis): real
    requires Counted(e)
  {
    match axis
    case X => e.left.value + MeasuredWidth(e) + 300.0
    case Y => e.top + MeasuredHeight(e) + 300.0
  }

  /** The low edge of a line on an axis, with its 100-unit margin. */
  function LineLow(l: LineElement, axis: Axis): real {
    match axis
    case X => Min(l.x1 - 100.0, l.x2 - 100.0)
    case Y => Min(l.y1 - 100.0, l.y2 - 100.0)
  }

  /** The high edge of a line on an axis, with its 100-unit margin. */
  function LineHigh(l: LineElement, axis: Axis): real {
    match axis
    case X => Max(l.x1 + 100.0, l.x2 + 100.0)
    case Y => Max(l.y1 + 100.0, l.y2 + 100.0)
  }

  function Low(b: Bounds, axis: Axis): real {
    match axis
    case X => b.minX
    case Y => b.minY
  }

  function High(b: Bounds, axis: Axis): real {
    match axis
    case X => b.maxX
    case Y => b.maxY
  }

  /** The default extent [0, 3000] x [0, 2000] that the bounds start from. */
  const BaseBounds := Bounds(0.0, 0.0, 3000.0, 2000.0)

  /** `v` is at or below the default edge and every margin-extended low edge among the first `n` elements and `m` lines. */
  predicate BelowAll(v: real, axis: Axis, elements: seq<ContentElement>, n: nat, lines: seq<LineElement>, m: nat)
    requires n <= |elements| && m <= |lines|
  {
    v <= Low(BaseBounds, axis)
    && (forall i :: 0 <= i < n && Counted(elements[i]) ==> v <= ElementLow(elements[i], axis))
    && (forall j :: 0 <= j < m ==> v <= LineLow(lines[j], axis))
  }

  predicate AboveAll(v: real, axis: Axis, elements: seq<ContentElement>, n: nat, lines: seq<LineElement>, m: nat)
    requires n <= |elements| && m <= |lines|
  {
    v >= High(BaseBounds, axis)
    && (forall i :: 0 <= i < n && Counted(elements[i]) ==> v >= ElementHigh(elements[i], axis))
    && (forall j :: 0 <= j < m ==> v >= LineHigh(lines[j], axis))
  }

  /** `v` is the default edge or one of the low edges it bounds. */
  predicate LowAttained(v: real, axis: Axis, elements: seq<ContentElement>, n: nat, lines: seq<LineElement>, m: nat)
    requires n <= |elements| && m <= |lines|
  {
    v == Low(BaseBounds, axis)
    || (exists i :: 0 <= i < n && Counted(elements[i]) && v == ElementLow(elements[i], axis))
    || (exists j :: 0 <= j < m && v == LineLow(lines[j], axis))
  }

  predicate HighAttained(v: real, axis: Axis, elements: seq<ContentElement>, n: nat, lines: seq<LineElement>, m: nat)
    requires n <= |elements| && m <= |lines|
  {
    v == High(BaseBounds, axis)
    || (exists i :: 0 <= i < n && Counted(elements[i]) && v == ElementHigh(elements[i], axis))
    || (exists j :: 0 <= j < m && v == LineHigh(lines[j], axis))
  }

  /** The bounds are exactly the smallest box holding the default extent and every margin-extended element and line. */
  predicate IsTightBounds(b: Bounds, elements: seq<ContentElement>, n: nat, lines: seq<LineElement>, m: nat)
    requires n <= |elements| && m <= |lines|
  {
    AxisTight(b, X, elements, n, lines, m) && AxisTight(b, Y, elements, n, lines, m)
  }

  predicate AxisTight(b: Bounds, axis: Axis, elements: seq<ContentElement>, n: nat, lines: seq<LineElement>, m: nat)
    requires n <= |elements| && m <= |lines|
  {
    BelowAll(Low(b, axis), axis, elements, n, lines, m) && LowAttained(Low(b, axis), axis, elements, n, lines, m)
    && AboveAll(High(b, axis), axis, elements, n, lines, m) && HighAttained(High(b, axis), axis, elements, n, lines, m)
  }

  /** The bounds grown to hold one counted element with its margin; other elements leave them alone. */
  function AddElement(b: Bounds, e: ContentElement): Bounds {
    if Counted(e) then
      Bounds(Min(b.minX, ElementLow(e, X)), Min(b.minY, ElementLow(e, Y)),
             Max(b.maxX, ElementHigh(e, X)), Max(b.maxY, ElementHigh(e, Y)))
    else b
  }

  /** The bounds grown to hold one line with its margin. */
  function AddLine(b: Bounds, l: LineElement): Bounds {
    Bounds(Min(b.minX, LineLow(l, X)), Min(b.minY, LineLow(l, Y)),
           Max(b.maxX, LineHigh(l, X)), Max(b.maxY, LineHigh(l, Y)))
  }

  lemma AxisAddElement(b: Bounds, axis: Axis, elements: seq<ContentElement>, n: nat, lines: seq<LineElement>, m: nat)
    requires n < |elements| && m <= |lines|
    requires AxisTight(b, axis, elements, n, lines, m)
    ensures AxisTight(AddElement(b, elements[n]), axis, elements, n + 1, lines, m)
  {
    var e := elements[n];
    var b' := AddElement(b, e);
    if Counted(e) {
      assert Low(b', axis) == Min(Low(b, axis), ElementLow(e, axis));
      assert High(b', axis) == Max(High(b, axis), ElementHigh(e, axis));
    }
    assert LowAttained(Low(b', axis), axis, elements, n + 1, lines, m);
    assert HighAttained(High(b', axis), axis, elements, n + 1, lines, m);
  }

  lemma AxisAddLine(b: Bounds, axis: Axis, elements: seq<ContentElement>, lines: seq<LineElement>, m: nat)
    requires m < |lines|
    requires AxisTight(b, axis, elements, |elements|, lines, m)
    ensures AxisTight(AddLine(b, lines[m]), axis, elements, |elements|, lines, m + 1)
  {
    var b' := AddLine(b, lines[m]);
    assert Low(b', axis) == Min(Low(b, axis), LineLow(lines[m], axis));
    assert High(b', axis) == Max(High(b, axis), LineHigh(lines[m], axis));
    assert LowAttained(Low(b', axis), axis, elements, |elements|, lines, m + 1);
    assert HighAttained(High(b', axis), axis, elements, |elements|, lines, m + 1);
  }

  /** The two loops of `updateCanvasSize`: elements, then the lines of the first SVG layer. */
  method ComputeBounds(elements: seq<ContentElement>, lines: seq<LineElement>) returns (b: Bounds)
    ensures IsTightBounds(b, elements, |elements|, lines, |lines|)
  {
    b := BaseBounds;
    var i := 0;
    while i < |elements|
      invariant 0 <= i <= |elements|
      invariant IsTightBounds(b, elements, i, lines, 0)
    {
      AxisAddElement(b, X, elements, i, lines, 0);
      AxisAddElement(b, Y, elements, i, lines, 0);
      b := AddElement(b, elements[i]);
      i := i + 1;
    }
    var j := 0;
    while j < |lines|
      invariant 0 <= j <= |lines|
      invariant IsTightBounds(b, elements, |elements|, lines, j)
    {
      AxisAddLine(b, X, elements, lines, j);
      AxisAddLine(b, Y, elements, lines, j);
      b := AddLine(b, lines[j]);
      j := j + 1;
    }
  }

  const MinExtent := Size(3000.0, 2000.0)
  const MaxExtent := Size(12000.0, 8000.0)

  /** The required extent, clamped to [3000, 12000] x [2000, 8000]. */
  function ClampExtent(b: Bounds): (s: Size)
    ensures MinExtent.width <= s.width <= MaxExtent.width
    ensures MinExtent.height <= s.height <= MaxExtent.height
    ensures MinExtent.width <= b.maxX - b.minX <= MaxExtent.width ==> s.width == b.maxX - b.minX
    ensures MinExtent.height <= b.maxY - b.minY <= MaxExtent.height ==> s.height == b.maxY - b.minY
    ensures b.maxX - b.minX < MinExtent.width ==> s.width == MinExtent.width
    ensures b.maxX - b.minX > MaxExtent.width ==> s.width == MaxExtent.width
    ensures b.maxY - b.minY < MinExtent.height ==> s.height == MinExtent.height
    ensures b.maxY - b.minY > MaxExtent.height ==> s.height == MaxExtent.height
  {
    Size(Clamp(b.maxX - b.minX, MinExtent.width, MaxExtent.width), Clamp(b.maxY - b.minY, MinExtent.height, MaxExtent.height))
  }

  /** The bounds always contain the default extent, so the lower clamp never changes a computed extent. */
  lemma ExtentLowerClampInactive(b: Bounds, elements: seq<ContentElement>, lines: seq<LineElement>)
    requires IsTightBounds(b, elements, |elements|, lines, |lines|)
    ensures b.maxX - b.minX >= MinExtent.width && b.maxY - b.minY >= MinExtent.height
  {
    assert BelowAll(Low(b, X), X, elements, |elements|, lines, |lines|);
    assert AboveAll(High(b, X), X, elements, |elements|, lines, |lines|);
    assert BelowAll(Low(b, Y), Y, elements, |elements|, lines, |lines|);
    assert AboveAll(High(b, Y), Y, elements, |elements|, lines, |lines|);
  }

  const Threshold: real := 200.0

  /** The computed extent differs from `reference` by more than 200 on some side. */
  predicate Exceeds(reference: Size, computed: Size) {
    Abs(computed.width - reference.width) > Threshold || Abs(computed.height - reference.height) > Threshold
  }

  /**
   * One extent update: the computed extent replaces the shown one when it
   * differs by more than 200 on some side from `seen`, the size the update
   * compares against; otherwise the shown extent stays.
   */
  function Commit(seen: Size, shown: Size, computed: Size): (r: Size)
    ensures Exceeds(seen, computed) ==> r == computed
    ensures !Exceeds(seen, computed) ==> r == shown
  {
    if Abs(computed.width - seen.width) > Threshold || Abs(computed.height - seen.height) > Threshold then computed
    else shown
  }

  /** Compared against the shown extent itself, the result is within 200 of the computed one on both sides. */
  lemma CommitWithinThreshold(shown: Size, computed: Size)
    ensures Abs(Commit(shown, shown, computed).width - computed.width) <= Threshold
    ensures Abs(Commit(shown, shown, computed).height - computed.height) <= Threshold
  {
  }

  /** Recomputing from unchanged content changes nothing further. */
  lemma CommitIdempotent(seen: Size, shown: Size, computed: Size)
    ensures Commit(seen, Commit(seen, shown, computed), computed) == Commit(seen, shown, computed)
  {
  }

  /**
   * Compared against an older size, an update can leave the shown extent
   * further than 200 from the computed one: seen 3000 wide, shown 3500,
   * computed 3100 keeps 3500.
   */
  lemma StaleCommitKeepsDrift()
    ensures var r := Commit(Size(3000.0, 2000.0), Size(3500.0, 2000.0), Size(3100.0, 2000.0));
            r == Size(3500.0, 2000.0) && Abs(r.width - 3100.0) > Threshold
  {
    assert !Exceeds(Size(3000.0, 2000.0), Size(3100.0, 2000.0));
  }

  // ---------------------------------------------------------------- fit

  /** A child's bounding box relative to the content layer. */
  datatype Rect = Rect(x: real, y: real, width: real, height: real)

  predicate Measured(rects: seq<Rect>) {
    forall i :: 0 <= i < |rects| ==> rects[i].width >= 0.0 && rects[i].height >= 0.0
  }

  /** `b` is the smallest box holding every child: it encloses them all and each of its edges is some child's edge. */
  predicate IsContentBox(b: Bounds, rects: seq<Rect>) {
    (forall i :: 0 <= i < |rects| ==>
      b.minX <= rects[i].x && b.minY <= rects[i].y
      && rects[i].x + rects[i].width <= b.maxX && rects[i].y + rects[i].height <= b.maxY)
    && (exists i :: 0 <= i < |rects| && b.minX == rects[i].x)
    && (exists i :: 0 <= i < |rects| && b.minY == rects[i].y)
    && (exists i :: 0 <= i < |rects| && b.maxX == rects[i].x + rects[i].width)
    && (exists i :: 0 <= i < |rects| && b.maxY == rects[i].y + rects[i].height)
  }

  /** The loop of `fitToContent`: the smallest box holding every child. */
  method ContentBounds(rects: seq<Rect>) returns (b: Bounds)
    requires |rects| > 0 && Measured(rects)
    ensures IsContentBox(b, rects)
    ensures b.minX <= b.maxX && b.minY <= b.maxY
  {
    var r0 := rects[0];
    var minX, minY, maxX, maxY := r0.x, r0.y, r0.x + r0.width, r0.y + r0.height;
    var i := 1;
    while i < |rects|
      invariant 1 <= i <= |rects|
      invariant forall k :: 0 <= k < i ==>
        minX <= rects[k].x && minY <= rects[k].y
        && rects[k].x + rects[k].width <= maxX && rects[k].y + rects[k].height <= maxY
      invariant exists k :: 0 <= k < i && minX == rects[k].x
      invariant exists k :: 0 <= k < i && minY == rects[k].y
      invariant exists k :: 0 <= k < i && maxX == rects[k].x + rects[k].width
      invariant exists k :: 0 <= k < i && maxY == rects[k].y + rects[k].height
    {
      var r := rects[i];
      minX := Min(minX, r.x);
      minY := Min(minY, r.y);
      maxX := Max(maxX, r.x + r.width);
      maxY := Max(maxY, r.y + r.height);
      i := i + 1;
    }
    b := Bounds(minX, minY, maxX, maxY);
  }

  /** The margin `fitToContent` adds to the content size. */
  const FitMargin: real := 200.0

  /** `min(scaleX, scaleY, 1)`: the largest zoom, at most 1, at which the padded content fits the viewport. */
  function FitZoom(viewport: Size, contentWidth: real, contentHeight: real): (z: real)
    requires contentWidth > 0.0 && contentHeight > 0.0
    ensures z <= 1.0
    ensures z * contentWidth <= viewport.width && z * contentHeight <= viewport.height
    ensures z == 1.0 || z * contentWidth == viewport.width || z * contentHeight == viewport.height
    ensures Positive(viewport) ==> z > 0.0
  {
    Min(Min(viewport.width / contentWidth, viewport.height / contentHeight), 1.0)
  }

  /** The pan that centres the padded box starting at (`minX`, `minY`) at zoom `z`. */
  function FitPan(viewport: Size, contentWidth: real, contentHeight: real, minX: real, minY: real, z: real): (p: Point)
    ensures minX * z + p.x == viewport.width - ((minX + contentWidth) * z + p.x)
    ensures minY * z + p.y == viewport.height - ((minY + contentHeight) * z + p.y)
  {
    Point((viewport.width - contentWidth * z) / 2.0 - minX * z, (viewport.height - contentHeight * z) / 2.0 - minY * z)
  }

  /**
   * Fitting has no lower zoom bound: content far wider than the viewport is
   * fitted at a zoom below the 0.1 that the wheel, the buttons and `zoomTo` keep to.
   */
  lemma FitCanLeaveZoomRange()
    ensures FitZoom(Size(800.0, 600.0), 9800.0 + FitMargin, 400.0 + FitMargin) == 0.08
    ensures !InZoomRange(FitZoom(Size(800.0, 600.0), 9800.0 + FitMargin, 400.0 + FitMargin))
  {
    assert 800.0 / 10000.0 == 0.08;
    assert 600.0 / 600.0 == 1.0;
  }

  // ---------------------------------------------------------------- state

  /** The view state of one canvas. */
  class ViewState {
    var zoom: real
    var pan: Point
    var isPanning: bool
    var dragStart: Option<DragStart>
    var canvasSize: Size
    /** The canvas size as of the last change of the children: the value the extent effect's closure compares against. */
    var capturedSize: Size

    /** Zoom is positive, and a press point is recorded exactly while panning. */
    predicate Valid()
      reads this
    {
      zoom > 0.0 && (isPanning <==> dragStart.Some?)
    }

    constructor()
      ensures Valid()
      ensures zoom == 1.0 && pan == Point(0.0, 0.0) && !isPanning && canvasSize == Size(2000.0, 1500.0)
      ensures capturedSize == canvasSize
    {
      zoom := 1.0;
      pan := Point(0.0, 0.0);
      isPanning := false;
      dragStart := None;
      canvasSize := Size(2000.0, 1500.0);
      capturedSize := canvasSize;
    }

    /**
     * `handleWheel`: without Ctrl, or without the canvas box, nothing
     * changes; otherwise zoom steps and the pan keeps the model point under
     * the pointer in place.
     */
    method Wheel(ctrl: bool, origin: Option<Point>, client: Point, deltaY: real)
      requires Valid()
      modifies this
      ensures Valid()
      ensures !ctrl || origin.None? ==> unchanged(this)
      ensures ctrl && origin.Some? ==>
        zoom == WheelZoom(old(zoom), deltaY)
        && pan == WheelPan(Sub(client, origin.value), old(pan), old(zoom), zoom)
        && ToModel(client, origin.value, pan, zoom) == ToModel(client, origin.value, old(pan), old(zoom))
      ensures isPanning == old(isPanning) && dragStart == old(dragStart) && canvasSize == old(canvasSize) && capturedSize == old(capturedSize)
    {
      if !ctrl || origin.None? {
        return;
      }
      var mouse := Sub(client, origin.value);
      var newZoom := WheelZoom(zoom, deltaY);
      WheelKeepsCursorAnchor(client, origin.value, pan, zoom, newZoom);
      pan := WheelPan(mouse, pan, zoom, newZoom);
      zoom := newZoom;
    }

    /**
     * `handleMouseDown`: on a concept, button or form field nothing happens;
     * elsewhere panning starts from this press and the context selection is
     * cleared (`deselect`) when a selection callback is supplied.
     */
    method MouseDown(onInteractive: bool, client: Point, hasContextSelect: bool) returns (deselect: bool)
      requires Valid()
      modifies this
      ensures Valid()
      ensures onInteractive ==> unchanged(this) && !deselect
      ensures !onInteractive ==> isPanning && dragStart == Some(DragStart(client, old(pan))) && deselect == hasContextSelect
      ensures zoom == old(zoom) && pan == old(pan) && canvasSize == old(canvasSize) && capturedSize == old(capturedSize)
    {
      deselect := false;
      if !onInteractive {
        isPanning := true;
        dragStart := Some(DragStart(client, pan));
        deselect := hasContextSelect;
      }
    }

    /** `handleMouseMove`: while panning, the pan follows the pointer from the press point. */
    method MouseMove(client: Point)
      requires Valid()
      modifies this
      ensures Valid()
      ensures old(isPanning) ==> pan == PanFrom(old(dragStart).value, client, zoom)
      ensures !old(isPanning) ==> pan == old(pan)
      ensures zoom == old(zoom) && isPanning == old(isPanning) && dragStart == old(dragStart) && canvasSize == old(canvasSize) && capturedSize == old(capturedSize)
    {
      if isPanning && dragStart.Some? {
        pan := PanFrom(dragStart.value, client, zoom);
      }
    }

    /** `handleMouseUp`: panning ends and the press point is forgotten. */
    method MouseUp()
      requires Valid()
      modifies this
      ensures Valid()
      ensures !isPanning && dragStart.None?
      ensures zoom == old(zoom) && pan == old(pan) && canvasSize == old(canvasSize) && capturedSize == old(capturedSize)
    {
      isPanning := false;
      dragStart := None;
    }

    /** `resetView`: zoom 1, no pan. */
    method ResetView()
      requires Valid()
      modifies this
      ensures Valid()
      ensures zoom == 1.0 && pan == Point(0.0, 0.0)
      ensures isPanning == old(isPanning) && dragStart == old(dragStart) && canvasSize == old(canvasSize) && capturedSize == old(capturedSize)
    {
      zoom := 1.0;
      pan := Point(0.0, 0.0);
    }

    /** `handleDoubleClick`: resets the view unless it lands on a concept, button or form field. */
    method DoubleClick(onInteractive: bool)
      requires Valid()
      modifies this
      ensures Valid()
      ensures onInteractive ==> unchanged(this)
      ensures !onInteractive ==> zoom == 1.0 && pan == Point(0.0, 0.0)
      ensures isPanning == old(isPanning) && dragStart == old(dragStart) && canvasSize == old(canvasSize) && capturedSize == old(capturedSize)
    {
      if !onInteractive {
        ResetView();
      }
    }

    /** `zoomTo(level)` (the 100% button calls it with 1). */
    method ZoomTo(level: real)
      requires Valid()
      modifies this
      ensures Valid()
      ensures zoom == ZoomToLevel(level)
      ensures pan == old(pan) && isPanning == old(isPanning) && dragStart == old(dragStart) && canvasSize == old(canvasSize) && capturedSize == old(capturedSize)
    {
      zoom := ZoomToLevel(level);
    }

    /** The plus button and Ctrl + `=`/`+`. */
    method StepIn()
      requires Valid()
      modifies this
      ensures Valid()
      ensures zoom == ZoomIn(old(zoom))
      ensures pan == old(pan) && isPanning == old(isPanning) && dragStart == old(dragStart) && canvasSize == old(canvasSize) && capturedSize == old(capturedSize)
    {
      zoom := ZoomIn(zoom);
    }

    /** The minus button and Ctrl + `-`. */
    method StepOut()
      requires Valid()
      modifies this
      ensures Valid()
      ensures zoom == ZoomOut(old(zoom))
      ensures pan == old(pan) && isPanning == old(isPanning) && dragStart == old(dragStart) && canvasSize == old(canvasSize) && capturedSize == old(capturedSize)
    {
      zoom := ZoomOut(zoom);
    }

    /**
     * `fitToContent`: with no children nothing changes; otherwise the zoom
     * becomes `min(scaleX, scaleY, 1)` for the content plus a 200 margin,
     * with no lower bound, and the padded box is centred.
     */
    method FitToContent(rects: seq<Rect>, viewport: Size)
      requires Valid() && Measured(rects) && Positive(viewport)
      modifies this
      ensures Valid()
      ensures |rects| == 0 ==> unchanged(this)
      ensures |rects| > 0 ==>
        exists b :: IsContentBox(b, rects) && b.minX <= b.maxX && b.minY <= b.maxY
          && zoom == FitZoom(viewport, b.maxX - b.minX + FitMargin, b.maxY - b.minY + FitMargin)
          && pan == FitPan(viewport, b.maxX - b.minX + FitMargin, b.maxY - b.minY + FitMargin, b.minX, b.minY, zoom)
      ensures |rects| > 0 ==> zoom <= 1.0
      ensures isPanning == old(isPanning) && dragStart == old(dragStart) && canvasSize == old(canvasSize) && capturedSize == old(capturedSize)
    {
      if |rects| == 0 {
        return;
      }
      var b := ContentBounds(rects);
      var contentWidth := b.maxX - b.minX + FitMargin;
      var contentHeight := b.maxY - b.minY + FitMargin;
      var z := FitZoom(viewport, contentWidth, contentHeight);
      zoom := z;
      pan := FitPan(viewport, contentWidth, contentHeight, b.minX, b.minY, z);
    }

    /**
     * The extent effect is set up again after the children change: its
     * `updateCanvasSize` closure sees the canvas size of that render.
     */
    method ChildrenChanged()
      requires Valid()
      modifies this
      ensures Valid()
      ensures capturedSize == canvasSize
      ensures zoom == old(zoom) && pan == old(pan) && isPanning == old(isPanning) && dragStart == old(dragStart)
      ensures canvasSize == old(canvasSize)
    {
      capturedSize := canvasSize;
    }

    /**
     * `updateCanvasSize` (after the initial delay, a content mutation or a
     * window resize): no children sets 3000 x 2000 outright; otherwise the
     * clamped required extent replaces the shown one when it differs by more
     * than 200 from the size captured at the last children change.
     */
    method UpdateCanvasSize(elements: seq<ContentElement>, lines: seq<LineElement>)
      requires Valid()
      modifies this
      ensures Valid()
      ensures |elements| == 0 ==> canvasSize == MinExtent
      ensures |elements| > 0 ==>
        (exists b :: IsTightBounds(b, elements, |elements|, lines, |lines|)
                     && canvasSize == Commit(old(capturedSize), old(canvasSize), ClampExtent(b)))
      ensures MinExtent.width <= canvasSize.width <= MaxExtent.width || canvasSize == old(canvasSize)
      ensures zoom == old(zoom) && pan == old(pan) && isPanning == old(isPanning) && dragStart == old(dragStart)
      ensures capturedSize == old(capturedSize)
    {
      if |elements| == 0 {
        canvasSize := MinExtent;
        return;
      }
      var b := ComputeBounds(elements, lines);
      canvasSize := Commit(capturedSize, canvasSize, ClampExtent(b));
    }

    /**
     * The keyboard shortcuts: ignored while a text field has focus or without
     * Ctrl/Meta; `0` resets, `=`/`+` zooms in, `-` zooms out, `1` fits.
     */
    method KeyDown(focusInTextField: bool, ctrl: bool, meta: bool, key: string, rects: seq<Rect>, viewport: Size)
      requires Valid()
      requires !focusInTextField && (ctrl || meta) && key == "1" ==> Measured(rects) && Positive(viewport)
      modifies this
      ensures Valid()
      ensures focusInTextField || !(ctrl || meta) || key !in {"0", "=", "+", "-", "1"} ==> unchanged(this)
      ensures !focusInTextField && (ctrl || meta) && key == "0" ==> zoom == 1.0 && pan == Point(0.0, 0.0)
      ensures !focusInTextField && (ctrl || meta) && (key == "=" || key == "+") ==> zoom == ZoomIn(old(zoom)) && pan == old(pan)
      ensures !focusInTextField && (ctrl || meta) && key == "-" ==> zoom == ZoomOut(old(zoom)) && pan == old(pan)
      ensures !focusInTextField && (ctrl || meta) && key == "1" && |rects| == 0 ==> zoom == old(zoom) && pan == old(pan)
      ensures !focusInTextField && (ctrl || meta) && key == "1" && |rects| > 0 ==>
        zoom <= 1.0
        && exists b :: IsContentBox(b, rects) && b.minX <= b.maxX && b.minY <= b.maxY
             && zoom == FitZoom(viewport, b.maxX - b.minX + FitMargin, b.maxY - b.minY + FitMargin)
             && pan == FitPan(viewport, b.maxX - b.minX + FitMargin, b.maxY - b.minY + FitMargin, b.minX, b.minY, zoom)
      ensures isPanning == old(isPanning) && dragStart == old(dragStart) && canvasSize == old(canvasSize) && capturedSize == old(capturedSize)
    {
      if focusInTextField || !(ctrl || meta) {
        return;
      }
      if key == "0" {
        ResetView();
      } else if key == "=" || key == "+" {
        StepIn();
      } else if key == "-" {
        StepOut();
      } else if key == "1" {
        FitToContent(rects, viewport);
      }
    }
  }
}
