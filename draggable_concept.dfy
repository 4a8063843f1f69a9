/** Where a dragged concept lands when its drag ends. */
module DraggableConcept {
  import opened Wrappers
  import opened Geometry
  import opened DragDrop

  /** The committed x for a drop at `px` in a window `width` wide. */
  function DropX(px: real, width: real): (x: real)
    ensures x >= 20.0
    ensures 20.0 <= px - 40.0 <= width - 120.0 ==> x == px - 40.0
    ensures x <= Max(20.0, width - 120.0)
  {
    Max(20.0, Min(px - 40.0, width - 120.0))
  }

  /** The committed y for a drop at `py` in a window `height` high. */
  function DropY(py: real, height: real): (y: real)
    ensures y >= 20.0
    ensures 20.0 <= py - 16.0 <= height - 200.0 ==> y == py - 16.0
    ensures y <= Max(20.0, height - 200.0)
  {
    Max(20.0, Min(py - 16.0, height - 200.0))
  }

  /**
   * The `end` handler: the position passed to `onPositionChange`, or `None`
   * when it is not called. A drop result with a position wins; otherwise the
   * drag offset is added to the old position; with neither, nothing happens.
   */
  function EndPosition(dropResult: Option<DropResult>, delta: Option<Point>, current: Point, window: Size): (r: Option<Point>)
    ensures r.Some? <==> (dropResult.Some? && dropResult.value.position.Some?) || delta.Some?
    ensures r.Some? ==> r.value.x >= 20.0 && r.value.y >= 20.0
    ensures dropResult.Some? && dropResult.value.position.Some? ==>
      r == Some(Point(DropX(dropResult.value.position.value.x, window.width), DropY(dropResult.value.position.value.y, window.height)))
    ensures !(dropResult.Some? && dropResult.value.position.Some?) && delta.Some? ==>
      r.value.x == Max(20.0, current.x + delta.value.x) && r.value.y == Max(20.0, current.y + delta.value.y)
  {
    if dropResult.Some? && dropResult.value.position.Some? then
      var p := dropResult.value.position.value;
      Some(Point(DropX(p.x, window.width), DropY(p.y, window.height)))
    else if delta.Some? then
      Some(Point(Max(20.0, current.x + delta.value.x), Max(20.0, current.y + delta.value.y)))
    else
      None
  }

  /** The fallback has no upper bound: a large enough offset moves the concept arbitrarily far. */
  lemma DeltaUnbounded(current: Point, window: Size, bound: real)
    ensures exists d :: EndPosition(None, Some(d), current, window).value.x > bound
  {
    var d := Point(Abs(bound) + Abs(current.x) + 1.0, 0.0);
    assert EndPosition(None, Some(d), current, window).value.x > bound;
  }
}
