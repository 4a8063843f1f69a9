/** The plain (untransformed) editing canvas: drops and click-to-deselect. */
module Canvas {
  import opened Wrappers
  import opened Geometry
  import opened DragDrop
  import ZoomableCanvas

  /**
   * The drop handler: without the canvas origin or the pointer offset,
   * a result without position and no callback; otherwise the position is
   * the pointer relative to the canvas, and the callback of the payload's
   * kind, if supplied, receives the item's id and that position.
   */
  function Drop(item: DragItem, origin: Option<Point>, client: Option<Point>, handlers: DropHandlers): (o: DropOutcome)
    ensures origin.None? || client.None? ==> o == NoPosition
    ensures origin.Some? && client.Some? ==>
      o.result.position == Some(Point(client.value.x - origin.value.x, client.value.y - origin.value.y))
    ensures o.call.Some? <==> origin.Some? && client.Some? && Handles(handlers, item.kind)
    ensures o.call.Some? ==> o.call.value == DropCall(item.kind, item.id, o.result.position.value)
  {
    if origin.None? || client.None? then NoPosition
    else Route(item, Point(client.value.x - origin.value.x, client.value.y - origin.value.y), handlers)
  }

  /** The plain canvas behaves as the zoomable one at zoom 1 with no pan. */
  lemma DropIsUnzoomed(item: DragItem, origin: Option<Point>, client: Option<Point>, handlers: DropHandlers)
    ensures Drop(item, origin, client, handlers) == ZoomableCanvas.Drop(item, origin, client, Point(0.0, 0.0), 1.0, handlers)
  {
  }

  /** `handleCanvasClick`: the selection is cleared only for a click on the canvas itself, and only if a callback exists. */
  function ClickDeselects(targetIsCanvas: bool, hasContextSelect: bool): (deselect: bool)
    ensures deselect <==> targetIsCanvas && hasContextSelect
  {
    targetIsCanvas && hasContextSelect
  }
}
