/**
 * What a drop on a canvas hands back: the drop result seen by the dragged
 * item, and which of the canvas's drop callbacks is invoked.
 */
module DragDrop {
  import opened Wrappers
  import opened Geometry

  /** The two payload tags a canvas accepts. */
  datatype ItemKind = ContextItem | ConceptItem

  /** The dragged payload `{ id, type }`. */
  datatype DragItem = DragItem(id: string, kind: ItemKind)

  /** `{ name, position? }` as returned from the drop handler. */
  datatype DropResult = DropResult(name: string, position: Option<Point>)

  /** One invocation of `onContextDrop` (target `ContextItem`) or `onConceptDrop` (target `ConceptItem`). */
  datatype DropCall = DropCall(target: ItemKind, id: string, position: Point)

  /** Which optional drop callbacks the canvas was given. */
  datatype DropHandlers = DropHandlers(hasContextDrop: bool, hasConceptDrop: bool)

  predicate Handles(handlers: DropHandlers, kind: ItemKind) {
    match kind
    case ContextItem => handlers.hasContextDrop
    case ConceptItem => handlers.hasConceptDrop
  }

  datatype DropOutcome = DropOutcome(result: DropResult, call: Option<DropCall>)

  const CanvasName: string := "Canvas"

  /** The outcome when the canvas element or the pointer offset is unavailable. */
  const NoPosition: DropOutcome := DropOutcome(DropResult(CanvasName, None), None)

  /**
   * Routing by payload tag: the callback for the item's own kind is called
   * with the item's id and the position, if that callback was supplied; the
   * result carries the same position either way.
   */
  function Route(item: DragItem, position: Point, handlers: DropHandlers): (o: DropOutcome)
    ensures o.result == DropResult(CanvasName, Some(position))
    ensures o.call.Some? <==> Handles(handlers, item.kind)
    ensures o.call.Some? ==> o.call.value == DropCall(item.kind, item.id, position)
  {
    var call := if Handles(handlers, item.kind) then Some(DropCall(item.kind, item.id, position)) else None;
    DropOutcome(DropResult(CanvasName, Some(position)), call)
  }
}
