/**
 * The line drawn between two concepts in concept-design mode: the same
 * boundary routing as the DDD line, with smaller size floors, a style chosen
 * by the two concept-design relationship types and a label that falls back
 * to the style's.
 */
module ConceptDesignConnectionLine {
  import opened Wrappers
  import opened Geometry
  import opened Connector
  import opened ProjectTypes

  /** The size assumed for a concept before it has been measured. */
  const InitialSize := Size(120.0, 80.0)

  /** No measured side is taken below these. */
  const SizeFloor := Size(100.0, 60.0)

  /** The size used once the element has been measured. */
  function MeasuredSize(measured: Size): (s: Size)
    ensures Positive(s)
    ensures s.width >= SizeFloor.width && s.width >= measured.width
    ensures s.height >= SizeFloor.height && s.height >= measured.height
    ensures s.width == SizeFloor.width || s.width == measured.width
    ensures s.height == SizeFloor.height || s.height == measured.height
  {
    Floored(measured, SizeFloor)
  }

  datatype LineStyle = LineStyle(color: string, strokeWidth: nat, dash: Option<string>, labelText: string)

  /** `getRelationshipStyle`: red dashed for dependency, green solid for collaboration, grey otherwise. */
  function StyleFor(kind: string): (s: LineStyle)
    ensures s.dash.Some? <==> kind == DependencyValue
    ensures s.strokeWidth == 2 <==> kind == DependencyValue || kind == CollaborationValue
    ensures kind == DependencyValue ==> s == LineStyle("#EF4444", 2, Some("5,5"), "依赖")
    ensures kind == CollaborationValue ==> s == LineStyle("#10B981", 2, None, "协作")
    ensures kind != DependencyValue && kind != CollaborationValue ==> s == LineStyle("#6B7280", 1, None, "关联")
  {
    if kind == DependencyValue then LineStyle("#EF4444", 2, Some("5,5"), "依赖")
    else if kind == CollaborationValue then LineStyle("#10B981", 2, None, "协作")
    else LineStyle("#6B7280", 1, None, "关联")
  }

  /** `relationship.label || style.label`: the relationship's own label unless it is missing or empty. */
  function DisplayedLabel(labelText: Option<string>, style: LineStyle): (text: string)
    ensures Truthy(labelText) ==> text == labelText.value
    ensures !Truthy(labelText) ==> text == style.labelText
    ensures text != "" <==> Truthy(labelText) || style.labelText != ""
  {
    if Truthy(labelText) then labelText.value else style.labelText
  }

  /** A rectangle by its top-left corner and size. */
  datatype Box = Box(x: real, y: real, width: real, height: real)

  /** What is drawn for one relationship. */
  datatype LineLayout = LineLayout(
    start: Point,
    end: Point,
    style: LineStyle,
    captionAt: Point,
    caption: string,
    badge: Box,
    deleteButton: Point,
    deleteGlyph: Point)

  /** The line for `relationship` from `source` to `target`, drawn with the current box sizes. */
  function Render(relationship: DDDRelationship, source: DDDConcept, target: DDDConcept, sourceSize: Size, targetSize: Size): (v: LineLayout)
    requires Positive(sourceSize) && Positive(targetSize)
    requires Center(source.position, sourceSize) != Center(target.position, targetSize)
    ensures OnBoundary(v.start, Center(source.position, sourceSize), sourceSize)
    ensures OnBoundary(v.end, Center(target.position, targetSize), targetSize)
    ensures (v.start, v.end) == Endpoints(source.position, sourceSize, target.position, targetSize)
    ensures v.style == StyleFor(relationship.kind)
    ensures v.caption == DisplayedLabel(relationship.labelText, v.style) && v.caption != ""
    ensures var mid := Midpoint(v.start, v.end);
            && v.captionAt == Point(mid.x, mid.y - 10.0)
            && v.badge == Box(mid.x - 20.0, mid.y - 18.0, 40.0, 16.0)
            && v.deleteButton == Point(mid.x, mid.y + 15.0)
            && v.deleteGlyph == Point(mid.x, mid.y + 19.0)
  {
    var (s, t) := Endpoints(source.position, sourceSize, target.position, targetSize);
    var style := StyleFor(relationship.kind);
    var mid := Point((s.x + t.x) / 2.0, (s.y + t.y) / 2.0);
    LineLayout(s, t, style, Point(mid.x, mid.y - 10.0), DisplayedLabel(relationship.labelText, style),
               Box(mid.x - 20.0, mid.y - 18.0, 40.0, 16.0), Point(mid.x, mid.y + 15.0), Point(mid.x, mid.y + 19.0))
  }

  /** The badge is centred horizontally on the midpoint, as is the delete button. */
  lemma BadgeCentred(relationship: DDDRelationship, source: DDDConcept, target: DDDConcept, sourceSize: Size, targetSize: Size)
    requires Positive(sourceSize) && Positive(targetSize)
    requires Center(source.position, sourceSize) != Center(target.position, targetSize)
    ensures var v := Render(relationship, source, target, sourceSize, targetSize);
            v.badge.x + v.badge.width / 2.0 == v.deleteButton.x == v.captionAt.x
  {
  }

  /**
   * Two 100×60 boxes centred at (0, 0) and (200, 0): the line runs from the
   * right side of the first, (50, 0), to the left side of the second, (150, 0).
   */
  lemma SideBySideEndpoints()
    ensures Endpoints(Point(-50.0, -30.0), Size(100.0, 60.0), Point(150.0, -30.0), Size(100.0, 60.0))
            == (Point(50.0, 0.0), Point(150.0, 0.0))
  {
    var size := Size(100.0, 60.0);
    assert Center(Point(-50.0, -30.0), size) == Point(0.0, 0.0);
    assert Center(Point(150.0, -30.0), size) == Point(200.0, 0.0);
    assert ExitsSideways(Point(200.0, 0.0), size);
    assert ExitsSideways(Point(-200.0, 0.0), size);
  }
}
