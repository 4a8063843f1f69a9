/**
 * The line drawn between two concepts in DDD (UML) mode: endpoints where the
 * centre-to-centre line leaves each concept box, the style chosen by the
 * relationship kind, and where the label, multiplicities and delete button go.
 */
module DddConnectionLine {
  import opened Wrappers
  import opened Geometry
  import opened Connector
  import opened RelationshipTypes
  import opened ProjectTypes

  /** The size assumed for a concept before it has been measured. */
  const InitialSize := Size(160.0, 120.0)

  /** No measured side is taken below these. */
  const SizeFloor := Size(140.0, 80.0)

  /** The size used once the element has been measured. */
  function MeasuredSize(measured: Size): (s: Size)
    ensures Positive(s)
    ensures s.width >= SizeFloor.width && s.width >= measured.width
    ensures s.height >= SizeFloor.height && s.height >= measured.height
    ensures s.width == SizeFloor.width || s.width == measured.width
    ensures s.height == SizeFloor.height || s.height == measured.height
  {
    Floored(measured, SizeFloor)
  }

  /** The style for a stored type that is not a DDD relationship kind. */
  const DefaultStyle := Style(Solid, "#6B7280", 1, Open, AtTarget, Some("关联"), None)

  /** `getRelationshipStyle`: the table entry of a known kind, the default style otherwise. */
  function StyleFor(kind: string): (s: Style)
    ensures forall k :: RelationValue(k) == kind ==> s == StyleOf(k)
    ensures (forall k :: RelationValue(k) != kind) ==> s == DefaultStyle
  {
    RelationValueInjective();
    match ParseRelation(kind)
    case Some(k) => StyleOf(k)
    case None => DefaultStyle
  }

  /** The `strokeDasharray` for a line type: none for a solid line. */
  function DashFor(lineType: LineType): (d: Option<string>)
    ensures d.None? <==> lineType == Solid
    ensures lineType == Dashed ==> d == Some("5,5")
    ensures lineType == Dotted ==> d == Some("2,2")
  {
    match lineType
    case Dashed => Some("5,5")
    case Dotted => Some("2,2")
    case Solid => None
  }

  /** A text placed at a point. */
  datatype Caption = Caption(at: Point, text: string)

  /** What is drawn for one relationship. */
  datatype LineLayout = LineLayout(
    start: Point,
    end: Point,
    stroke: string,
    strokeWidth: nat,
    dash: Option<string>,
    caption: Option<Caption>,
    sourceMultiplicity: Option<Caption>,
    targetMultiplicity: Option<Caption>,
    deleteButton: Point,
    deleteGlyph: Point)

  /** The text of an optional multiplicity end, shown only when it is a non-empty string. */
  function MultiplicityCaption(end: Option<string>, at: Point): (c: Option<Caption>)
    ensures c.Some? <==> Truthy(end)
    ensures c.Some? ==> c.value == Caption(at, end.value)
  {
    if Truthy(end) then Some(Caption(at, end.value)) else None
  }

  /**
   * The line for `relationship` from `source` to `target`, whose boxes have
   * the current sizes `sourceSize` and `targetSize`. The centres must differ:
   * for coincident centres the direction is zero and the intersection divides
   * by zero.
   */
  function Render(relationship: DDDRelationship, source: DDDConcept, target: DDDConcept, sourceSize: Size, targetSize: Size): (v: LineLayout)
    requires Positive(sourceSize) && Positive(targetSize)
    requires Center(source.position, sourceSize) != Center(target.position, targetSize)
    ensures OnBoundary(v.start, Center(source.position, sourceSize), sourceSize)
    ensures OnBoundary(v.end, Center(target.position, targetSize), targetSize)
    ensures (v.start, v.end) == Endpoints(source.position, sourceSize, target.position, targetSize)
    ensures var style := StyleFor(relationship.kind);
            v.stroke == style.lineColor && v.strokeWidth == style.lineWidth && v.dash == DashFor(style.lineType)
    ensures var mid := Midpoint(v.start, v.end);
            && (v.caption.Some? <==> Truthy(relationship.labelText))
            && (v.caption.Some? ==> v.caption.value == Caption(Point(mid.x, mid.y - 10.0), relationship.labelText.value))
            && v.deleteButton == Point(mid.x, mid.y + 10.0)
            && v.deleteGlyph == Point(mid.x, mid.y + 14.0)
    ensures v.sourceMultiplicity.Some? <==> relationship.multiplicity.Some? && Truthy(relationship.multiplicity.value.source)
    ensures v.targetMultiplicity.Some? <==> relationship.multiplicity.Some? && Truthy(relationship.multiplicity.value.target)
    ensures v.sourceMultiplicity.Some? ==>
              v.sourceMultiplicity.value == Caption(Offset(Along(v.start, v.end, 0.2), 0.0, -5.0), relationship.multiplicity.value.source.value)
    ensures v.targetMultiplicity.Some? ==>
              v.targetMultiplicity.value == Caption(Offset(Along(v.end, v.start, 0.2), 0.0, -5.0), relationship.multiplicity.value.target.value)
  {
    var ends := Endpoints(source.position, sourceSize, target.position, targetSize);
    var (s, t) := ends;
    var style := StyleFor(relationship.kind);
    var mid := Point((s.x + t.x) / 2.0, (s.y + t.y) / 2.0);
    var caption := if Truthy(relationship.labelText) then Some(Caption(Point(mid.x, mid.y - 10.0), relationship.labelText.value)) else None;
    var sourceAt := Point(s.x + (t.x - s.x) * 0.2, s.y + (t.y - s.y) * 0.2 - 5.0);
    var targetAt := Point(t.x - (t.x - s.x) * 0.2, t.y - (t.y - s.y) * 0.2 - 5.0);
    var (sm, tm) := match relationship.multiplicity
      case Some(m) => (MultiplicityCaption(m.source, sourceAt), MultiplicityCaption(m.target, targetAt))
      case None => (None, None);
    LineLayout(s, t, style.lineColor, style.lineWidth, DashFor(style.lineType), caption, sm, tm,
               Point(mid.x, mid.y + 10.0), Point(mid.x, mid.y + 14.0))
  }

  /** Each multiplicity caption is nearer its own end of the line than the other end. */
  lemma MultiplicityNearItsEnd(relationship: DDDRelationship, source: DDDConcept, target: DDDConcept, sourceSize: Size, targetSize: Size)
    requires Positive(sourceSize) && Positive(targetSize)
    requires Center(source.position, sourceSize) != Center(target.position, targetSize)
    ensures var v := Render(relationship, source, target, sourceSize, targetSize);
            && (v.sourceMultiplicity.Some? ==> NearerFirst(Offset(v.sourceMultiplicity.value.at, 0.0, 5.0), v.start, v.end))
            && (v.targetMultiplicity.Some? ==> NearerFirst(Offset(v.targetMultiplicity.value.at, 0.0, 5.0), v.end, v.start))
  {
    var v := Render(relationship, source, target, sourceSize, targetSize);
    if v.sourceMultiplicity.Some? {
      AlongFifthNearer(v.start, v.end);
    }
    if v.targetMultiplicity.Some? {
      AlongFifthNearer(v.end, v.start);
    }
  }

  /** On each axis, `p` is no farther from `a` than from `b`. */
  predicate NearerFirst(p: Point, a: Point, b: Point) {
    Abs(p.x - a.x) <= Abs(p.x - b.x) && Abs(p.y - a.y) <= Abs(p.y - b.y)
  }

  lemma AlongFifthNearer(a: Point, b: Point)
    ensures NearerFirst(Offset(Offset(Along(a, b, 0.2), 0.0, -5.0), 0.0, 5.0), a, b)
  {
    var p := Along(a, b, 0.2);
    assert Offset(Offset(p, 0.0, -5.0), 0.0, 5.0) == p;
  }

  /** A relationship of a DDD kind is drawn with that kind's table style. */
  lemma KnownKindStyle(k: RelationKind, relationship: DDDRelationship, source: DDDConcept, target: DDDConcept, sourceSize: Size, targetSize: Size)
    requires relationship.kind == RelationValue(k)
    requires Positive(sourceSize) && Positive(targetSize)
    requires Center(source.position, sourceSize) != Center(target.position, targetSize)
    ensures var v := Render(relationship, source, target, sourceSize, targetSize);
            v.stroke == StyleOf(k).lineColor && v.strokeWidth == StyleOf(k).lineWidth
            && (v.dash.Some? <==> StyleOf(k).lineType == Dashed)
  {
    StyleTableShape(k);
  }
}
