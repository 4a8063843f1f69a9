/**
 * The straight line of the context board: from a fixed offset inside one
 * concept to the same offset inside the other, with a label badge and a
 * delete button around the midpoint.
 */
module ConnectionLine {
  import opened Wrappers
  import opened Geometry
  import opened StoreTypes

  /** Where on a concept card a line is attached: half of an assumed 80×32 card. */
  function Anchor(c: Concept): (p: Point)
    ensures p.x - c.position.x == 40.0 && p.y - c.position.y == 16.0
  {
    Point(c.position.x + 40.0, c.position.y + 16.0)
  }

  /** A dependency is drawn blue, anything else green. */
  function LineColor(kind: RelationType): (color: string)
    ensures color == "#3B82F6" <==> kind == Dependency
    ensures color == "#3B82F6" || color == "#10B981"
  {
    if kind == Dependency then "#3B82F6" else "#10B981"
  }

  /** A rectangle by its top-left corner and size. */
  datatype Box = Box(x: real, y: real, width: real, height: real)

  function BoxCenter(b: Box): Point {
    Point(b.x + b.width / 2.0, b.y + b.height / 2.0)
  }

  /** What is drawn for one relationship; `deleteId` is what the delete button reports. */
  datatype LineLayout = LineLayout(
    start: Point,
    end: Point,
    color: string,
    badge: Box,
    captionAt: Point,
    caption: string,
    deleteButton: Point,
    deleteId: string)

  function Render(relationship: Relationship, source: Concept, target: Concept): (v: LineLayout)
    ensures v.start == Anchor(source) && v.end == Anchor(target)
    ensures v.color == LineColor(relationship.kind)
    ensures var mid := Midpoint(v.start, v.end);
            && BoxCenter(v.badge) == mid && v.badge.width == 60.0 && v.badge.height == 20.0
            && v.captionAt == Point(mid.x, mid.y + 4.0)
            && v.deleteButton == Point(mid.x + 35.0, mid.y - 15.0)
    ensures v.caption == relationship.labelText.GetOr("")
    ensures v.deleteId == relationship.id
  {
    var s := Anchor(source);
    var t := Anchor(target);
    var midX := (s.x + t.x) / 2.0;
    var midY := (s.y + t.y) / 2.0;
    LineLayout(s, t, LineColor(relationship.kind), Box(midX - 30.0, midY - 10.0, 60.0, 20.0),
               Point(midX, midY + 4.0), relationship.labelText.GetOr(""), Point(midX + 35.0, midY - 15.0), relationship.id)
  }

  /** Moving both concepts by the same offset moves the whole drawing by that offset. */
  lemma RenderTranslates(relationship: Relationship, source: Concept, target: Concept, dx: real, dy: real)
    ensures var v := Render(relationship, source, target);
            var w := Render(relationship, source.(position := Point(source.position.x + dx, source.position.y + dy)),
                            target.(position := Point(target.position.x + dx, target.position.y + dy)));
            && w.start == Point(v.start.x + dx, v.start.y + dy)
            && w.end == Point(v.end.x + dx, v.end.y + dy)
            && w.deleteButton == Point(v.deleteButton.x + dx, v.deleteButton.y + dy)
            && w.captionAt == Point(v.captionAt.x + dx, v.captionAt.y + dy)
  {
  }
}
