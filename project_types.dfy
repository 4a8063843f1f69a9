/**
 * The persisted project model: project metadata, bounded contexts, DDD
 * concepts and relationships, and the two per-mode designs.
 */
module ProjectTypes {
  import opened Wrappers
  import opened Geometry
  import opened RelationshipTypes

  /** The two editing modes; each keeps its own concepts and relationships. */
  datatype EditMode = Uml | ConceptDesign

  /** The stored relationship-type strings of concept-design mode. */
  const DependencyValue: string := "dependency"
  const CollaborationValue: string := "collaboration"

  /** The relationship types a concept-design connection can have. */
  datatype ConceptRelationType = DependencyRelation | CollaborationRelation

  function ConceptRelationValue(t: ConceptRelationType): (s: string)
    ensures s == DependencyValue <==> t == DependencyRelation
    ensures s == CollaborationValue <==> t == CollaborationRelation
  {
    match t
    case DependencyRelation => DependencyValue
    case CollaborationRelation => CollaborationValue
  }

  datatype Project = Project(
    id: string,
    name: string,
    description: Option<string>,
    version: string,
    createdAt: string,
    updatedAt: string,
    author: Option<string>,
    tags: Option<seq<string>>,
    editMode: Option<EditMode>)

  datatype BoundedContext = BoundedContext(
    id: string,
    name: string,
    description: string,
    color: string,
    position: Point,
    size: Size)

  datatype DDDConcept = DDDConcept(
    id: string,
    name: string,
    kind: ConceptKind,
    position: Point,
    boundedContextId: string,
    description: Option<string>,
    properties: Option<seq<string>>,
    methods: Option<seq<string>>)

  datatype Multiplicity = Multiplicity(source: Option<string>, target: Option<string>)

  /**
   * A relationship. `kind` is the stored type string: a DDD relationship kind
   * in UML mode, `"dependency"` or `"collaboration"` in concept-design mode.
   */
  datatype DDDRelationship = DDDRelationship(
    id: string,
    sourceId: string,
    targetId: string,
    kind: string,
    labelText: Option<string>,
    stereotype: Option<string>,
    multiplicity: Option<Multiplicity>)

  datatype Design = Design(concepts: seq<DDDConcept>, relationships: seq<DDDRelationship>)

  const EmptyDesign := Design([], [])

  /**
   * A project as it is found in storage. Data written before the two designs
   * existed lacks `conceptDesign` and `umlDesign` and may carry top-level
   * `concepts` and `relationships`; any part may be missing.
   */
  datatype ProjectData = ProjectData(
    project: Project,
    boundedContexts: Option<seq<BoundedContext>>,
    conceptDesign: Option<Design>,
    umlDesign: Option<Design>,
    concepts: Option<seq<DDDConcept>>,
    relationships: Option<seq<DDDRelationship>>)

  /** Data in the two-design format. */
  predicate IsCurrentFormat(d: ProjectData) {
    d.conceptDesign.Some? && d.umlDesign.Some?
  }

  /** The design kept for a mode, empty when it is missing. */
  function DesignOf(d: ProjectData, mode: EditMode): Design {
    match mode
    case ConceptDesign => d.conceptDesign.GetOr(EmptyDesign)
    case Uml => d.umlDesign.GetOr(EmptyDesign)
  }

  /** A length that counts a missing list as empty (`xs?.length || 0`). */
  function OptLength<T>(xs: Option<seq<T>>): nat {
    match xs
    case Some(s) => |s|
    case None => 0
  }

  /** True when some concept has the given id. */
  predicate HasConcept(concepts: seq<DDDConcept>, id: string) {
    exists i :: 0 <= i < |concepts| && concepts[i].id == id
  }

  /** True when some context has the given id. */
  predicate HasContext(contexts: seq<BoundedContext>, id: string) {
    exists i :: 0 <= i < |contexts| && contexts[i].id == id
  }

  /** Every concept lies in a context that exists. */
  predicate ConceptsPlaced(contexts: seq<BoundedContext>, concepts: seq<DDDConcept>) {
    forall i :: 0 <= i < |concepts| ==> HasContext(contexts, concepts[i].boundedContextId)
  }

  /** Every relationship joins two concepts that exist. */
  predicate RelationshipsResolved(concepts: seq<DDDConcept>, relationships: seq<DDDRelationship>) {
    forall i :: 0 <= i < |relationships| ==>
      HasConcept(concepts, relationships[i].sourceId) && HasConcept(concepts, relationships[i].targetId)
  }
}
