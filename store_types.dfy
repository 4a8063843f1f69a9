/**
 * The entities of the original single-board editor whose state lives in the
 * `architecture` store: concepts, relationships and bounded contexts.
 */
module StoreTypes {
  import opened Wrappers
  import opened Geometry

  datatype RelationType = Dependency | Collaboration

  datatype Concept = Concept(
    id: string,
    name: string,
    description: Option<string>,
    position: Point,
    boundedContextId: string)

  datatype Relationship = Relationship(
    id: string,
    sourceId: string,
    targetId: string,
    kind: RelationType,
    labelText: Option<string>,
    description: Option<string>)

  datatype BoundedContext = BoundedContext(
    id: string,
    name: string,
    description: Option<string>,
    color: string,
    position: Point,
    size: Size)

  /** Which board is shown. */
  datatype View = Global | ContextBoard

  /** The payloads of the add actions: an entity without its id. */
  datatype ConceptDraft = ConceptDraft(name: string, description: Option<string>, position: Point, boundedContextId: string)
  datatype RelationshipDraft = RelationshipDraft(sourceId: string, targetId: string, kind: RelationType, labelText: Option<string>, description: Option<string>)
  datatype ContextDraft = ContextDraft(name: string, description: Option<string>, color: string, position: Point, size: Size)

  function ConceptFrom(d: ConceptDraft, id: string): Concept {
    Concept(id, d.name, d.description, d.position, d.boundedContextId)
  }

  function RelationshipFrom(d: RelationshipDraft, id: string): Relationship {
    Relationship(id, d.sourceId, d.targetId, d.kind, d.labelText, d.description)
  }

  function ContextFrom(d: ContextDraft, id: string): BoundedContext {
    BoundedContext(id, d.name, d.description, d.color, d.position, d.size)
  }

  /** The label a new relationship of the given type receives. */
  function DefaultLabel(kind: RelationType): string {
    match kind
    case Dependency => "依赖"
    case Collaboration => "协作"
  }

  predicate HasContext(contexts: seq<BoundedContext>, id: string) {
    exists i :: 0 <= i < |contexts| && contexts[i].id == id
  }

  /** The concept with the given id that lies in the given context. */
  predicate InContext(concepts: seq<Concept>, id: string, contextId: string) {
    exists i :: 0 <= i < |concepts| && concepts[i].id == id && concepts[i].boundedContextId == contextId
  }

  /** Every concept lies in a context that exists. */
  predicate ConceptsPlaced(contexts: seq<BoundedContext>, concepts: seq<Concept>) {
    forall i :: 0 <= i < |concepts| ==> HasContext(contexts, concepts[i].boundedContextId)
  }

  /** Every relationship joins two concepts of one and the same context. */
  predicate RelationshipsInternal(concepts: seq<Concept>, relationships: seq<Relationship>) {
    forall i :: 0 <= i < |relationships| ==>
      exists j :: 0 <= j < |concepts| && concepts[j].id == relationships[i].sourceId
        && InContext(concepts, relationships[i].targetId, concepts[j].boundedContextId)
  }
}
