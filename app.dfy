/**
 * The project editor: the contexts, concepts and relationships being edited,
 * the per-mode designs they are stashed into, the context board's derived
 * lists, the two-click connection mode and the add/edit/delete handlers.
 */
module App {
  import opened Wrappers
  import opened Geometry
  import opened Seqs
  import opened RelationshipTypes
  import opened ProjectTypes
  import opened Modal
  import opened ConnectionMode

  // ---------------------------------------------------------------------------
  // Position changes and deletes

  /** `handleContextPositionChange`: the context with `id` moves to `position`. */
  function MoveContext(contexts: seq<BoundedContext>, id: string, position: Point): (r: seq<BoundedContext>)
    ensures |r| == |contexts|
    ensures forall i :: 0 <= i < |r| && contexts[i].id == id ==> r[i] == contexts[i].(position := position)
    ensures forall i :: 0 <= i < |r| && contexts[i].id != id ==> r[i] == contexts[i]
  {
    MapWhere(contexts, (c: BoundedContext) => c.id == id, (c: BoundedContext) => c.(position := position))
  }

  /** `handleConceptPositionChange`: the concept with `id` moves to `position`. */
  function MoveConcept(concepts: seq<DDDConcept>, id: string, position: Point): (r: seq<DDDConcept>)
    ensures |r| == |concepts|
    ensures forall i :: 0 <= i < |r| && concepts[i].id == id ==> r[i] == concepts[i].(position := position)
    ensures forall i :: 0 <= i < |r| && concepts[i].id != id ==> r[i] == concepts[i]
  {
    MapWhere(concepts, (c: DDDConcept) => c.id == id, (c: DDDConcept) => c.(position := position))
  }

  /** Moving keeps every id in its place, so the same ids resolve before and after. */
  lemma MoveKeepsReferences(contexts: seq<BoundedContext>, concepts: seq<DDDConcept>, relationships: seq<DDDRelationship>,
                            contextId: string, conceptId: string, p: Point, q: Point)
    requires ConceptsPlaced(contexts, concepts) && RelationshipsResolved(concepts, relationships)
    ensures ConceptsPlaced(MoveContext(contexts, contextId, p), MoveConcept(concepts, conceptId, q))
    ensures RelationshipsResolved(MoveConcept(concepts, conceptId, q), relationships)
  {
    var cs := MoveContext(contexts, contextId, p);
    var ks := MoveConcept(concepts, conceptId, q);
    forall i | 0 <= i < |ks|
      ensures HasContext(cs, ks[i].boundedContextId)
    {
      var j :| 0 <= j < |contexts| && contexts[j].id == concepts[i].boundedContextId;
      assert cs[j].id == contexts[j].id;
    }
    forall i | 0 <= i < |relationships|
      ensures HasConcept(ks, relationships[i].sourceId) && HasConcept(ks, relationships[i].targetId)
    {
      var a :| 0 <= a < |concepts| && concepts[a].id == relationships[i].sourceId;
      var b :| 0 <= b < |concepts| && concepts[b].id == relationships[i].targetId;
      assert ks[a].id == concepts[a].id && ks[b].id == concepts[b].id;
    }
  }

  /**
   * `handleDeleteContext`: the context goes, and so does every concept placed
   * in it. Relationships are not touched.
   */
  function DeleteContext(contexts: seq<BoundedContext>, concepts: seq<DDDConcept>, id: string): (r: (seq<BoundedContext>, seq<DDDConcept>))
    ensures forall c :: c in r.0 <==> c in contexts && c.id != id
    ensures forall c :: c in r.1 <==> c in concepts && c.boundedContextId != id
    ensures IsSubsequence(r.0, contexts) && IsSubsequence(r.1, concepts)
  {
    (Filter(contexts, (c: BoundedContext) => c.id != id), Filter(concepts, (c: DDDConcept) => c.boundedContextId != id))
  }

  /** Deleting a context never leaves a concept without its context. */
  lemma DeleteContextKeepsPlaced(contexts: seq<BoundedContext>, concepts: seq<DDDConcept>, id: string)
    requires ConceptsPlaced(contexts, concepts)
    ensures var (cs, ks) := DeleteContext(contexts, concepts, id);
            ConceptsPlaced(cs, ks) && !HasContext(cs, id)
  {
    var (cs, ks) := DeleteContext(contexts, concepts, id);
    forall i | 0 <= i < |ks|
      ensures HasContext(cs, ks[i].boundedContextId)
    {
      assert ks[i] in ks;
      var k :| 0 <= k < |concepts| && concepts[k] == ks[i];
      var j :| 0 <= j < |contexts| && contexts[j].id == concepts[k].boundedContextId;
      assert contexts[j] in cs;
      var m :| 0 <= m < |cs| && cs[m] == contexts[j];
    }
    if HasContext(cs, id) {
      var m :| 0 <= m < |cs| && cs[m].id == id;
      assert false;
    }
  }

  /** `handleDeleteConcept`: the concept goes, and so does every relationship that starts or ends at it. */
  function DeleteConcept(concepts: seq<DDDConcept>, relationships: seq<DDDRelationship>, id: string): (r: (seq<DDDConcept>, seq<DDDRelationship>))
    ensures forall c :: c in r.0 <==> c in concepts && c.id != id
    ensures forall x :: x in r.1 <==> x in relationships && x.sourceId != id && x.targetId != id
    ensures IsSubsequence(r.0, concepts) && IsSubsequence(r.1, relationships)
  {
    (Filter(concepts, (c: DDDConcept) => c.id != id),
     Filter(relationships, (x: DDDRelationship) => x.sourceId != id && x.targetId != id))
  }

  /** A concept other than the deleted one is still found after the deletion. */
  lemma KeptConceptFound(concepts: seq<DDDConcept>, ks: seq<DDDConcept>, cid: string, id: string)
    requires HasConcept(concepts, cid) && cid != id
    requires forall c :: c in ks <==> c in concepts && c.id != id
    ensures HasConcept(ks, cid)
  {
    var a :| 0 <= a < |concepts| && concepts[a].id == cid;
    assert concepts[a] in ks;
    var a' :| 0 <= a' < |ks| && ks[a'] == concepts[a];
  }

  /** Deleting a concept never leaves a relationship pointing at a missing concept. */
  lemma DeleteConceptKeepsResolved(concepts: seq<DDDConcept>, relationships: seq<DDDRelationship>, id: string)
    requires RelationshipsResolved(concepts, relationships)
    ensures var (ks, rs) := DeleteConcept(concepts, relationships, id);
            RelationshipsResolved(ks, rs) && !HasConcept(ks, id)
  {
    var (ks, rs) := DeleteConcept(concepts, relationships, id);
    forall i | 0 <= i < |rs|
      ensures HasConcept(ks, rs[i].sourceId) && HasConcept(ks, rs[i].targetId)
    {
      assert rs[i] in rs;
      var k :| 0 <= k < |relationships| && relationships[k] == rs[i];
      KeptConceptFound(concepts, ks, rs[i].sourceId, id);
      KeptConceptFound(concepts, ks, rs[i].targetId, id);
    }
    if HasConcept(ks, id) {
      var m :| 0 <= m < |ks| && ks[m].id == id;
      assert false;
    }
  }

  /** `handleDeleteRelationship`: every relationship with that id goes. */
  function DeleteRelationship(relationships: seq<DDDRelationship>, id: string): (r: seq<DDDRelationship>)
    ensures forall x :: x in r <==> x in relationships && x.id != id
    ensures IsSubsequence(r, relationships)
  {
    Filter(relationships, (x: DDDRelationship) => x.id != id)
  }

  // ---------------------------------------------------------------------------
  // The context board's derived lists

  /** `concepts.find(c => c.id === id)`. */
  function ConceptById(concepts: seq<DDDConcept>, id: string): (r: Option<DDDConcept>)
    ensures r.Some? ==> r.value in concepts && r.value.id == id
    ensures r.None? <==> !HasConcept(concepts, id)
    ensures r.Some? ==> exists i :: 0 <= i < |concepts| && concepts[i] == r.value && forall j :: 0 <= j < i ==> concepts[j].id != id
  {
    var r := Find(concepts, (c: DDDConcept) => c.id == id);
    assert forall i :: 0 <= i < |concepts| ==> concepts[i] in concepts;
    assert r.Some? ==> HasConcept(concepts, id) by {
      if r.Some? {
        var i :| 0 <= i < |concepts| && concepts[i] == r.value;
      }
    }
    r
  }

  /** The concept found for `id` lies in the context `contextId`. */
  predicate ResolvesInto(concepts: seq<DDDConcept>, id: string, contextId: string) {
    var c := ConceptById(concepts, id);
    c.Some? && c.value.boundedContextId == contextId
  }

  /** `contextConcepts`: the concepts of the current context; none when there is no current context. */
  function ContextConcepts(concepts: seq<DDDConcept>, current: Option<string>): (r: seq<DDDConcept>)
    ensures !Truthy(current) ==> r == []
    ensures Truthy(current) ==> forall c :: c in r <==> c in concepts && c.boundedContextId == current.value
    ensures IsSubsequence(r, concepts)
  {
    if Truthy(current) then Filter(concepts, (c: DDDConcept) => c.boundedContextId == current.value) else []
  }

  /**
   * `contextRelationships`: the relationships whose source and target both
   * resolve to concepts of the current context; none without a current context.
   */
  function ContextRelationships(concepts: seq<DDDConcept>, relationships: seq<DDDRelationship>, current: Option<string>): (r: seq<DDDRelationship>)
    ensures !Truthy(current) ==> r == []
    ensures Truthy(current) ==> forall x :: x in r <==>
              x in relationships && ResolvesInto(concepts, x.sourceId, current.value) && ResolvesInto(concepts, x.targetId, current.value)
    ensures IsSubsequence(r, relationships)
  {
    if Truthy(current) then
      Filter(relationships, (x: DDDRelationship) =>
        ResolvesInto(concepts, x.sourceId, current.value) && ResolvesInto(concepts, x.targetId, current.value))
    else []
  }

  /**
   * Every relationship of the board has both ends among the board's concepts,
   * so none of them is skipped when the lines are drawn.
   */
  lemma BoardRelationshipsDrawn(concepts: seq<DDDConcept>, relationships: seq<DDDRelationship>, current: Option<string>)
    ensures forall x :: x in ContextRelationships(concepts, relationships, current) ==>
              && ConceptById(concepts, x.sourceId).Some? && ConceptById(concepts, x.sourceId).value in ContextConcepts(concepts, current)
              && ConceptById(concepts, x.targetId).Some? && ConceptById(concepts, x.targetId).value in ContextConcepts(concepts, current)
  {
  }

  /** Some relationship of `relationships` starts or ends at `id`. */
  predicate Endpoint(relationships: seq<DDDRelationship>, id: string) {
    exists x :: x in relationships && (x.sourceId == id || x.targetId == id)
  }

  /**
   * `getIsolatedConcepts`: in concept-design mode with a current context, the
   * context's concepts that no board relationship touches; otherwise none.
   */
  function IsolatedConcepts(mode: EditMode, concepts: seq<DDDConcept>, relationships: seq<DDDRelationship>, current: Option<string>): (r: seq<DDDConcept>)
    ensures mode != ConceptDesign || !Truthy(current) ==> r == []
    ensures mode == ConceptDesign && Truthy(current) ==> forall c :: c in r <==>
              c in ContextConcepts(concepts, current) && !Endpoint(ContextRelationships(concepts, relationships, current), c.id)
  {
    if mode != ConceptDesign || !Truthy(current) then []
    else
      var board := ContextRelationships(concepts, relationships, current);
      Filter(ContextConcepts(concepts, current), (c: DDDConcept) => !Endpoint(board, c.id))
  }

  /** Connecting two concepts of the board takes both of them out of the isolated list. */
  lemma ConnectingEndsIsolation(mode: EditMode, concepts: seq<DDDConcept>, relationships: seq<DDDRelationship>, current: Option<string>,
                                x: DDDRelationship, c: DDDConcept)
    requires Truthy(current)
    requires ResolvesInto(concepts, x.sourceId, current.value) && ResolvesInto(concepts, x.targetId, current.value)
    requires c.id == x.sourceId || c.id == x.targetId
    ensures c !in IsolatedConcepts(mode, concepts, relationships + [x], current)
  {
    var rs := relationships + [x];
    assert x in rs;
    assert x in ContextRelationships(concepts, rs, current);
  }

  // ---------------------------------------------------------------------------
  // Connection mode

  /** The relationship a connecting click creates: `rel_` plus a fresh stamp, labelled by its type. */
  function NewConnection(stamp: string, sourceId: string, targetId: string, kind: ConceptRelationType): (r: DDDRelationship)
    ensures r.id == "rel_" + stamp && r.sourceId == sourceId && r.targetId == targetId
    ensures r.kind == ConceptRelationValue(kind)
    ensures r.labelText == Some(if kind == DependencyRelation then "依赖" else "协作")
    ensures r.stereotype.None? && r.multiplicity.None?
  {
    DDDRelationship("rel_" + stamp, sourceId, targetId, ConceptRelationValue(kind),
                    Some(if kind == DependencyRelation then "依赖" else "协作"), None, None)
  }

  // ---------------------------------------------------------------------------
  // Edit modes

  /** What the editor holds while a project is open. */
  datatype Workspace = Workspace(
    data: ProjectData,
    mode: EditMode,
    contexts: seq<BoundedContext>,
    concepts: seq<DDDConcept>,
    relationships: seq<DDDRelationship>)

  /**
   * The project data with the editor's contexts and the current mode's
   * concepts and relationships written back; the other mode's design is kept.
   */
  function Stash(w: Workspace): (d: ProjectData)
    ensures d.project == w.data.project && d.boundedContexts == Some(w.contexts)
    ensures IsCurrentFormat(w.data) ==> IsCurrentFormat(d)
    ensures DesignOf(d, w.mode) == Design(w.concepts, w.relationships)
    ensures forall m :: m != w.mode ==> DesignOf(d, m) == DesignOf(w.data, m)
    ensures d.concepts == w.data.concepts && d.relationships == w.data.relationships
  {
    var current := Some(Design(w.concepts, w.relationships));
    w.data.(boundedContexts := Some(w.contexts),
            conceptDesign := if w.mode == ConceptDesign then current else w.data.conceptDesign,
            umlDesign := if w.mode == Uml then current else w.data.umlDesign)
  }

  /** `handleEditModeChange`: stash the current mode's data, then load the target mode's. */
  function SwitchMode(w: Workspace, target: EditMode): (r: Workspace)
    requires IsCurrentFormat(w.data)
    ensures IsCurrentFormat(r.data) && r.data == Stash(w)
    ensures r.mode == target && r.contexts == w.contexts
    ensures Design(r.concepts, r.relationships) == DesignOf(r.data, target)
  {
    var d := Stash(w);
    var loaded := DesignOf(d, target);
    Workspace(d, target, w.contexts, loaded.concepts, loaded.relationships)
  }

  /** Switching to another mode and back restores the concepts and relationships being edited. */
  lemma SwitchRoundTrip(w: Workspace, other: EditMode)
    requires IsCurrentFormat(w.data)
    ensures var back := SwitchMode(SwitchMode(w, other), w.mode);
            back.concepts == w.concepts && back.relationships == w.relationships
            && back.contexts == w.contexts && back.mode == w.mode
  {
    var there := SwitchMode(w, other);
    var back := SwitchMode(there, w.mode);
    if other != w.mode {
      assert DesignOf(back.data, w.mode) == DesignOf(there.data, w.mode);
    }
  }

  // ---------------------------------------------------------------------------
  // Saving the dialog

  /** `{ ...ctx, ...item }` for an edited context. */
  function MergeContext(c: BoundedContext, item: SavedItem): (r: BoundedContext)
    requires item.SavedContext?
    ensures r.id == c.id && r.position == c.position && r.size == c.size
    ensures r.name == item.name && r.description == item.description && r.color == item.color
  {
    c.(name := item.name, description := item.description, color := item.color)
  }

  /** `{ ...concept, ...item }` for an edited concept. */
  function MergeConcept(c: DDDConcept, item: SavedItem): (r: DDDConcept)
    requires item.SavedConcept?
    ensures r.id == c.id && r.position == c.position && r.boundedContextId == c.boundedContextId
    ensures r.name == item.name && r.kind == item.kind && r.description == Some(item.description)
    ensures r.properties == Some(item.properties) && r.methods == Some(item.methods)
  {
    c.(name := item.name, kind := item.kind, description := Some(item.description),
       properties := Some(item.properties), methods := Some(item.methods))
  }

  /** A new context: `bc_` plus a fresh stamp, at (100, 100), 300×200, with the dialog's fields. */
  function NewContext(item: SavedItem, stamp: string): (c: BoundedContext)
    requires item.SavedContext?
    ensures c.id == "bc_" + stamp && c.position == Point(100.0, 100.0) && c.size == Size(300.0, 200.0)
    ensures c.name == item.name && c.description == item.description && c.color == item.color
  {
    BoundedContext("bc_" + stamp, item.name, item.description, item.color, Point(100.0, 100.0), Size(300.0, 200.0))
  }

  /** `contexts.find(ctx => ctx.id === id)`. */
  function ContextById(contexts: seq<BoundedContext>, id: string): (r: Option<BoundedContext>)
    ensures r.Some? ==> r.value in contexts && r.value.id == id
    ensures r.None? <==> !HasContext(contexts, id)
    ensures r.Some? ==> exists i :: 0 <= i < |contexts| && contexts[i] == r.value && forall j :: 0 <= j < i ==> contexts[j].id != id
  {
    var r := Find(contexts, (c: BoundedContext) => c.id == id);
    assert forall i :: 0 <= i < |contexts| ==> contexts[i] in contexts;
    assert r.Some? ==> HasContext(contexts, id) by {
      if r.Some? {
        var i :| 0 <= i < |contexts| && contexts[i] == r.value;
      }
    }
    r
  }

  /**
   * Adding a concept from the dialog: only when the target context exists,
   * as `c_` plus a fresh stamp, 50 right and 50 below the context's corner.
   */
  function AddConcept(contexts: seq<BoundedContext>, concepts: seq<DDDConcept>, contextId: Option<string>, item: SavedItem, stamp: string): (r: seq<DDDConcept>)
    requires item.SavedConcept?
    ensures r == concepts <==> contextId.None? || !HasContext(contexts, contextId.value)
    ensures r != concepts ==>
              exists ctx :: ctx in contexts && ctx.id == contextId.value && r == concepts + [NewConcept(item, ctx, stamp)]
  {
    match contextId
    case None => concepts
    case Some(id) =>
      match ContextById(contexts, id)
      case None => concepts
      case Some(ctx) =>
        assert HasContext(contexts, id) by {
          var i :| 0 <= i < |contexts| && contexts[i] == ctx;
        }
        assert |concepts + [NewConcept(item, ctx, stamp)]| != |concepts|;
        concepts + [NewConcept(item, ctx, stamp)]
  }

  function NewConcept(item: SavedItem, ctx: BoundedContext, stamp: string): (c: DDDConcept)
    requires item.SavedConcept?
    ensures c.id == "c_" + stamp && c.boundedContextId == ctx.id
    ensures c.position == Point(ctx.position.x + 50.0, ctx.position.y + 50.0)
    ensures c.name == item.name && c.kind == item.kind && c.description == Some(item.description)
    ensures c.properties == Some(item.properties) && c.methods == Some(item.methods)
  {
    DDDConcept("c_" + stamp, item.name, item.kind, Point(ctx.position.x + 50.0, ctx.position.y + 50.0), ctx.id,
               Some(item.description), Some(item.properties), Some(item.methods))
  }

  /** A concept added from the dialog always lands in a context that exists. */
  lemma AddConceptKeepsPlaced(contexts: seq<BoundedContext>, concepts: seq<DDDConcept>, contextId: Option<string>, item: SavedItem, stamp: string)
    requires item.SavedConcept? && ConceptsPlaced(contexts, concepts)
    ensures ConceptsPlaced(contexts, AddConcept(contexts, concepts, contextId, item, stamp))
  {
    var r := AddConcept(contexts, concepts, contextId, item, stamp);
    if r != concepts {
      var ctx :| ctx in contexts && ctx.id == contextId.value && r == concepts + [NewConcept(item, ctx, stamp)];
      var j :| 0 <= j < |contexts| && contexts[j] == ctx;
      assert r[|concepts|].boundedContextId == ctx.id;
      forall i | 0 <= i < |r|
        ensures HasContext(contexts, r[i].boundedContextId)
      {
        if i < |concepts| {
          assert r[i] == concepts[i];
        }
      }
    }
  }

  // ---------------------------------------------------------------------------
  // The editor

  /** The three screens: project list, project board, context board. */
  datatype Screen = ProjectManager | ProjectEditor | ContextEditor

  class Editor {
    var screen: Screen
    var currentContextId: Option<string>
    var projectData: Option<ProjectData>
    var hasUnsavedChanges: bool
    var editMode: EditMode
    var isConnectionMode: bool
    var connectionType: ConceptRelationType
    var sourceConceptId: Option<string>
    var boundedContexts: seq<BoundedContext>
    var concepts: seq<DDDConcept>
    var relationships: seq<DDDRelationship>
    var selectedContextId: Option<string>
    var selectedConceptId: Option<string>
    var isModalOpen: bool
    var modalForContext: bool
    var editingItem: Item

    /** Open project data is in the two-design format, and the item being edited is of the dialog's kind. */
    predicate Valid()
      reads this
    {
      (projectData.Some? ==> IsCurrentFormat(projectData.value))
      && (editingItem.ContextItem? ==> modalForContext)
      && (editingItem.ConceptItem? ==> !modalForContext)
    }

    /** The screen, the board's context and both selections are as before. */
    twostate predicate NavigationKept()
      reads this
    {
      screen == old(screen) && currentContextId == old(currentContextId)
      && selectedContextId == old(selectedContextId) && selectedConceptId == old(selectedConceptId)
    }

    /** The connection mode, its relation kind and its chosen source are as before. */
    twostate predicate ConnectionKept()
      reads this
    {
      isConnectionMode == old(isConnectionMode) && connectionType == old(connectionType) && sourceConceptId == old(sourceConceptId)
    }

    /** The dialog's visibility, kind and edited item are as before. */
    twostate predicate DialogKept()
      reads this
    {
      isModalOpen == old(isModalOpen) && modalForContext == old(modalForContext) && editingItem == old(editingItem)
    }

    /** The open project and the three edited lists are as before. */
    twostate predicate DataKept()
      reads this
    {
      projectData == old(projectData) && boundedContexts == old(boundedContexts)
      && concepts == old(concepts) && relationships == old(relationships)
    }

    function Current(): Workspace
      reads this
      requires projectData.Some?
    {
      Workspace(projectData.value, editMode, boundedContexts, concepts, relationships)
    }

    constructor()
      ensures Valid() && screen == ProjectManager && projectData.None?
      ensures editMode == Uml && !isConnectionMode && connectionType == DependencyRelation && sourceConceptId.None?
      ensures boundedContexts == [] && concepts == [] && relationships == []
      ensures currentContextId.None? && selectedContextId.None? && selectedConceptId.None?
      ensures !isModalOpen && modalForContext && editingItem == NoItem && !hasUnsavedChanges
    {
      screen := ProjectManager;
      currentContextId := None;
      projectData := None;
      hasUnsavedChanges := false;
      editMode := Uml;
      isConnectionMode := false;
      connectionType := DependencyRelation;
      sourceConceptId := None;
      boundedContexts := [];
      concepts := [];
      relationships := [];
      selectedContextId := None;
      selectedConceptId := None;
      isModalOpen := false;
      modalForContext := true;
      editingItem := NoItem;
    }

    /**
     * The load effect: the loaded project's contexts and the design of its
     * own mode; a project saved before it had a mode opens in UML mode.
     */
    method Loaded(data: ProjectData)
      requires IsCurrentFormat(data) && data.boundedContexts.Some?
      requires Valid()
      modifies this
      ensures Valid() && projectData == Some(data)
      ensures data.project.editMode.Some? ==> editMode == data.project.editMode.value
      ensures data.project.editMode.None? ==> editMode == Uml
      ensures boundedContexts == data.boundedContexts.value
      ensures Design(concepts, relationships) == DesignOf(data, editMode)
      ensures !hasUnsavedChanges
      ensures NavigationKept() && ConnectionKept() && DialogKept()
    {
      projectData := Some(data);
      boundedContexts := data.boundedContexts.value;
      editMode := if data.project.editMode.Some? then data.project.editMode.value else Uml;
      var design := DesignOf(data, editMode);
      concepts := design.concepts;
      relationships := design.relationships;
      hasUnsavedChanges := false;
    }

    /** `handleSaveProject`: what is handed to the project store, if a project is open. */
    function SaveSnapshot(): (d: Option<ProjectData>)
      reads this
      requires Valid()
      ensures d.Some? <==> projectData.Some?
      ensures d.Some? ==> IsCurrentFormat(d.value) && DesignOf(d.value, editMode) == Design(concepts, relationships)
    {
      if projectData.Some? then Some(Stash(Current())) else None
    }

    method ContextPositionChange(id: string, position: Point)
      modifies this
      ensures boundedContexts == MoveContext(old(boundedContexts), id, position) && hasUnsavedChanges
      ensures concepts == old(concepts) && relationships == old(relationships) && projectData == old(projectData)
      ensures editMode == old(editMode) && NavigationKept() && ConnectionKept() && DialogKept()
    {
      boundedContexts := MoveContext(boundedContexts, id, position);
      hasUnsavedChanges := true;
    }

    method ConceptPositionChange(id: string, position: Point)
      modifies this
      ensures concepts == MoveConcept(old(concepts), id, position) && hasUnsavedChanges
      ensures boundedContexts == old(boundedContexts) && relationships == old(relationships) && projectData == old(projectData)
      ensures editMode == old(editMode) && NavigationKept() && ConnectionKept() && DialogKept()
    {
      concepts := MoveConcept(concepts, id, position);
      hasUnsavedChanges := true;
    }

    method DeleteContextClicked(id: string)
      modifies this
      ensures (boundedContexts, concepts) == DeleteContext(old(boundedContexts), old(concepts), id) && hasUnsavedChanges
      ensures relationships == old(relationships) && projectData == old(projectData)
      ensures editMode == old(editMode) && NavigationKept() && ConnectionKept() && DialogKept()
    {
      var r := DeleteContext(boundedContexts, concepts, id);
      boundedContexts := r.0;
      concepts := r.1;
      hasUnsavedChanges := true;
    }

    method DeleteConceptClicked(id: string)
      modifies this
      ensures (concepts, relationships) == DeleteConcept(old(concepts), old(relationships), id) && hasUnsavedChanges
      ensures boundedContexts == old(boundedContexts) && projectData == old(projectData)
      ensures editMode == old(editMode) && NavigationKept() && ConnectionKept() && DialogKept()
    {
      var r := DeleteConcept(concepts, relationships, id);
      concepts := r.0;
      relationships := r.1;
      hasUnsavedChanges := true;
    }

    method DeleteRelationshipClicked(id: string)
      modifies this
      ensures relationships == DeleteRelationship(old(relationships), id) && hasUnsavedChanges
      ensures boundedContexts == old(boundedContexts) && concepts == old(concepts) && projectData == old(projectData)
      ensures editMode == old(editMode) && NavigationKept() && ConnectionKept() && DialogKept()
    {
      relationships := DeleteRelationship(relationships, id);
      hasUnsavedChanges := true;
    }

    /** `handleToggleConnectionMode`: flip the mode and forget any chosen source. */
    method ToggleConnectionMode()
      modifies this
      ensures isConnectionMode == !old(isConnectionMode) && sourceConceptId.None?
      ensures connectionType == old(connectionType) && editMode == old(editMode) && hasUnsavedChanges == old(hasUnsavedChanges)
      ensures DataKept() && NavigationKept() && DialogKept()
    {
      isConnectionMode := !isConnectionMode;
      sourceConceptId := None;
    }

    /** `handleConceptClick`, with `stamp` standing for `Date.now()`. */
    method ConceptClick(conceptId: string, stamp: string)
      modifies this
      ensures var o := Click(old(editMode) == ConceptDesign && old(isConnectionMode), old(sourceConceptId), conceptId);
              && (o.SelectConcept? ==> selectedConceptId == Some(conceptId) && relationships == old(relationships)
                                       && sourceConceptId == old(sourceConceptId) && isConnectionMode == old(isConnectionMode))
              && (o.ChooseSource? ==> sourceConceptId == Some(conceptId) && relationships == old(relationships)
                                      && isConnectionMode && selectedConceptId == old(selectedConceptId))
              && (o.Connect? ==> relationships == old(relationships) + [NewConnection(stamp, o.sourceId, o.targetId, old(connectionType))]
                                 && sourceConceptId.None? && !isConnectionMode && hasUnsavedChanges
                                 && selectedConceptId == old(selectedConceptId))
              && (o.Ignore? ==> relationships == old(relationships) && sourceConceptId == old(sourceConceptId)
                                && isConnectionMode && selectedConceptId == old(selectedConceptId))
      ensures concepts == old(concepts) && boundedContexts == old(boundedContexts) && projectData == old(projectData)
      ensures !Click(old(editMode) == ConceptDesign && old(isConnectionMode), old(sourceConceptId), conceptId).Connect? ==>
                hasUnsavedChanges == old(hasUnsavedChanges)
      ensures editMode == old(editMode) && connectionType == old(connectionType)
      ensures screen == old(screen) && currentContextId == old(currentContextId) && selectedContextId == old(selectedContextId)
      ensures DialogKept()
    {
      match Click(editMode == ConceptDesign && isConnectionMode, sourceConceptId, conceptId)
      case SelectConcept(id) =>
        selectedConceptId := Some(id);
      case ChooseSource(id) =>
        sourceConceptId := Some(id);
      case Connect(s, t) =>
        relationships := relationships + [NewConnection(stamp, s, t, connectionType)];
        sourceConceptId := None;
        isConnectionMode := false;
        hasUnsavedChanges := true;
      case Ignore =>
    }

    /** `handleEditModeChange`; nothing happens while no project is open. */
    method EditModeChange(mode: EditMode)
      requires Valid()
      modifies this
      ensures Valid()
      ensures old(projectData).None? ==>
                editMode == old(editMode) && hasUnsavedChanges == old(hasUnsavedChanges)
                && DataKept() && NavigationKept() && ConnectionKept() && DialogKept()
      ensures old(projectData).Some? ==>
                var w := SwitchMode(old(Current()), mode);
                && projectData == Some(w.data) && editMode == mode
                && concepts == w.concepts && relationships == w.relationships && boundedContexts == old(boundedContexts)
                && !isConnectionMode && sourceConceptId.None? && hasUnsavedChanges
                && connectionType == old(connectionType) && NavigationKept() && DialogKept()
    {
      if projectData.Some? {
        var w := SwitchMode(Current(), mode);
        projectData := Some(w.data);
        editMode := mode;
        concepts := w.concepts;
        relationships := w.relationships;
        isConnectionMode := false;
        sourceConceptId := None;
        hasUnsavedChanges := true;
      }
    }

    /** `handleEnterContext`: open the context board with selection and connection state cleared. */
    method EnterContext(id: string)
      modifies this
      ensures screen == ContextEditor && currentContextId == Some(id)
      ensures selectedContextId.None? && selectedConceptId.None? && !isConnectionMode && sourceConceptId.None?
      ensures concepts == old(concepts) && relationships == old(relationships) && boundedContexts == old(boundedContexts)
      ensures projectData == old(projectData) && DialogKept()
      ensures editMode == old(editMode) && connectionType == old(connectionType) && hasUnsavedChanges == old(hasUnsavedChanges)
    {
      currentContextId := Some(id);
      screen := ContextEditor;
      selectedContextId := None;
      selectedConceptId := None;
      isConnectionMode := false;
      sourceConceptId := None;
    }

    /** `handleBackToProject`: back to the project board. */
    method BackToProject()
      modifies this
      ensures screen == ProjectEditor && currentContextId.None?
      ensures selectedConceptId.None? && !isConnectionMode && sourceConceptId.None?
      ensures selectedContextId == old(selectedContextId)
      ensures concepts == old(concepts) && relationships == old(relationships) && boundedContexts == old(boundedContexts)
      ensures projectData == old(projectData) && DialogKept()
      ensures editMode == old(editMode) && connectionType == old(connectionType) && hasUnsavedChanges == old(hasUnsavedChanges)
    {
      screen := ProjectEditor;
      currentContextId := None;
      selectedConceptId := None;
      isConnectionMode := false;
      sourceConceptId := None;
    }

    /** The context a new concept goes into: the board's context on the context board, the selected one elsewhere. */
    function TargetContext(): Option<string>
      reads this
    {
      if screen == ContextEditor then currentContextId else selectedContextId
    }

    /** `handleEditContext` / `handleEditConcept` / `handleAddContext`: open the dialog. */
    method OpenDialog(forContext: bool, item: Item)
      requires item.ContextItem? ==> forContext
      requires item.ConceptItem? ==> !forContext
      requires Valid()
      modifies this
      ensures Valid() && isModalOpen && modalForContext == forContext && editingItem == item
      ensures DataKept() && NavigationKept() && ConnectionKept()
      ensures editMode == old(editMode) && hasUnsavedChanges == old(hasUnsavedChanges)
    {
      editingItem := item;
      modalForContext := forContext;
      isModalOpen := true;
    }

    /** `handleAddConcept`: the dialog opens only when there is a context to add to. */
    method AddConceptClicked() returns (shown: bool)
      requires Valid()
      modifies this
      ensures Valid() && shown == Truthy(old(TargetContext()))
      ensures shown ==> isModalOpen && !modalForContext && editingItem == NoItem
      ensures !shown ==> DialogKept()
      ensures DataKept() && NavigationKept() && ConnectionKept()
      ensures editMode == old(editMode) && hasUnsavedChanges == old(hasUnsavedChanges)
    {
      shown := Truthy(TargetContext());
      if shown {
        OpenDialog(false, NoItem);
      }
    }

    /** `handleSaveItem`, with `stamp` standing for `Date.now()`. */
    method SaveItem(item: SavedItem, stamp: string)
      requires Valid() && item.SavedContext? == modalForContext
      modifies this
      ensures Valid() && !isModalOpen && editingItem == NoItem && hasUnsavedChanges
      ensures old(modalForContext) && old(editingItem).ContextItem? ==>
                var id := old(editingItem).context.id;
                boundedContexts == MapWhere(old(boundedContexts), (c: BoundedContext) => c.id == id, (c: BoundedContext) => MergeContext(c, item))
      ensures old(modalForContext) && old(editingItem).NoItem? ==> boundedContexts == old(boundedContexts) + [NewContext(item, stamp)]
      ensures old(modalForContext) ==> concepts == old(concepts)
      ensures !old(modalForContext) && old(editingItem).ConceptItem? ==>
                var id := old(editingItem).concept.id;
                concepts == MapWhere(old(concepts), (c: DDDConcept) => c.id == id, (c: DDDConcept) => MergeConcept(c, item))
      ensures !old(modalForContext) && old(editingItem).NoItem? ==>
                concepts == AddConcept(old(boundedContexts), old(concepts), old(TargetContext()), item, stamp)
      ensures !old(modalForContext) ==> boundedContexts == old(boundedContexts)
      ensures relationships == old(relationships) && projectData == old(projectData)
      ensures modalForContext == old(modalForContext) && editMode == old(editMode)
      ensures NavigationKept() && ConnectionKept()
    {
      if modalForContext {
        if editingItem.ContextItem? {
          var id := editingItem.context.id;
          boundedContexts := MapWhere(boundedContexts, (c: BoundedContext) => c.id == id, (c: BoundedContext) => MergeContext(c, item));
        } else {
          boundedContexts := boundedContexts + [NewContext(item, stamp)];
        }
      } else {
        var contextId := TargetContext();
        if editingItem.ConceptItem? {
          var id := editingItem.concept.id;
          concepts := MapWhere(concepts, (c: DDDConcept) => c.id == id, (c: DDDConcept) => MergeConcept(c, item));
        } else {
          concepts := AddConcept(boundedContexts, concepts, contextId, item, stamp);
        }
      }
      hasUnsavedChanges := true;
      isModalOpen := false;
      editingItem := NoItem;
    }
  }
}
