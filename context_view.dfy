/**
 * The context board of the single-board editor: the selected context's
 * concepts and the relationships among them, isolated concepts, the
 * add-concept and connect modes, label placement and concept highlighting.
 */
module ContextView {
  import opened Wrappers
  import opened Geometry
  import opened Seqs
  import opened Text
  import opened StoreTypes
  import opened ConnectionMode
  import ArchitectureSlice

  /** Some concept of `concepts` has the id. */
  predicate HasId(concepts: seq<Concept>, id: string) {
    exists c :: c in concepts && c.id == id
  }

  /** `contextConcepts`: the concepts whose context is the selected one. */
  function BoardConcepts(concepts: seq<Concept>, selected: Option<string>): (r: seq<Concept>)
    ensures forall c :: c in r <==> c in concepts && selected == Some(c.boundedContextId)
    ensures selected.None? ==> r == []
    ensures IsSubsequence(r, concepts)
  {
    Filter(concepts, (c: Concept) => selected == Some(c.boundedContextId))
  }

  /** `contextRelationships`: the relationships whose source and target are both on the board. */
  function BoardRelationships(board: seq<Concept>, relationships: seq<Relationship>): (r: seq<Relationship>)
    ensures forall x :: x in r <==> x in relationships && HasId(board, x.sourceId) && HasId(board, x.targetId)
    ensures IsSubsequence(r, relationships)
  {
    Filter(relationships, (x: Relationship) => HasId(board, x.sourceId) && HasId(board, x.targetId))
  }

  /** Some relationship starts or ends at `id`. */
  predicate Endpoint(relationships: seq<Relationship>, id: string) {
    exists x :: x in relationships && (x.sourceId == id || x.targetId == id)
  }

  /** `isolatedConcepts`: the board's concepts that no board relationship touches. */
  function Isolated(board: seq<Concept>, relationships: seq<Relationship>): (r: seq<Concept>)
    ensures forall c :: c in r <==> c in board && !Endpoint(BoardRelationships(board, relationships), c.id)
    ensures IsSubsequence(r, board)
  {
    var shown := BoardRelationships(board, relationships);
    Filter(board, (c: Concept) => !Endpoint(shown, c.id))
  }

  /** A relationship between two board concepts takes both of them off the isolated list. */
  lemma ConnectingEndsIsolation(board: seq<Concept>, relationships: seq<Relationship>, x: Relationship, c: Concept)
    requires HasId(board, x.sourceId) && HasId(board, x.targetId)
    requires c.id == x.sourceId || c.id == x.targetId
    ensures c !in Isolated(board, relationships + [x])
  {
    var rs := relationships + [x];
    assert x in rs;
    assert x in BoardRelationships(board, rs);
  }

  /** `i` is the index `.find` stops at when looking for `id`: the first concept with that id. */
  predicate IsFirstWithId(board: seq<Concept>, i: int, id: string) {
    0 <= i < |board| && board[i].id == id && forall j :: 0 <= j < i ==> board[j].id != id
  }

  /** `concepts.find(c => c.id === id)`: the first board concept with the id. */
  function FindById(board: seq<Concept>, id: string): (r: Option<Concept>)
    ensures r.None? <==> !HasId(board, id)
    ensures r.Some? ==> exists i :: IsFirstWithId(board, i, id) && board[i] == r.value
  {
    var r := Find(board, (c: Concept) => c.id == id);
    if r.None? then r
    else
      var i :| 0 <= i < |board| && board[i] == r.value && forall j :: 0 <= j < i ==> board[j].id != id;
      assert IsFirstWithId(board, i, id);
      r
  }

  /**
   * `getLabelPosition`: halfway between the first board concepts with the
   * two ids, or (0, 0) when either is not on the board.
   */
  function LabelPosition(board: seq<Concept>, sourceId: string, targetId: string): (p: Point)
    ensures !HasId(board, sourceId) || !HasId(board, targetId) ==> p == Point(0.0, 0.0)
    ensures HasId(board, sourceId) && HasId(board, targetId) ==>
              exists i, k :: IsFirstWithId(board, i, sourceId) && IsFirstWithId(board, k, targetId)
                && p == Midpoint(board[i].position, board[k].position)
  {
    var s := FindById(board, sourceId);
    var t := FindById(board, targetId);
    if s.None? || t.None? then Point(0.0, 0.0)
    else
      var i :| IsFirstWithId(board, i, sourceId) && board[i] == s.value;
      var k :| IsFirstWithId(board, k, targetId) && board[k] == t.value;
      Midpoint(board[i].position, board[k].position)
  }

  /** How a concept is highlighted. */
  datatype Highlight = IsolatedLook | SelectedLook | SourceLook | PlainLook

  /** `getConceptStyle`: isolated before selected, selected before connection source. */
  function HighlightOf(c: Concept, isolated: seq<Concept>, selectedConceptId: Option<string>, connectionSource: Option<string>): (h: Highlight)
    ensures h == IsolatedLook <==> c in isolated
    ensures h == SelectedLook <==> c !in isolated && selectedConceptId == Some(c.id)
    ensures h == SourceLook <==> c !in isolated && selectedConceptId != Some(c.id) && connectionSource == Some(c.id)
    ensures h == PlainLook <==> c !in isolated && selectedConceptId != Some(c.id) && connectionSource != Some(c.id)
  {
    if c in isolated then IsolatedLook
    else if selectedConceptId == Some(c.id) then SelectedLook
    else if connectionSource == Some(c.id) then SourceLook
    else PlainLook
  }

  /** The payload of the relationship a connecting click dispatches. */
  function ConnectionDraft(sourceId: string, targetId: string, kind: RelationType): (d: RelationshipDraft)
    ensures d.sourceId == sourceId && d.targetId == targetId && d.kind == kind
    ensures d.labelText == Some(DefaultLabel(kind)) && d.description.None?
  {
    RelationshipDraft(sourceId, targetId, kind, Some(DefaultLabel(kind)), None)
  }

  /** The board's own state, over the shared store. */
  class Board {
    const store: ArchitectureSlice.ArchitectureStore
    var newConceptName: string
    var isAddingConcept: bool
    var isConnecting: bool
    var connectionSource: Option<string>
    var connectionType: RelationType

    constructor(store: ArchitectureSlice.ArchitectureStore)
      ensures this.store == store
      ensures newConceptName == "" && !isAddingConcept && !isConnecting && connectionSource.None?
      ensures connectionType == Dependency
    {
      this.store := store;
      newConceptName := "";
      isAddingConcept := false;
      isConnecting := false;
      connectionSource := None;
      connectionType := Dependency;
    }

    /** Typing into the name input. */
    method SetNewConceptName(name: string)
      modifies this
      ensures newConceptName == name
      ensures isAddingConcept == old(isAddingConcept) && isConnecting == old(isConnecting)
      ensures connectionSource == old(connectionSource) && connectionType == old(connectionType)
    {
      newConceptName := name;
    }

    /** The type select. */
    method SetConnectionType(kind: RelationType)
      modifies this
      ensures connectionType == kind
      ensures newConceptName == old(newConceptName) && isAddingConcept == old(isAddingConcept)
      ensures isConnecting == old(isConnecting) && connectionSource == old(connectionSource)
    {
      connectionType := kind;
    }

    /** The connect button flips connect mode; a chosen source is kept. */
    method ToggleConnecting()
      modifies this
      ensures isConnecting == !old(isConnecting)
      ensures connectionSource == old(connectionSource) && connectionType == old(connectionType)
      ensures newConceptName == old(newConceptName) && isAddingConcept == old(isAddingConcept)
    {
      isConnecting := !isConnecting;
    }

    /** `handleBackToGlobal`. */
    method BackToGlobal()
      modifies store
      ensures store.State() == old(store.State()).(currentView := Global)
    {
      store.SetCurrentView(Global);
    }

    /** `handleAddConcept`: adding mode starts only with a non-blank name and a selected context. */
    method AddConceptClicked()
      modifies this
      ensures isAddingConcept == (old(isAddingConcept) || (Trim(newConceptName) != "" && Truthy(store.selectedContextId)))
      ensures newConceptName == old(newConceptName) && isConnecting == old(isConnecting)
      ensures connectionSource == old(connectionSource) && connectionType == old(connectionType)
    {
      if Trim(newConceptName) != "" && Truthy(store.selectedContextId) {
        isAddingConcept := true;
      }
    }

    /** In adding mode with a non-blank name and a selected context, a canvas click places a concept. */
    predicate ReadyToPlace()
      reads this, store
    {
      isAddingConcept && Trim(newConceptName) != "" && Truthy(store.selectedContextId)
    }

    /**
     * `handleCanvasClick` at `offset`, the click position relative to the
     * board: when ready, a concept with the typed name is added there and
     * the name and the mode are cleared; otherwise nothing happens.
     */
    method CanvasClick(offset: Point, stamp: string)
      modifies this, store
      ensures old(ReadyToPlace()) ==>
                store.concepts == old(store.concepts) + [ConceptFrom(ConceptDraft(old(newConceptName), None, offset, old(store.selectedContextId).value), "c" + stamp)]
      ensures old(ReadyToPlace()) ==> store.State() == old(store.State()).(concepts := store.concepts)
      ensures old(ReadyToPlace()) ==> newConceptName == "" && !isAddingConcept
      ensures !old(ReadyToPlace()) ==> store.State() == old(store.State())
      ensures !old(ReadyToPlace()) ==> newConceptName == old(newConceptName) && isAddingConcept == old(isAddingConcept)
      ensures isConnecting == old(isConnecting) && connectionSource == old(connectionSource) && connectionType == old(connectionType)
    {
      var ready := ReadyToPlace();
      if ready {
        var draft := ConceptDraft(newConceptName, None, offset, store.selectedContextId.value);
        store.AddConcept(draft, stamp);
        newConceptName := "";
        isAddingConcept := false;
      } else {
        assert store.State() == old(store.State());
      }
    }

    /** `handleConceptClick`, with `stamp` standing for the store's fresh id. */
    method ConceptClick(conceptId: string, stamp: string)
      modifies this, store
      ensures var o := Click(old(isConnecting), old(connectionSource), conceptId);
              && (o.SelectConcept? ==> store.State() == old(store.State()).(selectedConceptId := Some(conceptId))
                                       && connectionSource == old(connectionSource) && isConnecting == old(isConnecting))
              && (o.ChooseSource? ==> store.State() == old(store.State()) && connectionSource == Some(conceptId) && isConnecting)
              && (o.Connect? ==> store.relationships == old(store.relationships) + [RelationshipFrom(ConnectionDraft(o.sourceId, o.targetId, old(connectionType)), "r" + stamp)]
                                 && store.State() == old(store.State()).(relationships := store.relationships)
                                 && connectionSource.None? && !isConnecting)
              && (o.Ignore? ==> store.State() == old(store.State()) && connectionSource == old(connectionSource) && isConnecting)
      ensures newConceptName == old(newConceptName) && isAddingConcept == old(isAddingConcept) && connectionType == old(connectionType)
    {
      match Click(isConnecting, connectionSource, conceptId)
      case SelectConcept(id) =>
        store.SelectConcept(Some(id));
      case ChooseSource(id) =>
        connectionSource := Some(id);
      case Connect(s, t) =>
        store.AddRelationship(ConnectionDraft(s, t, connectionType), stamp);
        connectionSource := None;
        isConnecting := false;
      case Ignore =>
    }
  }
}
