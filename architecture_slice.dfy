/**
 * The `architecture` store slice: six reducers that assign the state's fields
 * or append to its lists in place, and the initial board.
 */
module ArchitectureSlice {
  import opened Wrappers
  import opened Geometry
  import opened StoreTypes

  /** The whole state of the slice. */
  datatype AppState = AppState(
    boundedContexts: seq<BoundedContext>,
    concepts: seq<Concept>,
    relationships: seq<Relationship>,
    currentView: View,
    selectedContextId: Option<string>,
    selectedConceptId: Option<string>)

  /** Two contexts with three concepts each, two relationships inside the first context, nothing selected. */
  function InitialState(): (s: AppState)
    ensures ConceptsPlaced(s.boundedContexts, s.concepts)
    ensures RelationshipsInternal(s.concepts, s.relationships)
    ensures s.currentView == Global && s.selectedContextId.None? && s.selectedConceptId.None?
  {
    var contexts := [
      BoundedContext("bc1", "用户管理", Some("处理用户注册、登录、权限管理"), "#3B82F6", Point(100.0, 100.0), Size(200.0, 150.0)),
      BoundedContext("bc2", "订单管理", Some("处理订单创建、支付、配送"), "#10B981", Point(350.0, 100.0), Size(200.0, 150.0))
    ];
    var concepts := [
      Concept("c1", "用户", None, Point(50.0, 50.0), "bc1"),
      Concept("c2", "权限", None, Point(150.0, 50.0), "bc1"),
      Concept("c3", "认证服务", None, Point(100.0, 120.0), "bc1"),
      Concept("c4", "订单", None, Point(50.0, 50.0), "bc2"),
      Concept("c5", "支付", None, Point(150.0, 50.0), "bc2"),
      Concept("c6", "库存服务", None, Point(100.0, 120.0), "bc2")
    ];
    var relationships := [
      Relationship("r1", "c3", "c1", Dependency, Some("验证"), None),
      Relationship("r2", "c3", "c2", Dependency, Some("检查权限"), None)
    ];
    assert HasContext(contexts, "bc1") && HasContext(contexts, "bc2") by {
      assert contexts[0].id == "bc1" && contexts[1].id == "bc2";
    }
    assert RelationshipsInternal(concepts, relationships) by {
      assert concepts[2].id == "c3" && InContext(concepts, "c1", "bc1") by { assert concepts[0].id == "c1"; }
      assert InContext(concepts, "c2", "bc1") by { assert concepts[1].id == "c2"; }
    }
    AppState(contexts, concepts, relationships, Global, None, None)
  }

  class ArchitectureStore {
    var boundedContexts: seq<BoundedContext>
    var concepts: seq<Concept>
    var relationships: seq<Relationship>
    var currentView: View
    var selectedContextId: Option<string>
    var selectedConceptId: Option<string>

    function State(): AppState
      reads this
    {
      AppState(boundedContexts, concepts, relationships, currentView, selectedContextId, selectedConceptId)
    }

    constructor()
      ensures State() == InitialState()
    {
      var s := InitialState();
      boundedContexts := s.boundedContexts;
      concepts := s.concepts;
      relationships := s.relationships;
      currentView := s.currentView;
      selectedContextId := s.selectedContextId;
      selectedConceptId := s.selectedConceptId;
    }

    /** `setCurrentView`: only the view changes. */
    method SetCurrentView(view: View)
      modifies this
      ensures State() == old(State()).(currentView := view)
    {
      currentView := view;
    }

    /**
     * `selectBoundedContext`: the selection is always replaced; the board
     * switches to the context view only for a non-empty id.
     */
    method SelectBoundedContext(id: Option<string>)
      modifies this
      ensures selectedContextId == id
      ensures currentView == (if Truthy(id) then ContextBoard else old(currentView))
      ensures State() == old(State()).(selectedContextId := id, currentView := currentView)
    {
      selectedContextId := id;
      if Truthy(id) {
        currentView := ContextBoard;
      }
    }

    /** `selectConcept`: only the concept selection changes. */
    method SelectConcept(id: Option<string>)
      modifies this
      ensures State() == old(State()).(selectedConceptId := id)
    {
      selectedConceptId := id;
    }

    /** `addConcept`: appends one concept built from the payload and the new id `"c" + stamp`. */
    method AddConcept(draft: ConceptDraft, stamp: string)
      modifies this
      ensures concepts == old(concepts) + [ConceptFrom(draft, "c" + stamp)]
      ensures State() == old(State()).(concepts := concepts)
      ensures old(ConceptsPlaced(boundedContexts, concepts)) && HasContext(boundedContexts, draft.boundedContextId)
        ==> ConceptsPlaced(boundedContexts, concepts)
    {
      concepts := concepts + [ConceptFrom(draft, "c" + stamp)];
    }

    /** `addRelationship`: appends one relationship with the new id `"r" + stamp`; a self-loop is not refused. */
    method AddRelationship(draft: RelationshipDraft, stamp: string)
      modifies this
      ensures relationships == old(relationships) + [RelationshipFrom(draft, "r" + stamp)]
      ensures State() == old(State()).(relationships := relationships)
    {
      relationships := relationships + [RelationshipFrom(draft, "r" + stamp)];
    }

    /** `addBoundedContext`: appends one context with the new id `"bc" + stamp`. */
    method AddBoundedContext(draft: ContextDraft, stamp: string)
      modifies this
      ensures boundedContexts == old(boundedContexts) + [ContextFrom(draft, "bc" + stamp)]
      ensures State() == old(State()).(boundedContexts := boundedContexts)
      ensures old(ConceptsPlaced(boundedContexts, concepts)) ==> ConceptsPlaced(boundedContexts, concepts)
    {
      boundedContexts := boundedContexts + [ContextFrom(draft, "bc" + stamp)];
      assert forall i :: 0 <= i < |old(boundedContexts)| ==> boundedContexts[i] == old(boundedContexts)[i];
    }
  }
}
