# ARCHITECTURE-TOOL core, modelled in Dafny

ARCHITECTURE-TOOL is a browser editor for domain-driven-design diagrams. A
project holds bounded contexts, the concepts placed in them and the
relationships between concepts. It keeps two designs per project, one for UML
mode and one for concept-design mode.

This project models the editor's logic:

- **Zoomable canvas**: the drop transform, Ctrl-wheel zoom anchored at the
  cursor, drag-to-pan, reset, zoom buttons and keys, fit-to-content, and the
  canvas-extent computation with its hysteresis.
- **Connector geometry**: node centres, the ray–rectangle intersection,
  endpoints, size floors, styles and placement of labels, badges, delete
  buttons and multiplicities. This covers the three line components.
- **Plain canvas and dragging**: the plain canvas's drop and deselect rules,
  and where a dragged concept lands.
- **Editor state machine**: moves, cascading deletes, the context board's
  derived lists, the two-click connection mode, mode switching with its stash,
  and the add/edit dialog.
- **Context board and store**: the smaller board and the Redux store slice
  behind it.
- **Supporting rules**: the dialog's form normalisation and the relationship
  picker (groups, markers, accordion, descriptions).
- **Project store**: save, load with old-format migration, delete, duplicate,
  listing, import validation, edit-mode update and create, over an abstract
  key/value store.

There is one module per source file, plus shared modules:

- `Wrappers`: Option.
- `Geometry`: points, sizes, min/max/abs/clamp, midpoint.
- `Seqs`: filter, subsequence, find.
- `Text`: JavaScript `trim`, `split` and `join`.
- `RelationshipTypes`: the DDD relationship and concept enumerations and the style table.
- `ProjectTypes`: the project file format.
- `StoreTypes`: the Redux slice's types.
- `DragDrop`: drag payloads and drop results.
- `Connector`: the intersection function. The two line components hold identical copies of it; here it is defined once.

Pure code is functions with lemmas. Component state that handlers update in
place is a class with `modifies` clauses: the view state, the editor, the
context board, the store slice, the dialog form, the picker accordion and the
project store. Coordinates are exact `real`s. Generated ids and timestamps
(`Date.now()`, `Math.random()`, `new Date().toISOString()`) are parameters:
`stamp`, `now`, or a `stampOf: nat -> string` generator whose distinctness is
never assumed unless a lemma says so. Measured DOM sizes and element lists
are inputs.

## Model

| member | source | states |
|---|---|---|
| ZoomableCanvas.ToModel | src/components/ZoomableCanvas.tsx:44-47 | the model position maps back to the client point: `m*zoom + pan + origin == client` per axis |
| ZoomableCanvas.Drop | src/components/ZoomableCanvas.tsx:34-57 | no position and no callback without a canvas origin or client offset; otherwise the position is the inverse transform, exactly one callback fires for the payload's tag if that callback was given, and the returned result carries the same position |
| DragDrop.Route | src/components/ZoomableCanvas.tsx:50-56 | the result is `{Canvas, position}`; a call happens iff the handler for the payload's kind exists, and it carries the item id and position |
| ZoomableCanvas.WheelZoom | src/components/ZoomableCanvas.tsx:80-81 | the new zoom is in [0.1, 3]; it is exactly zoom×0.9 for a down-scroll and zoom×1.1 otherwise when that is in range, and 0.1 or 3 when the product falls below or above the range; a down-scroll never zooms in past the old zoom and an up-scroll never zooms out |
| ZoomableCanvas.WheelPan | src/components/ZoomableCanvas.tsx:84-87 | `(mouse − newPan)/newZoom == (mouse − pan)/zoom` on each axis |
| ZoomableCanvas.WheelKeepsCursorAnchor | src/components/ZoomableCanvas.tsx:76-87 | after a wheel zoom the client point under the cursor maps to the same model point as before |
| ZoomableCanvas.PanFrom | src/components/ZoomableCanvas.tsx:141-149 | the pan offset from the press-time pan, times zoom, equals the pointer's offset from the press point |
| ZoomableCanvas.PanReturns | src/components/ZoomableCanvas.tsx:141-149 | returning the pointer to the press point restores the press-time pan |
| ZoomableCanvas.ToScreen | src/components/ZoomableCanvas.tsx:448 | the content transform (translate by pan, then scale by zoom) is inverted by `ToModel` |
| ZoomableCanvas.PanDragShift | src/components/ZoomableCanvas.tsx:141-149 | during a drag a fixed model point moves on screen by the pointer's displacement divided by the zoom, not by the displacement itself |
| ZoomableCanvas.DragLosesGrip | src/components/ZoomableCanvas.tsx:144-149 | at any zoom other than 1, a horizontal drag leaves a different model point under the pointer from the one grabbed |
| ZoomableCanvas.PanFollowing | src/components/ZoomableCanvas.tsx:144-145 | corrected definition for the drag Findings row: the pan moves by exactly the pointer's displacement |
| ZoomableCanvas.GrabStaysUnderPointer | src/components/ZoomableCanvas.tsx:144-145 | corrected definition for the drag Findings row: with `PanFollowing` the grabbed model point stays under the pointer at every zoom |
| ZoomableCanvas.ZoomIn | src/components/ZoomableCanvas.tsx:362 | zoom×1.2 when that is at most 3, else 3; positive for a positive zoom, and never below a zoom already in range |
| ZoomableCanvas.ZoomOut | src/components/ZoomableCanvas.tsx:366 | zoom÷1.2 when that is at least 0.1, else 0.1; never above a zoom already in range |
| ZoomableCanvas.ZoomToLevel | src/components/ZoomableCanvas.tsx:175-178 | the result is in [0.1, 3]; it is the requested level when that is in range, 0.1 below the range and 3 above it |
| ZoomableCanvas.AxisAddElement | src/components/ZoomableCanvas.tsx:240-261 | folding one more element (skipped if it is an SVG layer or has no left offset) keeps the bounds tight on an axis |
| ZoomableCanvas.AxisAddLine | src/components/ZoomableCanvas.tsx:264-280 | folding one more line, with its 100-unit margin, keeps the bounds tight on an axis |
| ZoomableCanvas.ComputeBounds | src/components/ZoomableCanvas.tsx:236-284 | the bounds are exactly the smallest box holding [0,3000]×[0,2000], every counted element grown by 300 (200×120 when unmeasured) and every line endpoint grown by 100 |
| ZoomableCanvas.ClampExtent | src/components/ZoomableCanvas.tsx:283-288 | width is in [3000, 12000] and height in [2000, 8000]; each side is the required extent when that is in range, and the nearer bound otherwise |
| ZoomableCanvas.ExtentLowerClampInactive | src/components/ZoomableCanvas.tsx:236-288 | computed bounds are always at least 3000×2000, so the lower clamp never acts |
| ZoomableCanvas.Commit | src/components/ZoomableCanvas.tsx:291-305 | the computed size replaces the shown one iff it differs by more than 200 on some side from the size the closure captured; otherwise the shown size stays |
| ZoomableCanvas.CommitWithinThreshold | src/components/ZoomableCanvas.tsx:291-305 | when the captured size is the shown one, the result is within 200 of the computed size on both sides |
| ZoomableCanvas.CommitIdempotent | src/components/ZoomableCanvas.tsx:291-305 | committing the same computed size again against the same captured size changes nothing |
| ZoomableCanvas.StaleCommitKeepsDrift | src/components/ZoomableCanvas.tsx:291-305 | captured 3000 wide, shown 3500, computed 3100: the shown 3500 stays, more than 200 from the computed width |
| ZoomableCanvas.ContentBounds | src/components/ZoomableCanvas.tsx:190-205 | the box encloses every child and each of its edges is some child's edge |
| ZoomableCanvas.FitZoom | src/components/ZoomableCanvas.tsx:207-213 | the zoom is at most 1, the padded content fits the viewport at it, and it is 1 or fills the viewport on some axis |
| ZoomableCanvas.FitPan | src/components/ZoomableCanvas.tsx:215-218 | the padded box is centred in the viewport on both axes |
| ZoomableCanvas.FitCanLeaveZoomRange | src/components/ZoomableCanvas.tsx:213 | fitting a 9800-wide content into an 800-wide viewport gives zoom 0.08, outside [0.1, 3] |
| ZoomableCanvas.ViewState.constructor | src/components/ZoomableCanvas.tsx:26-32 | zoom 1, pan (0,0), not panning, canvas size 2000×1500, captured size the same |
| ZoomableCanvas.ViewState.Wheel | src/components/ZoomableCanvas.tsx:64-91 | without Ctrl or a canvas rect nothing changes; otherwise zoom becomes `WheelZoom` and pan becomes `WheelPan` at the canvas-relative cursor |
| ZoomableCanvas.ViewState.MouseDown | src/components/ZoomableCanvas.tsx:94-118 | on a concept, button or field nothing happens; elsewhere panning starts from the press point and press-time pan, and the context selection is cleared if a callback exists |
| ZoomableCanvas.ViewState.MouseMove | src/components/ZoomableCanvas.tsx:138-150 | while panning the pan is `PanFrom` the press point; otherwise unchanged |
| ZoomableCanvas.ViewState.MouseUp | src/components/ZoomableCanvas.tsx:152-155 | panning ends and the press point is dropped; zoom and pan stay |
| ZoomableCanvas.ViewState.ResetView | src/components/ZoomableCanvas.tsx:169-172 | zoom 1 and pan (0,0) |
| ZoomableCanvas.ViewState.DoubleClick | src/components/ZoomableCanvas.tsx:121-134 | resets the view unless the target is a concept, button or field |
| ZoomableCanvas.ViewState.ZoomTo | src/components/ZoomableCanvas.tsx:175-178 | zoom becomes the clamped level; pan unchanged |
| ZoomableCanvas.ViewState.StepIn | src/components/ZoomableCanvas.tsx:403-406 | zoom becomes `ZoomIn` of the old zoom; pan unchanged |
| ZoomableCanvas.ViewState.StepOut | src/components/ZoomableCanvas.tsx:389-392 | zoom becomes `ZoomOut` of the old zoom; pan unchanged |
| ZoomableCanvas.ViewState.FitToContent | src/components/ZoomableCanvas.tsx:181-220 | with no children nothing changes; otherwise zoom and pan are `FitZoom`/`FitPan` of the smallest box holding the children, padded by 200, and zoom is at most 1 |
| ZoomableCanvas.ViewState.ChildrenChanged | src/components/ZoomableCanvas.tsx:223-342 | the extent effect is set up again, so its closure captures the current canvas size; nothing else changes |
| ZoomableCanvas.ViewState.UpdateCanvasSize | src/components/ZoomableCanvas.tsx:226-305 | with no children the extent becomes 3000×2000; otherwise it is `Commit` of the captured size, the shown size and the clamped tight bounds; the captured size is untouched |
| ZoomableCanvas.ViewState.KeyDown | src/components/ZoomableCanvas.tsx:346-373 | ignored in an input or textarea or without Ctrl/Meta; `0` resets, `=`/`+` zooms in, `-` zooms out; `1` leaves the view alone with no children and otherwise sets zoom (at most 1) and pan to `FitZoom`/`FitPan` of the children's box |
| Canvas.Drop | src/components/Canvas.tsx:24-46 | without the canvas or a client offset the result has no position and nothing fires; otherwise the position is client − origin, and the callback for the item's kind, if it exists, is the only one to fire, receiving the item's id and that position |
| Canvas.DropIsUnzoomed | src/components/Canvas.tsx:32-36 | the plain canvas's drop equals the zoomable canvas's at zoom 1 and pan (0,0) |
| Canvas.ClickDeselects | src/components/Canvas.tsx:52-57 | the selection is cleared iff the click target is the canvas itself and a select callback exists |
| DraggableConcept.DropX | src/components/DraggableConcept.tsx:42 | x ≥ 20; x == p.x − 40 when that is within [20, W − 120]; x ≤ max(20, W − 120) |
| DraggableConcept.DropY | src/components/DraggableConcept.tsx:43 | y ≥ 20; y == p.y − 16 when that is within [20, H − 200]; y ≤ max(20, H − 200) |
| DraggableConcept.EndPosition | src/components/DraggableConcept.tsx:37-56 | a position is committed iff there is a drop position or a delta; it is always ≥ 20 on both axes; with a drop position it is the clamped one, otherwise the old position plus the delta floored at 20 |
| DraggableConcept.DeltaUnbounded | src/components/DraggableConcept.tsx:48-52 | the delta fallback has no upper bound: some delta puts the concept beyond any given x |
| Connector.Center | src/components/DDDConnectionLine.tsx:91-99 | the centre is equidistant from the box's opposite edges on each axis |
| Connector.Along | src/components/DDDConnectionLine.tsx:223-224 | the point is the fraction `t` of the way from `p` to `q` on each axis |
| Connector.ExitRatio | src/components/DDDConnectionLine.tsx:118-130 | for a positive size and non-zero direction the ratio is positive |
| Connector.Intersection | src/components/DDDConnectionLine.tsx:106-135 | the point lies on the box boundary, at the positive exit ratio along the ray from the centre |
| Connector.SidewaysExit | src/components/DDDConnectionLine.tsx:118-125 | when the ray leaves through a side, the point is at cx ± w/2 with the sign of dx, and its vertical offset is within h/2 |
| Connector.VerticalExit | src/components/DDDConnectionLine.tsx:126-133 | otherwise the point is at cy ± h/2 with the sign of dy, and its horizontal offset is within w/2 |
| Connector.Endpoints | src/components/DDDConnectionLine.tsx:102-141 | each end lies on the boundary of its own box |
| Connector.EndpointsFaceEachOther | src/components/DDDConnectionLine.tsx:102-141 | the source end is on the ray from the source centre towards the target centre, and the target end on the ray back |
| Connector.EndpointsSwap | src/components/DDDConnectionLine.tsx:138-141 | swapping source and target swaps the two endpoints |
| Connector.Floored | src/components/DDDConnectionLine.tsx:35-44 | each side is at least its floor, equals the measured side when that is above the floor, and is one of the two |
| Connector.Offset | src/components/DDDConnectionLine.tsx:209-210 | the result differs from `p` by exactly (dx, dy) |
| DddConnectionLine.MeasuredSize | src/components/DDDConnectionLine.tsx:35-44 | the used size is positive, at least 140×80 and at least the measured size, and each side is the floor or the measurement |
| DddConnectionLine.StyleFor | src/components/DDDConnectionLine.tsx:144-159 | a stored DDD kind gets its table entry; any other string gets the default grey/solid/open/target style |
| DddConnectionLine.DashFor | src/components/DDDConnectionLine.tsx:200 | no dash iff solid; `5,5` for dashed, `2,2` for dotted |
| DddConnectionLine.MultiplicityCaption | src/components/DDDConnectionLine.tsx:219-239 | a caption appears iff the end's multiplicity is a non-empty string |
| DddConnectionLine.Render | src/components/DDDConnectionLine.tsx:91-259 | endpoints on both box boundaries and equal to `Endpoints`; the style is `StyleFor`; the label sits at midpoint.y − 10 and the delete circle at midpoint.y + 10; the multiplicities sit 20% in from each end, 5 above the line |
| DddConnectionLine.MultiplicityNearItsEnd | src/components/DDDConnectionLine.tsx:221-238 | on each axis a multiplicity caption is no farther from its own end than from the other end |
| DddConnectionLine.KnownKindStyle | src/components/DDDConnectionLine.tsx:144-148 | a relationship stored as a DDD kind is drawn with that kind's colour, width and dash |
| ConceptDesignConnectionLine.MeasuredSize | src/components/ConceptDesignConnectionLine.tsx:27-39 | the used size is positive, at least 100×60 and at least the measured size |
| ConceptDesignConnectionLine.StyleFor | src/components/ConceptDesignConnectionLine.tsx:111-135 | dependency is red dashed `5,5` width 2; collaboration is green solid width 2; anything else is grey solid width 1 |
| ConceptDesignConnectionLine.DisplayedLabel | src/components/ConceptDesignConnectionLine.tsx:190 | the relationship's own label unless missing or empty, else the style's label; empty only when both are |
| ConceptDesignConnectionLine.Render | src/components/ConceptDesignConnectionLine.tsx:59-229 | endpoints on both box boundaries via the shared intersection; the style is `StyleFor`; the caption is non-empty; the badge is 40×16 at (mid.x − 20, mid.y − 18) and the delete circle at (mid.x, mid.y + 15) |
| ConceptDesignConnectionLine.BadgeCentred | src/components/ConceptDesignConnectionLine.tsx:194-211 | the badge and the delete circle are centred horizontally on the midpoint |
| ConceptDesignConnectionLine.SideBySideEndpoints | src/components/ConceptDesignConnectionLine.tsx:85-108 | two 100×60 boxes centred at (0,0) and (200,0) get endpoints (50,0) and (150,0) |
| ConnectionLine.Anchor | src/components/ConnectionLine.tsx:32-35 | a line attaches at the concept position + (40, 16) |
| ConnectionLine.LineColor | src/components/ConnectionLine.tsx:52 | blue iff the type is dependency, green otherwise |
| ConnectionLine.Render | src/components/ConnectionLine.tsx:32-112 | ends at both anchors; the label box is 60×20 centred on the midpoint, with text at midY + 4; the delete button is at (midX + 35, midY − 15) and reports the relationship id |
| ConnectionLine.RenderTranslates | src/components/ConnectionLine.tsx:32-39 | moving both concepts by one offset moves every drawn point by that offset |
| App.MoveContext | src/App.tsx:247-252 | same length; the context with the id takes the new position and every other element is unchanged |
| App.MoveConcept | src/App.tsx:254-259 | same length; the concept with the id takes the new position and every other element is unchanged |
| App.MoveKeepsReferences | src/App.tsx:247-259 | moves keep every concept placed in an existing context and every relationship resolved |
| App.DeleteContext | src/App.tsx:262-266 | exactly the other contexts remain, and exactly the concepts not placed in it, both in order |
| App.DeleteContextKeepsPlaced | src/App.tsx:262-266 | after the cascade every remaining concept still has its context |
| App.DeleteConcept | src/App.tsx:268-272 | exactly the other concepts remain, and exactly the relationships touching neither end, both in order |
| App.DeleteConceptKeepsResolved | src/App.tsx:268-272 | after the cascade every remaining relationship still resolves at both ends |
| App.DeleteRelationship | src/App.tsx:382-385 | exactly the relationships with another id remain, in order |
| App.ConceptById | src/App.tsx:67-68 | a found concept has the id and is the first in the list with it; none is found iff no concept has the id |
| App.ContextConcepts | src/App.tsx:63 | empty without a current context; otherwise exactly the concepts of that context, in order |
| App.ContextRelationships | src/App.tsx:66-70 | empty without a current context; otherwise exactly the relationships whose source and target both resolve into the current context, in order |
| App.BoardRelationshipsDrawn | src/App.tsx:500-507 | every board relationship has both ends among the concepts, so none is skipped when drawn |
| App.IsolatedConcepts | src/App.tsx:73-82 | empty outside concept-design mode or without a current context; otherwise exactly the context's concepts that are no end of a board relationship |
| App.ConnectingEndsIsolation | src/App.tsx:73-82 | adding a relationship between two board concepts removes both from the isolated list |
| App.NewConnection | src/App.tsx:362-369 | id `rel_` + stamp, source and target as clicked, the chosen type, label 依赖 for dependency and 协作 otherwise |
| App.Stash | src/App.tsx:90-104 | the current mode's design becomes the edited concepts and relationships, the other mode's design and the project are kept, and the contexts are written back |
| App.SwitchMode | src/App.tsx:198-232 | the project data becomes the stash; the new mode's design is loaded; the contexts stay |
| App.SwitchRoundTrip | src/App.tsx:198-232 | switching to another mode and back restores the concepts and relationships being edited |
| App.MergeContext | src/App.tsx:311-316 | id, position and size are kept; name, description and colour come from the dialog |
| App.MergeConcept | src/App.tsx:329-333 | id, position and context are kept; name, type, description, properties and methods come from the dialog |
| App.NewContext | src/App.tsx:317-321 | id `bc_` + stamp, position (100,100), size 300×200, the dialog's fields |
| App.ContextById | src/App.tsx:334 | a found context has the id and is the first in the list with it; none is found iff no context has the id |
| App.AddConcept | src/App.tsx:324-347 | the list changes iff a target context id is given and exists; then exactly one concept is appended, 50 right and 50 below that context's corner |
| App.NewConcept | src/App.tsx:335-345 | id `c_` + stamp, in the given context, at its position + (50,50), with the dialog's fields |
| App.AddConceptKeepsPlaced | src/App.tsx:324-347 | adding a concept from the dialog keeps every concept placed in an existing context |
| App.Editor.constructor | src/App.tsx:21-47 | the project list, no project, UML mode, no connection state, empty lists, no selection, dialog closed and set to the context kind |
| App.Editor.Loaded | src/App.tsx:116-138 | the loaded contexts and the design of the project's mode are shown, the mode being UML when the project has none; nothing is unsaved; screen, selections, connection state and dialog are unchanged |
| App.Editor.SaveSnapshot | src/App.tsx:90-104 | a snapshot exists iff a project is open; it is in the two-design format and its current-mode design is what is being edited |
| App.Editor.ContextPositionChange | src/App.tsx:247-252 | contexts become `MoveContext` and changes are marked unsaved; every other field is unchanged |
| App.Editor.ConceptPositionChange | src/App.tsx:254-259 | concepts become `MoveConcept` and changes are marked unsaved; every other field is unchanged |
| App.Editor.DeleteContextClicked | src/App.tsx:262-266 | contexts and concepts become `DeleteContext` and changes are marked unsaved; every other field is unchanged |
| App.Editor.DeleteConceptClicked | src/App.tsx:268-272 | concepts and relationships become `DeleteConcept` and changes are marked unsaved; every other field is unchanged |
| App.Editor.DeleteRelationshipClicked | src/App.tsx:382-385 | relationships become `DeleteRelationship` and changes are marked unsaved; every other field is unchanged |
| App.Editor.ToggleConnectionMode | src/App.tsx:241-244 | connection mode flips and the chosen source is forgotten; every other field, the unsaved flag included, is unchanged |
| App.Editor.ConceptClick | src/App.tsx:356-379 | outside concept-mode connecting, the concept is selected; the first click records the source; a click on another concept appends exactly `NewConnection` and leaves connection mode; a click on the source again changes nothing; only a connection marks changes unsaved, and the screen, current context, context selection and dialog never change |
| App.Editor.EditModeChange | src/App.tsx:198-229 | nothing at all changes without a project; otherwise the workspace becomes `SwitchMode`, connection state is cleared and changes are marked unsaved, while the screen, selections, relation kind and dialog stay |
| App.Editor.EnterContext | src/App.tsx:177-186 | the context board opens on that context with selection and connection state cleared; data, edit mode, relation kind, unsaved flag and dialog are unchanged |
| App.Editor.BackToProject | src/App.tsx:189-195 | back to the project board, with no current context, no selected concept and no connection state; the context selection, data, edit mode, relation kind, unsaved flag and dialog are unchanged |
| App.Editor.OpenDialog | src/App.tsx:275-292 | the dialog opens for the given kind with the given item; nothing else changes |
| App.Editor.AddConceptClicked | src/App.tsx:294-305 | the dialog opens, empty and for a concept, iff there is a target context; otherwise nothing changes; data, navigation, connection state, edit mode and unsaved flag never change |
| App.Editor.SaveItem | src/App.tsx:308-353 | an edited context or concept is merged by id; a new context is appended; a new concept is added by `AddConcept`; the dialog closes and changes are marked unsaved; the dialog kind, navigation, edit mode and connection state are unchanged |
| ContextView.BoardConcepts | src/components/ContextView.tsx:23 | exactly the concepts whose context is the selected one, in order; none without a selection |
| ContextView.BoardRelationships | src/components/ContextView.tsx:24-27 | exactly the relationships whose source and target are both board concepts, in order |
| ContextView.Isolated | src/components/ContextView.tsx:29-34 | exactly the board concepts that no board relationship touches |
| ContextView.ConnectingEndsIsolation | src/components/ContextView.tsx:29-34 | a new relationship between two board concepts takes both off the isolated list |
| ContextView.FindById | src/components/ContextView.tsx:104-105 | none iff no board concept has the id; otherwise the first board concept with it |
| ContextView.LabelPosition | src/components/ContextView.tsx:103-112 | (0,0) if either concept is not on the board, else the midpoint of the first board concepts with the two ids |
| ContextView.HighlightOf | src/components/ContextView.tsx:114-128 | isolated before selected before connection source before plain, each case iff its condition |
| ContextView.ConnectionDraft | src/components/ContextView.tsx:70-75 | source, target and type as clicked, labelled with the type's default label |
| ContextView.Board.constructor | src/components/ContextView.tsx:16-20 | empty name, not adding, not connecting, no source, dependency type |
| ContextView.Board.SetNewConceptName | src/components/ContextView.tsx:166 | only the name changes |
| ContextView.Board.SetConnectionType | src/components/ContextView.tsx:182 | only the type changes |
| ContextView.Board.ToggleConnecting | src/components/ContextView.tsx:189 | connect mode flips; the chosen source is kept |
| ContextView.Board.BackToGlobal | src/components/ContextView.tsx:36-38 | the store's view becomes global and nothing else in it changes |
| ContextView.Board.AddConceptClicked | src/components/ContextView.tsx:40-44 | adding mode starts iff the trimmed name is non-empty and a context is selected |
| ContextView.Board.CanvasClick | src/components/ContextView.tsx:46-61 | when ready, exactly one concept is added at the click offset in the selected context and the name and mode are cleared; otherwise nothing changes |
| ContextView.Board.ConceptClick | src/components/ContextView.tsx:63-82 | not connecting selects the concept; the first click sets the source; a distinct second click dispatches exactly one relationship and resets; clicking the source again does nothing |
| ConnectionMode.Click | src/App.tsx:356-379 | select iff not connecting; choose source iff connecting with none; connect iff the source is a different concept, never a self-loop; ignore iff the source is clicked again |
| ConnectionMode.TwoClicksConnect | src/components/ContextView.tsx:63-78 | two clicks on distinct concepts, starting with no source, connect them in click order |
| ArchitectureSlice.InitialState | src/store/architectureSlice.ts:4-41 | every concept's context exists, every relationship joins two concepts of one context, global view, nothing selected |
| ArchitectureSlice.ArchitectureStore.constructor | src/store/architectureSlice.ts:4-41 | the store starts in the initial state |
| ArchitectureSlice.ArchitectureStore.SetCurrentView | src/store/architectureSlice.ts:48-51 | only the view changes |
| ArchitectureSlice.ArchitectureStore.SelectBoundedContext | src/store/architectureSlice.ts:53-59 | the selection is set; the view becomes the context board only for a non-empty id |
| ArchitectureSlice.ArchitectureStore.SelectConcept | src/store/architectureSlice.ts:61-64 | only the concept selection changes |
| ArchitectureSlice.ArchitectureStore.AddConcept | src/store/architectureSlice.ts:66-73 | exactly one concept is appended from the payload and new id; nothing else changes; placement is kept when the payload's context exists |
| ArchitectureSlice.ArchitectureStore.AddRelationship | src/store/architectureSlice.ts:75-82 | exactly one relationship is appended and nothing else changes; self-loops are not refused |
| ArchitectureSlice.ArchitectureStore.AddBoundedContext | src/store/architectureSlice.ts:84-91 | exactly one context is appended; nothing else changes; placement is kept |
| Modal.Or | src/components/Modal.tsx:25-35 | `a || b` on strings: `a` unless it is empty |
| Modal.InitialForm | src/components/Modal.tsx:22-37 | a context form is empty name and description with the first colour; a concept form is ENTITY with empty lists; an existing item's values override |
| Modal.Apply | src/components/Modal.tsx:76-78 | the named field takes the new value and every other field keeps its own |
| Modal.Normalize | src/components/Modal.tsx:63-68 | every entry is non-empty, trimmed and comma-free, is a subsequence of the trimmed comma pieces, and occurs exactly as often as among those pieces |
| Modal.Saved | src/components/Modal.tsx:63-68 | an array passes through unchanged; typed text is normalised |
| Modal.Save | src/components/Modal.tsx:56-74 | nothing is saved iff the trimmed name is empty; a context saves its form unchanged; a concept saves its lists normalised |
| Modal.ShownThenSaved | src/components/Modal.tsx:159-170 | joining a list of non-empty, trimmed, comma-free entries with `, ` and saving it back gives the list |
| Modal.NormalizeIdempotent | src/components/Modal.tsx:63-68 | showing and saving a normalised list again gives the same list |
| Modal.ModalState.constructor | src/components/Modal.tsx:22-37 | the form starts as `InitialForm` |
| Modal.ModalState.InputChange | src/components/Modal.tsx:76-78 | the form becomes `Apply` of the edit |
| Modal.ModalState.SaveClicked | src/components/Modal.tsx:56-74 | returns `Save` of the form |
| RelationshipTypes.RelationIndex | src/types/DDDRelationships.ts:2-36 | every kind has a declaration position in the enumeration |
| RelationshipTypes.AllRelationKindsComplete | src/types/DDDRelationships.ts:2-36 | the enumeration lists eighteen kinds, all of them, each once |
| RelationshipTypes.ParseRelation | src/types/DDDRelationships.ts:2-36 | a found kind stores as the string; none is found iff no kind does |
| RelationshipTypes.ParseRelationValue | src/types/DDDRelationships.ts:2-36 | parsing a kind's stored string gives that kind back |
| RelationshipTypes.RelationValueInjective | src/types/DDDRelationships.ts:2-36 | no two kinds share a stored string |
| RelationshipTypes.ParseConcept | src/types/DDDRelationships.ts:39-50 | a found concept kind stores as the string; none is found iff no kind does |
| RelationshipTypes.ParseConceptValue | src/types/DDDRelationships.ts:39-50 | parsing a concept kind's stored string gives that kind back |
| RelationshipTypes.StyleTableShape | src/types/DDDRelationships.ts:83-256 | every entry is labelled with width ≥ 1 and no dotted line; only value-object has no arrow position |
| ProjectTypes.ConceptRelationValue | src/types/Project.ts:10-13 | dependency and collaboration store as distinct strings |
| RelationshipSelector.GroupOf | src/components/RelationshipSelector.tsx:12-45 | a kind is listed in the group it is assigned |
| RelationshipSelector.InExactlyOneGroup | src/components/RelationshipSelector.tsx:12-45 | a kind is listed in a group iff it is its assigned group |
| RelationshipSelector.GroupsListCatalogue | src/components/RelationshipSelector.tsx:12-45 | the groups read in order list all eighteen kinds once, in declaration order |
| RelationshipSelector.GroupNamesDistinct | src/components/RelationshipSelector.tsx:12-45 | group headings are distinct |
| RelationshipSelector.MarkerSuffix | src/components/RelationshipSelector.tsx:158 | `diamond` iff the arrow is a diamond or filled diamond, `arrow` otherwise |
| RelationshipSelector.MarkerEnd | src/components/RelationshipSelector.tsx:156-160 | set iff the arrow position is target or both, and then names the kind's marker |
| RelationshipSelector.MarkerStart | src/components/RelationshipSelector.tsx:161-165 | set iff the arrow position is source or both, and then names the kind's marker |
| RelationshipSelector.MarkerDefinition | src/components/RelationshipSelector.tsx:78-145 | defined iff the arrow type is not `none`; its id is the kind's marker id, diamond iff a diamond type, filled iff closed or filled diamond |
| RelationshipSelector.DanglingMarkers | src/components/RelationshipSelector.tsx:78-165 | a preview refers to an undefined marker iff the kind is shared kernel or published language; every other referenced marker is defined under that id |
| RelationshipSelector.PreviewDash | src/components/RelationshipSelector.tsx:155 | `3,3` iff the line is dashed |
| RelationshipSelector.Description | src/components/RelationshipSelector.tsx:278-301 | every kind has a non-empty description other than the unknown-type fallback |
| RelationshipSelector.Toggle | src/components/RelationshipSelector.tsx:221 | clicking the open group closes it; clicking another opens only that one |
| RelationshipSelector.ShownOptions | src/components/RelationshipSelector.tsx:235-239 | nothing iff invisible (the early return at line 55); otherwise exactly the kinds of the open group |
| RelationshipSelector.Selector.constructor | src/components/RelationshipSelector.tsx:53 | the within-aggregate group is open |
| RelationshipSelector.Selector.HeadingClicked | src/components/RelationshipSelector.tsx:221 | the open group becomes `Toggle`; at most the clicked group is open |
| ProjectService.Failed | src/services/ProjectService.ts:112-125 | a failure carries no data |
| ProjectService.Stamped | src/services/ProjectService.ts:90 | only the project's `updatedAt` changes |
| ProjectService.Saved | src/services/ProjectService.ts:85-99 | the key set gains the project's id, that key holds the stamped data, and every other key is unchanged |
| ProjectService.Migrate | src/services/ProjectService.ts:135-152 | two-design format; contexts default to []; the concept design is empty; the UML design takes the legacy lists, each defaulting to [] |
| ProjectService.Load | src/services/ProjectService.ts:109-167 | fails with no store or an unknown id, and succeeds exactly otherwise; on success the project becomes current and the data is returned as stored if already in two-design format, or else migrated and saved back |
| ProjectService.LoadAfterSave | src/services/ProjectService.ts:85-167 | loading a just-saved two-design project returns it as saved |
| ProjectService.LoadTwiceStable | src/services/ProjectService.ts:109-167 | a second load returns the same data as the first, migration included |
| ProjectService.ContextIds | src/services/ProjectService.ts:221-224 | the ids in order |
| ProjectService.ConceptIds | src/services/ProjectService.ts:228-231 | the ids in order |
| ProjectService.RenewContexts | src/services/ProjectService.ts:221-224 | same length; each context keeps all but its id, which becomes `bc_` + a fresh stamp |
| ProjectService.RenewConcepts | src/services/ProjectService.ts:228-231 | same length; each concept keeps all but its id, which becomes `c_` + a fresh stamp |
| ProjectService.RenewRelationships | src/services/ProjectService.ts:232-235 | same length; each relationship keeps all but its id, which becomes `r_` + a fresh stamp |
| ProjectService.CopiedProject | src/services/ProjectService.ts:253-259 | new id and name, version 1.0.0, both timestamps now, other fields kept |
| ProjectService.DuplicateKeepsShape | src/services/ProjectService.ts:210-266 | the code as written keeps every list's length and changes only element ids |
| ProjectService.DuplicateOrphansConcepts | src/services/ProjectService.ts:221-244 | as written, when fresh ids differ from the old ones, every copied concept points at a context that is not in the copy |
| ProjectService.DuplicateOrphanExample | src/services/ProjectService.ts:221-244 | a one-context, one-concept project duplicates to a copy whose concept's context does not exist |
| ProjectService.DuplicateAsWritten | src/services/ProjectService.ts:210-259 | the copy as the code builds it: two-design format, the copied project header, contexts renamed `bc_` + a fresh stamp, per-mode lengths kept, and every `boundedContextId`, `sourceId` and `targetId` unchanged |
| ProjectService.Remap | src/services/ProjectService.ts:221-244 | corrected definition for the duplicate Findings row (the source does not remap): an old id maps to the new id at a position holding it; any other id is kept |
| ProjectService.CopyConcepts | src/services/ProjectService.ts:228-231 | corrected definition for the duplicate Findings row: same length; fresh ids, and each concept's context id is remapped to its copy |
| ProjectService.CopyRelationships | src/services/ProjectService.ts:232-235 | corrected definition for the duplicate Findings row: same length; fresh ids, and source and target are remapped to the copied concepts |
| ProjectService.CopyDesign | src/services/ProjectService.ts:226-248 | corrected definition for the duplicate Findings row: the concepts are copied with remapped contexts and the relationships with remapped ends |
| ProjectService.CopyDesignKeepsReferences | src/services/ProjectService.ts:226-248 | corrected definition for the duplicate Findings row: a design whose concepts are placed and relationships resolved copies to one that is placed in the copied contexts and resolved among the copied concepts |
| ProjectService.Duplicate | src/services/ProjectService.ts:210-266 | corrected definition for the duplicate Findings row: two-design format; the copied project header; renewed contexts; each design copied with references remapped; per-mode lengths kept |
| ProjectService.DuplicateKeepsReferences | src/services/ProjectService.ts:210-266 | corrected definition for the duplicate Findings row: the corrected copy of a consistent design is consistent: concepts placed and relationships resolved |
| ProjectService.Listed | src/services/ProjectService.ts:22-30 | id, name, description and update time are copied; concept count sums the two designs and the legacy list; context count is the contexts' length |
| ProjectService.MigrateKeepsCounts | src/services/ProjectService.ts:22-30 | migrating a legacy project does not change its listed counts |
| ProjectService.ProjectList | src/services/ProjectService.ts:16-35 | one entry per stored project, each its `Listed` item |
| ProjectService.Get | src/services/ProjectService.ts:409-421 | a field is found iff the value is an object with that key |
| ProjectService.ValidateProjectFile | src/services/ProjectService.ts:409-421 | valid iff the version, project id and name are strings and the data's contexts, concepts and relationships are arrays |
| ProjectService.ValidationWantsLegacyLists | src/services/ProjectService.ts:409-421 | a file whose data has no top-level concepts list is rejected |
| ProjectService.WithEditMode | src/services/ProjectService.ts:487-503 | the project's edit mode becomes the given one; only it and the update time change |
| ProjectService.LoadAfterEditMode | src/services/ProjectService.ts:487-503 | loading after an edit-mode update returns the data with the new mode |
| ProjectService.NewProjectData | src/services/ProjectService.ts:38-72 | two-design format with empty designs and contexts; trimmed name; a description and an author exactly when given, each trimmed; version 1.0.0; UML mode; no tags; both timestamps now |
| Text.Trim | src/services/ProjectService.ts:45 | the result is a slice of the text with only white space outside it and none at its ends, and it is empty iff the text is all white space |
| ProjectService.ProjectStore.constructor | src/services/ProjectService.ts:11-12 | no stored data and no current project |
| ProjectService.ProjectStore.SetCurrentProject | src/services/ProjectService.ts:370-372 | the current project becomes the id; the stored projects are unchanged |
| ProjectService.ProjectStore.SaveProject | src/services/ProjectService.ts:85-106 | the store becomes `Saved`, the caller's data is returned stamped, and success is reported |
| ProjectService.ProjectStore.LoadProject | src/services/ProjectService.ts:109-167 | the result, store and current project are those of `Load` |
| ProjectService.ProjectStore.DeleteProject | src/services/ProjectService.ts:170-207 | fails without changes for no store or an unknown id; otherwise only that key is removed and the current project is cleared if it was that id |
| ProjectService.ProjectStore.DuplicateProject | src/services/ProjectService.ts:210-273 | fails as the load fails; the copy as written (`DuplicateAsWritten`) is saved under the new id; data without contexts fails with the duplicate-failure text followed by the runtime's error message |
| ProjectService.ProjectStore.UpdateProjectEditMode | src/services/ProjectService.ts:487-508 | false with no change for no store or an unknown id; otherwise only that project becomes `WithEditMode` |
| ProjectService.ProjectStore.CreateProject | src/services/ProjectService.ts:38-82 | the new project is saved and becomes current, and is returned |
| ProjectService.ProjectStore.GetCurrentProject | src/services/ProjectService.ts:380-389 | fails without a current project, otherwise loads it |
| ProjectService.ProjectStore.ClearAllProjects | src/services/ProjectService.ts:392-406 | no stored data and no current project remain |
| ProjectService.ProjectStore.GetProject | src/services/ProjectService.ts:457-470 | the stored project's header iff the id is stored |

## Left out

- DOM measurement, observers and timers are inputs or not modelled: `getBoundingClientRect`, `offsetWidth`, `MutationObserver`, the `setTimeout` debounce and resize listeners. Measured sizes, element lists, the canvas origin and the focused-field test are parameters.
- react-dnd's hooks and monitor are not modelled; only the computed drop result and the callback choice are.
- `localStorage` is a `map` from id to project data, with `None` for an empty store. JSON parsing and stringifying are not modelled, and neither is the list item's `size` field, which is the length of the serialised text.
- Exceptions and quota failures of storage writes are not modelled. Every save succeeds, and the `加载项目失败`/`删除项目失败` exception messages never arise. The runtime's message for the one exception the model does produce (duplicating data without contexts) is a parameter.
- `importProject`, `exportProject`, the XML and YAML emitters and parsers, and `FileReader` are not modelled. This is serialisation and asynchronous I/O; import validation is modelled over a small JSON value type.
- Ids and timestamps from `Date.now()`, `Math.random()` and `toISOString()` are parameters. One `now` value stands for every timestamp taken within one call. The exception is CreateProject, whose creation and save times are distinct parameters.
- The trigonometric arrowhead of the simple line and `getArrowPath` of the context board are not modelled, because they need `atan2`, `cos`, `sin` and `sqrt`. Floating-point rounding is not modelled either; coordinates are exact reals.
- Connector.Intersection, Connector.Endpoints and the two Render functions require a non-zero direction between centres. For coincident centres the source divides by zero and draws nothing meaningful.
- ZoomableCanvas.ViewState.FitToContent requires a positive viewport and non-negative child sizes. A zero-width viewport in the source would give zoom 0, and later zoom steps would divide by it.
- ProjectService.ProjectStore.SaveProject: the source updates `updatedAt` on the caller's own object. The model returns the stamped data as `saved` instead of aliasing it.
- ProjectService.ProjectList returns a map keyed by storage key rather than the array `Object.values` builds, so list order is not modelled.
- App.Editor.EditModeChange: the call that also writes the new mode to the project store (src/App.tsx:230-232) is not part of the editor model; ProjectService.ProjectStore.UpdateProjectEditMode models that write on its own.
- The project manager, toolbar and global view screens, the autosave timer, and the `window.confirm` on leaving with unsaved changes are not modelled. They are presentation and browser dialogs.
- Style colours and concept styles from the type tables are not modelled beyond what selects a branch: line type, arrow type, arrow position, label and width.
- The context board's `getArrowPath` and the CSS of `getConceptStyle` are not modelled; only the priority of the highlight is.

## Findings

| source | as written | input that shows it | evidently intended | confidence | as-written member | corrected member |
|---|---|---|---|---|---|---|
| src/services/ProjectService.ts:221-244 | `duplicateProject` gives every context, concept and relationship a fresh id but copies `boundedContextId`, `sourceId` and `targetId` unchanged | a project with context `bc_1` and one concept in it; the copy's context becomes `bc_2` while the copied concept still points at `bc_1`, which the copy lacks | each reference is remapped to the copy of what it referred to, so the duplicate is as consistent as the original | not executed | ProjectService.DuplicateOrphanExample | ProjectService.DuplicateKeepsReferences |
| src/components/ZoomableCanvas.tsx:144-149 | the drag pan adds the pointer's displacement divided by the zoom, under a comment promising 1:1 movement; with the pan applied before the scale the content then moves by displacement/zoom | zoom 2, a 100-pixel drag: the pan and the content move 50 pixels, and the grabbed point slides from under the pointer | the pan grows by the raw displacement, so the content follows the pointer 1:1 | not executed | ZoomableCanvas.DragLosesGrip | ZoomableCanvas.GrabStaysUnderPointer |

Other observations that are modelled as written:

- `fitToContent` adds its 200-unit margin only after the maximum edge, so the padded box rather than the content is centred. It has no lower zoom bound (see ZoomableCanvas.FitCanLeaveZoomRange).
- `validateProjectFile` demands the legacy top-level `concepts` and `relationships` arrays, which current-format data does not need.
- The relationship picker's previews for shared kernel and published language refer to an arrow marker that is never defined.
- The initial canvas size of 2000×1500 is below the 3000×2000 that every extent update produces.
- The extent effect depends only on `children`, so its closure compares against the canvas size captured when the children last changed. A committed resize is not seen by later updates until then, and the shown extent can drift more than 200 from the computed one (ZoomableCanvas.StaleCommitKeepsDrift).

The editor and the project store use the code as written: a drag pans by `PanFrom`, and a duplicate is saved as `DuplicateAsWritten`. The corrected definitions stand beside them with their properties proved.
