/**
 * The project store: every project's data kept under its id in one stored
 * dictionary, plus the id of the current project. Saving, loading (with the
 * migration of data written before the two per-mode designs existed),
 * deleting, duplicating, listing, validating an import file and switching a
 * project's edit mode.
 *
 * The browser's key/value storage is modelled by two fields: `projects` is
 * the parsed dictionary (`None` when nothing is stored under its key) and
 * `currentProjectId` the current-project key. Clock readings and the random
 * parts of generated ids are parameters.
 */
module ProjectService {
  import opened Wrappers
  import opened Text
  import opened ProjectTypes

  type Projects = map<string, ProjectData>

  /** `{ success, message, data? }`. */
  datatype OperationResult = OperationResult(success: bool, message: string, data: Option<ProjectData>)

  function Failed(message: string): (r: OperationResult)
    ensures !r.success && r.data.None?
  {
    OperationResult(false, message, None)
  }

  const SaveOk: string := "项目保存成功"
  const LoadOk: string := "项目加载成功"
  const DeleteOk: string := "项目删除成功"
  const CreateOk: string := "项目创建成功"
  const ClearOk: string := "所有项目数据已清除"
  const NoStoredData: string := "没有找到项目数据"
  const NoSuchProject: string := "项目不存在"
  const NoCurrentProject: string := "没有当前项目"
  const DuplicateFailed: string := "复制项目失败: "

  /** The stored dictionary, an absent one read as empty (`stored ? JSON.parse(stored) : {}`). */
  function Dictionary(projects: Option<Projects>): Projects {
    projects.GetOr(map[])
  }

  // ---------------------------------------------------------------------------
  // Saving and loading

  /** The data with its modification time set, as `saveProject` does to the object it is given. */
  function Stamped(d: ProjectData, now: string): (r: ProjectData)
    ensures r.project.updatedAt == now && r.project.id == d.project.id
    ensures r.(project := d.project) == d
    ensures r.project.(updatedAt := d.project.updatedAt) == d.project
  {
    d.(project := d.project.(updatedAt := now))
  }

  /** The dictionary after `saveProject`: the data is stored under its own id, inserted or overwritten. */
  function Saved(projects: Option<Projects>, d: ProjectData, now: string): (r: Projects)
    ensures r.Keys == Dictionary(projects).Keys + {d.project.id}
    ensures r[d.project.id] == Stamped(d, now)
    ensures forall k :: k in Dictionary(projects) && k != d.project.id ==> r[k] == Dictionary(projects)[k]
  {
    Dictionary(projects)[d.project.id := Stamped(d, now)]
  }

  /**
   * Old-format data brought to the two-design format: missing contexts become
   * an empty list, the concept design starts empty and the UML design takes the
   * old top-level concepts and relationships, each defaulting to empty.
   */
  function Migrate(d: ProjectData): (r: ProjectData)
    ensures IsCurrentFormat(r) && r.project == d.project
    ensures r.boundedContexts == Some(d.boundedContexts.GetOr([]))
    ensures DesignOf(r, ConceptDesign) == EmptyDesign
    ensures DesignOf(r, Uml) == Design(d.concepts.GetOr([]), d.relationships.GetOr([]))
    ensures r.concepts.None? && r.relationships.None?
  {
    ProjectData(d.project, Some(d.boundedContexts.GetOr([])), Some(EmptyDesign),
                Some(Design(d.concepts.GetOr([]), d.relationships.GetOr([]))), None, None)
  }

  /** What a load leaves behind: its result, the stored dictionary and the current-project key. */
  datatype LoadOutcome = LoadOutcome(result: OperationResult, projects: Option<Projects>, current: Option<string>)

  /**
   * `loadProject(id)`: fails when nothing is stored or the id is unknown;
   * returns data in the two-design format as stored; migrates older data,
   * saves the migrated data back and returns it. A successful load makes the
   * project current.
   */
  function Load(projects: Option<Projects>, current: Option<string>, id: string, now: string): (l: LoadOutcome)
    ensures projects.None? ==> l == LoadOutcome(Failed(NoStoredData), projects, current)
    ensures projects.Some? && id !in projects.value ==> l == LoadOutcome(Failed(NoSuchProject), projects, current)
    ensures l.result.success <==> projects.Some? && id in projects.value
    ensures l.result.success ==> l.current == Some(id) && l.result.data.Some? && IsCurrentFormat(l.result.data.value)
    ensures l.result.success && IsCurrentFormat(projects.value[id]) ==>
              l.result.data == Some(projects.value[id]) && l.projects == projects
    ensures l.result.success && !IsCurrentFormat(projects.value[id]) ==>
              l.result.data == Some(Stamped(Migrate(projects.value[id]), now))
              && l.projects == Some(Saved(projects, Migrate(projects.value[id]), now))
  {
    if projects.None? then LoadOutcome(Failed(NoStoredData), projects, current)
    else if id !in projects.value then LoadOutcome(Failed(NoSuchProject), projects, current)
    else
      var original := projects.value[id];
      if IsCurrentFormat(original) then LoadOutcome(OperationResult(true, LoadOk, Some(original)), projects, Some(id))
      else
        var migrated := Migrate(original);
        LoadOutcome(OperationResult(true, LoadOk, Some(Stamped(migrated, now))), Some(Saved(projects, migrated, now)), Some(id))
  }

  /** What was saved in the two-design format is what a load returns. */
  lemma LoadAfterSave(projects: Option<Projects>, current: Option<string>, d: ProjectData, now: string, later: string)
    requires IsCurrentFormat(d)
    ensures var l := Load(Some(Saved(projects, d, now)), current, d.project.id, later);
            l.result.success && l.result.data == Some(Stamped(d, now)) && l.projects == Some(Saved(projects, d, now))
  {
    assert IsCurrentFormat(Stamped(d, now));
  }

  /**
   * Migration is persisted: loading a project a second time returns what the
   * first load returned and stores nothing new, provided the project is kept
   * under its own id.
   */
  lemma LoadTwiceStable(projects: Projects, current: Option<string>, id: string, now: string, later: string)
    requires id in projects && projects[id].project.id == id
    ensures var first := Load(Some(projects), current, id, now);
            var second := Load(first.projects, first.current, id, later);
            second == first
  {
    var first := Load(Some(projects), current, id, now);
    if !IsCurrentFormat(projects[id]) {
      var m := Migrate(projects[id]);
      assert first.projects.value[id] == Stamped(m, now);
      assert IsCurrentFormat(Stamped(m, now));
    }
  }

  // ---------------------------------------------------------------------------
  // Duplicating

  /** The ids of a list, position by position. */
  function ContextIds(cs: seq<BoundedContext>): (ids: seq<string>)
    ensures |ids| == |cs| && forall i :: 0 <= i < |cs| ==> ids[i] == cs[i].id
  {
    seq(|cs|, i requires 0 <= i < |cs| => cs[i].id)
  }

  function ConceptIds(cs: seq<DDDConcept>): (ids: seq<string>)
    ensures |ids| == |cs| && forall i :: 0 <= i < |cs| ==> ids[i] == cs[i].id
  {
    seq(|cs|, i requires 0 <= i < |cs| => cs[i].id)
  }

  /** Copies of contexts with the ids `bc_` + `stampOf(base)`, `bc_` + `stampOf(base + 1)`, … */
  function RenewContexts(cs: seq<BoundedContext>, stampOf: nat -> string, base: nat): (r: seq<BoundedContext>)
    ensures |r| == |cs|
    ensures forall i :: 0 <= i < |cs| ==> r[i] == cs[i].(id := "bc_" + stampOf(base + i))
  {
    seq(|cs|, i requires 0 <= i < |cs| => cs[i].(id := "bc_" + stampOf(base + i)))
  }

  /** Copies of concepts with the ids `c_` + `stampOf(base + i)`. */
  function RenewConcepts(cs: seq<DDDConcept>, stampOf: nat -> string, base: nat): (r: seq<DDDConcept>)
    ensures |r| == |cs|
    ensures forall i :: 0 <= i < |cs| ==> r[i] == cs[i].(id := "c_" + stampOf(base + i))
  {
    seq(|cs|, i requires 0 <= i < |cs| => cs[i].(id := "c_" + stampOf(base + i)))
  }

  /** Copies of relationships with the ids `r_` + `stampOf(base + i)`. */
  function RenewRelationships(rs: seq<DDDRelationship>, stampOf: nat -> string, base: nat): (r: seq<DDDRelationship>)
    ensures |r| == |rs|
    ensures forall i :: 0 <= i < |rs| ==> r[i] == rs[i].(id := "r_" + stampOf(base + i))
  {
    seq(|rs|, i requires 0 <= i < |rs| => rs[i].(id := "r_" + stampOf(base + i)))
  }

  /** The duplicate's project record: new id, given name, version 1.0.0, both times `now`. */
  function CopiedProject(p: Project, newId: string, newName: string, now: string): (q: Project)
    ensures q.id == newId && q.name == newName && q.version == "1.0.0" && q.createdAt == now && q.updatedAt == now
    ensures q.description == p.description && q.author == p.author && q.tags == p.tags && q.editMode == p.editMode
  {
    p.(id := newId, name := newName, createdAt := now, updatedAt := now, version := "1.0.0")
  }

  /**
   * The copy `duplicateProject` builds, as written: every context, concept
   * and relationship receives a fresh id, in the order contexts, concept-design
   * concepts and relationships, UML concepts and relationships; the
   * references between them are copied unchanged.
   */
  function DuplicateAsWritten(d: ProjectData, newId: string, newName: string, now: string, stampOf: nat -> string): (r: ProjectData)
    requires IsCurrentFormat(d) && d.boundedContexts.Some?
    ensures IsCurrentFormat(r) && r.boundedContexts.Some?
    ensures r.project == CopiedProject(d.project, newId, newName, now)
    ensures |r.boundedContexts.value| == |d.boundedContexts.value|
    ensures forall i :: 0 <= i < |d.boundedContexts.value| ==> r.boundedContexts.value[i].id == "bc_" + stampOf(i)
    ensures forall mode :: |DesignOf(r, mode).concepts| == |DesignOf(d, mode).concepts|
                           && |DesignOf(r, mode).relationships| == |DesignOf(d, mode).relationships|
    ensures forall mode, i :: 0 <= i < |DesignOf(d, mode).concepts| ==>
              DesignOf(r, mode).concepts[i].boundedContextId == DesignOf(d, mode).concepts[i].boundedContextId
    ensures forall mode, i :: 0 <= i < |DesignOf(d, mode).relationships| ==>
              DesignOf(r, mode).relationships[i].sourceId == DesignOf(d, mode).relationships[i].sourceId
              && DesignOf(r, mode).relationships[i].targetId == DesignOf(d, mode).relationships[i].targetId
  {
    var contexts := d.boundedContexts.value;
    var cd := d.conceptDesign.value;
    var uml := d.umlDesign.value;
    var b1 := |contexts|;
    var b2 := b1 + |cd.concepts|;
    var b3 := b2 + |cd.relationships|;
    var b4 := b3 + |uml.concepts|;
    ProjectData(CopiedProject(d.project, newId, newName, now),
                Some(RenewContexts(contexts, stampOf, 0)),
                Some(Design(RenewConcepts(cd.concepts, stampOf, b1), RenewRelationships(cd.relationships, stampOf, b2))),
                Some(Design(RenewConcepts(uml.concepts, stampOf, b3), RenewRelationships(uml.relationships, stampOf, b4))),
                None, None)
  }

  /**
   * The copy keeps the shape of the original: every list keeps its length and
   * each element differs from the original only in its id; the context of a
   * concept and the ends of a relationship are the original ids.
   */
  lemma DuplicateKeepsShape(d: ProjectData, newId: string, newName: string, now: string, stampOf: nat -> string, mode: EditMode)
    requires IsCurrentFormat(d) && d.boundedContexts.Some?
    ensures var r := DuplicateAsWritten(d, newId, newName, now, stampOf);
            && IsCurrentFormat(r) && r.boundedContexts.Some?
            && r.project == CopiedProject(d.project, newId, newName, now)
            && |r.boundedContexts.value| == |d.boundedContexts.value|
            && (forall i :: 0 <= i < |d.boundedContexts.value| ==>
                  r.boundedContexts.value[i] == d.boundedContexts.value[i].(id := r.boundedContexts.value[i].id))
            && |DesignOf(r, mode).concepts| == |DesignOf(d, mode).concepts|
            && |DesignOf(r, mode).relationships| == |DesignOf(d, mode).relationships|
            && (forall i :: 0 <= i < |DesignOf(d, mode).concepts| ==>
                  DesignOf(r, mode).concepts[i] == DesignOf(d, mode).concepts[i].(id := DesignOf(r, mode).concepts[i].id))
            && (forall i :: 0 <= i < |DesignOf(d, mode).relationships| ==>
                  DesignOf(r, mode).relationships[i] == DesignOf(d, mode).relationships[i].(id := DesignOf(r, mode).relationships[i].id))
  {
  }

  /**
   * The copy's concepts are all orphaned: when the original's concepts lie in
   * its contexts and the fresh context ids differ from the original ones, no
   * copied UML concept lies in a copied context.
   */
  lemma DuplicateOrphansConcepts(d: ProjectData, newId: string, newName: string, now: string, stampOf: nat -> string)
    requires IsCurrentFormat(d) && d.boundedContexts.Some?
    requires ConceptsPlaced(d.boundedContexts.value, d.umlDesign.value.concepts)
    requires forall n: nat, j :: 0 <= j < |d.boundedContexts.value| ==> "bc_" + stampOf(n) != d.boundedContexts.value[j].id
    ensures var r := DuplicateAsWritten(d, newId, newName, now, stampOf);
            forall i :: 0 <= i < |r.umlDesign.value.concepts| ==>
              !HasContext(r.boundedContexts.value, r.umlDesign.value.concepts[i].boundedContextId)
  {
    var r := DuplicateAsWritten(d, newId, newName, now, stampOf);
    var contexts := d.boundedContexts.value;
    forall i | 0 <= i < |r.umlDesign.value.concepts|
      ensures !HasContext(r.boundedContexts.value, r.umlDesign.value.concepts[i].boundedContextId)
    {
      var c := r.umlDesign.value.concepts[i];
      var j :| 0 <= j < |contexts| && contexts[j].id == c.boundedContextId;
      forall k | 0 <= k < |r.boundedContexts.value|
        ensures r.boundedContexts.value[k].id != c.boundedContextId
      {
        assert r.boundedContexts.value[k].id == "bc_" + stampOf(k);
      }
    }
  }

  /** A concrete instance: one context holding one concept; the copied concept is orphaned. */
  lemma DuplicateOrphanExample()
    ensures var p := Project("p", "P", None, "1.0.0", "t0", "t0", None, None, Some(Uml));
            var ctx := BoundedContext("bc_1", "Orders", "", "#3B82F6", Geometry.Point(0.0, 0.0), Geometry.Size(300.0, 200.0));
            var c := DDDConcept("c_1", "Order", RelationshipTypes.Entity, Geometry.Point(50.0, 50.0), "bc_1", None, None, None);
            var d := ProjectData(p, Some([ctx]), Some(EmptyDesign), Some(Design([c], [])), None, None);
            var r := DuplicateAsWritten(d, "p2", "Copy", "t1", (n: nat) => "2");
            ConceptsPlaced(d.boundedContexts.value, d.umlDesign.value.concepts)
            && !ConceptsPlaced(r.boundedContexts.value, r.umlDesign.value.concepts)
  {
    var p := Project("p", "P", None, "1.0.0", "t0", "t0", None, None, Some(Uml));
    var ctx := BoundedContext("bc_1", "Orders", "", "#3B82F6", Geometry.Point(0.0, 0.0), Geometry.Size(300.0, 200.0));
    var c := DDDConcept("c_1", "Order", RelationshipTypes.Entity, Geometry.Point(50.0, 50.0), "bc_1", None, None, None);
    var d := ProjectData(p, Some([ctx]), Some(EmptyDesign), Some(Design([c], [])), None, None);
    var stampOf := (n: nat) => "2";
    var r := DuplicateAsWritten(d, "p2", "Copy", "t1", stampOf);
    assert HasContext(d.boundedContexts.value, "bc_1") by { assert d.boundedContexts.value[0].id == "bc_1"; }
    assert stampOf(0) == "2";
    assert |r.boundedContexts.value| == 1 && r.boundedContexts.value[0].id == "bc_2";
    assert r.umlDesign.value.concepts[0].boundedContextId == "bc_1";
    assert "bc_2" != "bc_1" by { assert "bc_2"[3] != "bc_1"[3]; }
    assert !HasContext(r.boundedContexts.value, "bc_1");
  }

  /**
   * The id that replaces `id` when the ids `olds` are renewed as `news`
   * position by position (the first match wins); an id not among `olds` is kept.
   */
  function Remap(id: string, olds: seq<string>, news: seq<string>): (r: string)
    requires |olds| == |news|
    ensures id in olds ==> r in news
    ensures id in olds ==> exists i :: 0 <= i < |olds| && olds[i] == id && news[i] == r
    ensures id !in olds ==> r == id
  {
    if olds == [] then id
    else if olds[0] == id then news[0]
    else
      var r := Remap(id, olds[1..], news[1..]);
      assert id in olds[1..] ==> exists i :: 0 <= i < |olds| && olds[i] == id && news[i] == r by {
        if id in olds[1..] {
          var i :| 0 <= i < |olds[1..]| && olds[1..][i] == id && news[1..][i] == r;
          assert olds[i + 1] == id && news[i + 1] == r;
        }
      }
      r
  }

  /** Concepts copied with fresh ids, each moved into the copy of its context. */
  function CopyConcepts(cs: seq<DDDConcept>, oldContexts: seq<string>, newContexts: seq<string>, stampOf: nat -> string, base: nat): (r: seq<DDDConcept>)
    requires |oldContexts| == |newContexts|
    ensures |r| == |cs|
    ensures forall i :: 0 <= i < |cs| ==>
              r[i] == cs[i].(id := "c_" + stampOf(base + i), boundedContextId := Remap(cs[i].boundedContextId, oldContexts, newContexts))
  {
    seq(|cs|, i requires 0 <= i < |cs| =>
      cs[i].(id := "c_" + stampOf(base + i), boundedContextId := Remap(cs[i].boundedContextId, oldContexts, newContexts)))
  }

  /** Relationships copied with fresh ids, their ends moved to the copies of their concepts. */
  function CopyRelationships(rs: seq<DDDRelationship>, oldConcepts: seq<string>, newConcepts: seq<string>, stampOf: nat -> string, base: nat): (r: seq<DDDRelationship>)
    requires |oldConcepts| == |newConcepts|
    ensures |r| == |rs|
    ensures forall i :: 0 <= i < |rs| ==>
              r[i] == rs[i].(id := "r_" + stampOf(base + i),
                             sourceId := Remap(rs[i].sourceId, oldConcepts, newConcepts),
                             targetId := Remap(rs[i].targetId, oldConcepts, newConcepts))
  {
    seq(|rs|, i requires 0 <= i < |rs| =>
      rs[i].(id := "r_" + stampOf(base + i),
             sourceId := Remap(rs[i].sourceId, oldConcepts, newConcepts),
             targetId := Remap(rs[i].targetId, oldConcepts, newConcepts)))
  }

  /** A design copied with fresh ids and its references renewed along with them. */
  function CopyDesign(design: Design, oldContexts: seq<string>, newContexts: seq<string>, stampOf: nat -> string, base: nat): (r: Design)
    requires |oldContexts| == |newContexts|
    ensures r.concepts == CopyConcepts(design.concepts, oldContexts, newContexts, stampOf, base)
    ensures r.relationships == CopyRelationships(design.relationships, ConceptIds(design.concepts), ConceptIds(r.concepts),
                                                 stampOf, base + |design.concepts|)
  {
    var concepts := CopyConcepts(design.concepts, oldContexts, newContexts, stampOf, base);
    Design(concepts, CopyRelationships(design.relationships, ConceptIds(design.concepts), ConceptIds(concepts), stampOf, base + |design.concepts|))
  }

  /** Renewed references resolve in the copy whenever the original ones resolved in the original. */
  lemma CopyDesignKeepsReferences(contexts: seq<BoundedContext>, copies: seq<BoundedContext>, design: Design, stampOf: nat -> string, base: nat)
    requires |contexts| == |copies|
    requires ConceptsPlaced(contexts, design.concepts) && RelationshipsResolved(design.concepts, design.relationships)
    ensures var r := CopyDesign(design, ContextIds(contexts), ContextIds(copies), stampOf, base);
            ConceptsPlaced(copies, r.concepts) && RelationshipsResolved(r.concepts, r.relationships)
  {
    var r := CopyDesign(design, ContextIds(contexts), ContextIds(copies), stampOf, base);
    forall i | 0 <= i < |r.concepts|
      ensures HasContext(copies, r.concepts[i].boundedContextId)
    {
      var id := design.concepts[i].boundedContextId;
      var j :| 0 <= j < |contexts| && contexts[j].id == id;
      assert ContextIds(contexts)[j] == id;
      var k :| 0 <= k < |contexts| && ContextIds(contexts)[k] == id && ContextIds(copies)[k] == r.concepts[i].boundedContextId;
      assert copies[k].id == r.concepts[i].boundedContextId;
    }
    var olds := ConceptIds(design.concepts);
    var news := ConceptIds(r.concepts);
    forall i | 0 <= i < |r.relationships|
      ensures HasConcept(r.concepts, r.relationships[i].sourceId) && HasConcept(r.concepts, r.relationships[i].targetId)
    {
      var x := design.relationships[i];
      var a :| 0 <= a < |design.concepts| && design.concepts[a].id == x.sourceId;
      var b :| 0 <= b < |design.concepts| && design.concepts[b].id == x.targetId;
      assert olds[a] == x.sourceId && olds[b] == x.targetId;
      var s :| 0 <= s < |olds| && olds[s] == x.sourceId && news[s] == r.relationships[i].sourceId;
      var t :| 0 <= t < |olds| && olds[t] == x.targetId && news[t] == r.relationships[i].targetId;
      assert r.concepts[s].id == r.relationships[i].sourceId && r.concepts[t].id == r.relationships[i].targetId;
    }
  }

  /** Where the fresh ids of a design's copy start: after the contexts, and for UML after the concept design too. */
  function CopyBase(d: ProjectData, mode: EditMode): nat
    requires IsCurrentFormat(d) && d.boundedContexts.Some?
  {
    var b1 := |d.boundedContexts.value|;
    match mode
    case ConceptDesign => b1
    case Uml => b1 + |d.conceptDesign.value.concepts| + |d.conceptDesign.value.relationships|
  }

  /** The duplicate with its references renewed together with the ids they point at. */
  function Duplicate(d: ProjectData, newId: string, newName: string, now: string, stampOf: nat -> string): (r: ProjectData)
    requires IsCurrentFormat(d) && d.boundedContexts.Some?
    ensures IsCurrentFormat(r) && r.boundedContexts.Some? && r.concepts.None? && r.relationships.None?
    ensures r.project == CopiedProject(d.project, newId, newName, now)
    ensures r.boundedContexts.value == RenewContexts(d.boundedContexts.value, stampOf, 0)
    ensures r.conceptDesign.value == CopyDesign(d.conceptDesign.value, ContextIds(d.boundedContexts.value),
                                                ContextIds(r.boundedContexts.value), stampOf, CopyBase(d, ConceptDesign))
    ensures r.umlDesign.value == CopyDesign(d.umlDesign.value, ContextIds(d.boundedContexts.value),
                                            ContextIds(r.boundedContexts.value), stampOf, CopyBase(d, Uml))
    ensures forall m :: |DesignOf(r, m).concepts| == |DesignOf(d, m).concepts|
                        && |DesignOf(r, m).relationships| == |DesignOf(d, m).relationships|
  {
    var contexts := d.boundedContexts.value;
    var copies := RenewContexts(contexts, stampOf, 0);
    ProjectData(CopiedProject(d.project, newId, newName, now), Some(copies),
                Some(CopyDesign(d.conceptDesign.value, ContextIds(contexts), ContextIds(copies), stampOf, CopyBase(d, ConceptDesign))),
                Some(CopyDesign(d.umlDesign.value, ContextIds(contexts), ContextIds(copies), stampOf, CopyBase(d, Uml))),
                None, None)
  }

  /** The duplicate keeps every concept in its context and every relationship attached, in both designs. */
  lemma DuplicateKeepsReferences(d: ProjectData, newId: string, newName: string, now: string, stampOf: nat -> string, mode: EditMode)
    requires IsCurrentFormat(d) && d.boundedContexts.Some?
    requires ConceptsPlaced(d.boundedContexts.value, DesignOf(d, mode).concepts)
    requires RelationshipsResolved(DesignOf(d, mode).concepts, DesignOf(d, mode).relationships)
    ensures var r := Duplicate(d, newId, newName, now, stampOf);
            ConceptsPlaced(r.boundedContexts.value, DesignOf(r, mode).concepts)
            && RelationshipsResolved(DesignOf(r, mode).concepts, DesignOf(r, mode).relationships)
  {
    var contexts := d.boundedContexts.value;
    var r := Duplicate(d, newId, newName, now, stampOf);
    CopyDesignKeepsReferences(contexts, r.boundedContexts.value, DesignOf(d, mode), stampOf, CopyBase(d, mode));
  }

  // ---------------------------------------------------------------------------
  // Listing

  /** One line of the project list (the serialised size is not modelled). */
  datatype ListItem = ListItem(
    id: string,
    name: string,
    description: Option<string>,
    updatedAt: string,
    conceptCount: nat,
    contextCount: nat)

  /** The list line of one project: concepts counted over both designs and the legacy list. */
  function Listed(d: ProjectData): (item: ListItem)
    ensures item.id == d.project.id && item.name == d.project.name
    ensures item.description == d.project.description && item.updatedAt == d.project.updatedAt
    ensures item.conceptCount == |DesignOf(d, Uml).concepts| + |DesignOf(d, ConceptDesign).concepts| + OptLength(d.concepts)
    ensures item.contextCount == OptLength(d.boundedContexts)
  {
    var uml := if d.umlDesign.Some? then |d.umlDesign.value.concepts| else 0;
    var cd := if d.conceptDesign.Some? then |d.conceptDesign.value.concepts| else 0;
    ListItem(d.project.id, d.project.name, d.project.description, d.project.updatedAt,
             uml + cd + OptLength(d.concepts), OptLength(d.boundedContexts))
  }

  /** Migrating old-format data changes neither its concept count nor its context count. */
  lemma MigrateKeepsCounts(d: ProjectData)
    requires d.conceptDesign.None? && d.umlDesign.None?
    ensures Listed(Migrate(d)).conceptCount == Listed(d).conceptCount
    ensures Listed(Migrate(d)).contextCount == Listed(d).contextCount
  {
  }

  /** `getProjectList`, keyed by storage key (the list's order is that of the stored dictionary). */
  function ProjectList(projects: Option<Projects>): (r: map<string, ListItem>)
    ensures r.Keys == Dictionary(projects).Keys
    ensures forall k :: k in r ==> r[k] == Listed(Dictionary(projects)[k])
  {
    map k | k in Dictionary(projects) :: Listed(Dictionary(projects)[k])
  }

  // ---------------------------------------------------------------------------
  // Import-file validation

  /** A parsed JSON value. */
  datatype Json = JNull | JBool(b: bool) | JNumber(n: real) | JString(s: string) | JArray(items: seq<Json>) | JObject(fields: map<string, Json>)

  /** `v.key`: the field of an object, undefined (`None`) for anything else or a missing key. */
  function Get(v: Option<Json>, key: string): (r: Option<Json>)
    ensures r.Some? <==> v.Some? && v.value.JObject? && key in v.value.fields
  {
    if v.Some? && v.value.JObject? && key in v.value.fields then Some(v.value.fields[key]) else None
  }

  /** JavaScript truthiness of a possibly undefined value. */
  predicate JsTruthy(v: Option<Json>) {
    match v
    case None => false
    case Some(JNull) => false
    case Some(JBool(b)) => b
    case Some(JNumber(n)) => n != 0.0
    case Some(JString(s)) => s != ""
    case Some(_) => true
  }

  predicate IsString(v: Option<Json>) {
    v.Some? && v.value.JString?
  }

  predicate IsArray(v: Option<Json>) {
    v.Some? && v.value.JArray?
  }

  /**
   * `validateProjectFile`: a string version, a data object whose project has
   * a string id and name, and arrays of contexts, concepts and relationships
   * directly under data.
   */
  function ValidateProjectFile(file: Json): (ok: bool)
    ensures ok <==> file.JObject? && IsString(Get(Some(file), "version"))
                    && (var data := Get(Some(file), "data");
                        IsString(Get(Get(data, "project"), "id")) && IsString(Get(Get(data, "project"), "name"))
                        && IsArray(Get(data, "boundedContexts")) && IsArray(Get(data, "concepts")) && IsArray(Get(data, "relationships")))
  {
    var f := Some(file);
    var data := Get(f, "data");
    var project := Get(data, "project");
    JsTruthy(f) && IsString(Get(f, "version")) && JsTruthy(data) && JsTruthy(project)
    && IsString(Get(project, "id")) && IsString(Get(project, "name"))
    && IsArray(Get(data, "boundedContexts")) && IsArray(Get(data, "concepts")) && IsArray(Get(data, "relationships"))
  }

  /**
   * A file whose data is in the two-design format only, without the legacy
   * top-level concept and relationship lists, is refused.
   */
  lemma ValidationWantsLegacyLists(file: Json, data: map<string, Json>)
    requires file.JObject? && "data" in file.fields && file.fields["data"] == JObject(data)
    requires "concepts" !in data
    ensures !ValidateProjectFile(file)
  {
  }

  // ---------------------------------------------------------------------------
  // Edit mode

  /** The data with a new edit mode and modification time. */
  function WithEditMode(d: ProjectData, mode: EditMode, now: string): (r: ProjectData)
    ensures r.project.editMode == Some(mode) && r.project.updatedAt == now && r.project.id == d.project.id
    ensures r.(project := d.project) == d
    ensures r.project.(editMode := d.project.editMode, updatedAt := d.project.updatedAt) == d.project
  {
    d.(project := d.project.(editMode := Some(mode), updatedAt := now))
  }

  /** After an edit-mode update, loading the project opens it in the new mode. */
  lemma LoadAfterEditMode(projects: Projects, current: Option<string>, id: string, mode: EditMode, now: string, later: string)
    requires id in projects && IsCurrentFormat(projects[id])
    ensures var l := Load(Some(projects[id := WithEditMode(projects[id], mode, now)]), current, id, later);
            l.result.success && l.result.data.value.project.editMode == Some(mode)
  {
    assert IsCurrentFormat(WithEditMode(projects[id], mode, now));
  }

  /** A new project: trimmed name, description and author, version 1.0.0, no tags, UML mode, nothing drawn. */
  function NewProjectData(id: string, name: string, description: Option<string>, author: Option<string>, now: string): (d: ProjectData)
    ensures IsCurrentFormat(d) && d.boundedContexts == Some([])
    ensures DesignOf(d, Uml) == EmptyDesign && DesignOf(d, ConceptDesign) == EmptyDesign
    ensures d.project.id == id && d.project.name == Trim(name) && IsTrimmed(d.project.name)
    ensures d.project.version == "1.0.0" && d.project.editMode == Some(Uml) && d.project.tags == Some([])
    ensures d.project.description.Some? <==> description.Some?
    ensures description.Some? ==> d.project.description == Some(Trim(description.value))
    ensures d.project.author.Some? <==> author.Some?
    ensures author.Some? ==> d.project.author == Some(Trim(author.value))
    ensures d.project.createdAt == now && d.project.updatedAt == now
  {
    ProjectData(NewProject(id, name, description, author, now), Some([]), Some(EmptyDesign), Some(EmptyDesign), None, None)
  }

  /** The header of a new project, with its text fields trimmed. */
  function NewProject(id: string, name: string, description: Option<string>, author: Option<string>, now: string): (p: Project)
    ensures p.id == id && p.name == Trim(name) && IsTrimmed(p.name)
    ensures p.version == "1.0.0" && p.editMode == Some(Uml) && p.tags == Some([])
    ensures p.description == (if description.Some? then Some(Trim(description.value)) else None)
    ensures p.author == (if author.Some? then Some(Trim(author.value)) else None)
    ensures p.createdAt == now && p.updatedAt == now
  {
    var trimmedDescription := if description.Some? then Some(Trim(description.value)) else None;
    var trimmedAuthor := if author.Some? then Some(Trim(author.value)) else None;
    Project(id, Trim(name), trimmedDescription, "1.0.0", now, now, trimmedAuthor, Some([]), Some(Uml))
  }

  // ---------------------------------------------------------------------------
  // The store

  class ProjectStore {
    /** The stored project dictionary; `None` when nothing is stored. */
    var projects: Option<Projects>
    /** The current-project key. */
    var currentProjectId: Option<string>

    constructor()
      ensures projects.None? && currentProjectId.None?
    {
      projects := None;
      currentProjectId := None;
    }

    /** `setCurrentProject`. */
    method SetCurrentProject(id: string)
      modifies this
      ensures currentProjectId == Some(id) && projects == old(projects)
    {
      currentProjectId := Some(id);
    }

    /**
     * `saveProject`: stamps the modification time on the data it is given
     * (`saved` is that data afterwards) and stores it under its id.
     */
    method SaveProject(data: ProjectData, now: string) returns (result: OperationResult, saved: ProjectData)
      modifies this
      ensures saved == Stamped(data, now)
      ensures projects == Some(Saved(old(projects), data, now))
      ensures currentProjectId == old(currentProjectId)
      ensures result == OperationResult(true, SaveOk, None)
    {
      saved := data.(project := data.project.(updatedAt := now));
      var stored := if projects.Some? then projects.value else map[];
      stored := stored[saved.project.id := saved];
      projects := Some(stored);
      result := OperationResult(true, SaveOk, None);
    }

    /** `loadProject`. */
    method LoadProject(id: string, now: string) returns (result: OperationResult)
      modifies this
      ensures var l := Load(old(projects), old(currentProjectId), id, now);
              result == l.result && projects == l.projects && currentProjectId == l.current
    {
      if projects.None? {
        return Failed(NoStoredData);
      }
      if id !in projects.value {
        return Failed(NoSuchProject);
      }
      var original := projects.value[id];
      var data := original;
      if !IsCurrentFormat(original) {
        var migrated := Migrate(original);
        var _, stamped := SaveProject(migrated, now);
        data := stamped;
      }
      SetCurrentProject(id);
      result := OperationResult(true, LoadOk, Some(data));
    }

    /** `deleteProject`: removes only that key, and clears the current-project key if it named the project. */
    method DeleteProject(id: string) returns (result: OperationResult)
      modifies this
      ensures old(projects).None? ==> result == Failed(NoStoredData)
      ensures old(projects).Some? && id !in old(projects).value ==> result == Failed(NoSuchProject)
      ensures !result.success ==> projects == old(projects) && currentProjectId == old(currentProjectId)
      ensures result.success <==> old(projects).Some? && id in old(projects).value
      ensures result.success ==> result == OperationResult(true, DeleteOk, None)
      ensures result.success ==> projects == Some(old(projects).value - {id})
      ensures result.success ==> currentProjectId == (if old(currentProjectId) == Some(id) then None else old(currentProjectId))
    {
      if projects.None? {
        return Failed(NoStoredData);
      }
      if id !in projects.value {
        return Failed(NoSuchProject);
      }
      projects := Some(projects.value - {id});
      if currentProjectId == Some(id) {
        currentProjectId := None;
      }
      result := OperationResult(true, DeleteOk, None);
    }

    /**
     * `duplicateProject`: loads the original (with the load's effects), then
     * saves the copy as written under `newId`: fresh ids, references
     * unchanged. Data in the two-design format without a context list makes
     * the copy throw; `reason` is the runtime's error message, which follows
     * the failure prefix.
     */
    method DuplicateProject(id: string, newId: string, newName: string, now: string, stampOf: nat -> string, reason: string)
      returns (result: OperationResult)
      modifies this
      ensures var l := Load(old(projects), old(currentProjectId), id, now);
              && (!l.result.success ==> result == l.result && projects == l.projects && currentProjectId == l.current)
              && (l.result.success && l.result.data.value.boundedContexts.None? ==>
                    result == Failed(DuplicateFailed + reason) && projects == l.projects && currentProjectId == l.current)
              && (l.result.success && l.result.data.value.boundedContexts.Some? ==>
                    result == OperationResult(true, SaveOk, None)
                    && projects == Some(Saved(l.projects, DuplicateAsWritten(l.result.data.value, newId, newName, now, stampOf), now))
                    && currentProjectId == l.current)
    {
      var loaded := LoadProject(id, now);
      if !loaded.success {
        return loaded;
      }
      var original := loaded.data.value;
      if original.boundedContexts.None? {
        return Failed(DuplicateFailed + reason);
      }
      var copy := DuplicateAsWritten(original, newId, newName, now, stampOf);
      var _, _ := SaveProject(copy, now);
      result := OperationResult(true, SaveOk, None);
    }

    /** `updateProjectEditMode`: false for an empty store or an unknown id; otherwise only that project's mode and time change. */
    method UpdateProjectEditMode(id: string, mode: EditMode, now: string) returns (ok: bool)
      modifies this
      ensures ok <==> old(projects).Some? && id in old(projects).value
      ensures !ok ==> projects == old(projects)
      ensures ok ==> projects == Some(old(projects).value[id := WithEditMode(old(projects).value[id], mode, now)])
      ensures currentProjectId == old(currentProjectId)
    {
      if projects.None? || id !in projects.value {
        return false;
      }
      var data := projects.value[id];
      data := data.(project := data.project.(editMode := Some(mode), updatedAt := now));
      projects := Some(projects.value[id := data]);
      ok := true;
    }

    /** `createProject`: saves a fresh empty project under `id` and makes it current. */
    method CreateProject(id: string, name: string, description: Option<string>, author: Option<string>, now: string, savedAt: string)
      returns (result: OperationResult)
      modifies this
      ensures result == OperationResult(true, CreateOk, Some(Stamped(NewProjectData(id, name, description, author, now), savedAt)))
      ensures projects == Some(Saved(old(projects), NewProjectData(id, name, description, author, now), savedAt))
      ensures currentProjectId == Some(id)
    {
      var data := NewProjectData(id, name, description, author, now);
      var _, saved := SaveProject(data, savedAt);
      SetCurrentProject(id);
      result := OperationResult(true, CreateOk, Some(saved));
    }

    /** `getCurrentProject`: loads the current project, or fails when there is none. */
    method GetCurrentProject(now: string) returns (result: OperationResult)
      modifies this
      ensures !Truthy(old(currentProjectId)) ==> result == Failed(NoCurrentProject) && projects == old(projects) && currentProjectId == old(currentProjectId)
      ensures Truthy(old(currentProjectId)) ==>
                var l := Load(old(projects), old(currentProjectId), old(currentProjectId).value, now);
                result == l.result && projects == l.projects && currentProjectId == l.current
    {
      if !Truthy(currentProjectId) {
        return Failed(NoCurrentProject);
      }
      result := LoadProject(currentProjectId.value, now);
    }

    /** `clearAllProjects`: both keys are removed. */
    method ClearAllProjects() returns (result: OperationResult)
      modifies this
      ensures projects.None? && currentProjectId.None? && result == OperationResult(true, ClearOk, None)
    {
      projects := None;
      currentProjectId := None;
      result := OperationResult(true, ClearOk, None);
    }

    /** `getProject`: the stored project record, if any. */
    function GetProject(id: string): (p: Option<Project>)
      reads this
      ensures p.Some? <==> projects.Some? && id in projects.value
      ensures p.Some? ==> p.value == projects.value[id].project
    {
      if projects.Some? && id in projects.value then Some(projects.value[id].project) else None
    }
  }
}
