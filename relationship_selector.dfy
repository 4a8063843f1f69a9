/**
 * The relationship-type picker: the catalogue split into named groups, the
 * marker references and marker definitions of each preview line, the
 * accordion that shows one group at a time, and the type descriptions.
 */
module RelationshipSelector {
  import opened Wrappers
  import opened RelationshipTypes

  /** The seven groups of the catalogue, in display order. */
  datatype Group = WithinAggregate | Dependencies | Services | Events | Infrastructure | ValueObjects | CrossContext

  const AllGroups: seq<Group> := [WithinAggregate, Dependencies, Services, Events, Infrastructure, ValueObjects, CrossContext]

  /** The heading of a group, which is also its key. */
  function GroupName(g: Group): string {
    match g
    case WithinAggregate => "聚合内关系"
    case Dependencies => "依赖关系"
    case Services => "服务关系"
    case Events => "事件关系"
    case Infrastructure => "基础设施"
    case ValueObjects => "值对象"
    case CrossContext => "跨上下文关系"
  }

  /** The kinds listed under a group, in display order. */
  function Members(g: Group): seq<RelationKind> {
    match g
    case WithinAggregate => [Aggregation, Composition, Association]
    case Dependencies => [Dependency, Usage]
    case Services => [DomainService, ApplicationService]
    case Events => [DomainEvent, EventHandler]
    case Infrastructure => [Repository, Factory]
    case ValueObjects => [ValueObject]
    case CrossContext => [AntiCorruptionLayer, SharedKernel, CustomerSupplier, Conformist, OpenHostService, PublishedLanguage]
  }

  /** The group a kind is listed under. */
  function GroupOf(k: RelationKind): (g: Group)
    ensures k in Members(g)
  {
    match k
    case Aggregation | Composition | Association => WithinAggregate
    case Dependency | Usage => Dependencies
    case DomainService | ApplicationService => Services
    case DomainEvent | EventHandler => Events
    case Repository | Factory => Infrastructure
    case ValueObject => ValueObjects
    case _ => CrossContext
  }

  /** The groups' lists one after another. */
  function Concat(gs: seq<Group>): seq<RelationKind> {
    if gs == [] then [] else Members(gs[0]) + Concat(gs[1..])
  }

  /** Each kind lies in exactly one group: the one `GroupOf` names. */
  lemma InExactlyOneGroup(k: RelationKind, g: Group)
    ensures k in Members(g) <==> g == GroupOf(k)
  {
    match g
    case WithinAggregate =>
    case Dependencies =>
    case Services =>
    case Events =>
    case Infrastructure =>
    case ValueObjects =>
    case CrossContext =>
  }

  /** Reading the groups in order lists every kind of the catalogue once, in declaration order. */
  lemma GroupsListCatalogue()
    ensures Concat(AllGroups) == AllRelationKinds
  {
    assert Concat(AllGroups[6..]) == Members(CrossContext);
    assert Concat(AllGroups[5..]) == Members(ValueObjects) + Concat(AllGroups[6..]);
    assert Concat(AllGroups[4..]) == Members(Infrastructure) + Concat(AllGroups[5..]);
    assert Concat(AllGroups[3..]) == Members(Events) + Concat(AllGroups[4..]);
    assert Concat(AllGroups[2..]) == Members(Services) + Concat(AllGroups[3..]);
    assert Concat(AllGroups[1..]) == Members(Dependencies) + Concat(AllGroups[2..]);
  }

  /** Group headings are distinct, so a heading names one group. */
  lemma GroupNamesDistinct()
    ensures forall g, h :: GroupName(g) == GroupName(h) ==> g == h
  {
  }

  // ---------------------------------------------------------------------------
  // Preview markers

  /** The marker id suffix: the diamond marker for the two diamond shapes, the arrow marker otherwise. */
  function MarkerSuffix(a: ArrowType): (s: string)
    ensures s == "diamond" <==> a == Diamond || a == FilledDiamond
    ensures s == "diamond" || s == "arrow"
  {
    if a == Diamond || a == FilledDiamond then "diamond" else "arrow"
  }

  /** The id of a kind's preview marker. */
  function MarkerId(k: RelationKind): string {
    "preview-" + RelationValue(k) + "-" + MarkerSuffix(StyleOf(k).arrowType)
  }

  /** `markerEnd`: a reference to the marker when the arrow sits at the target or at both ends. */
  function MarkerEnd(k: RelationKind): (m: Option<string>)
    ensures m.Some? <==> StyleOf(k).arrowPosition == AtTarget || StyleOf(k).arrowPosition == AtBoth
    ensures m.Some? ==> m.value == MarkerId(k)
  {
    var p := StyleOf(k).arrowPosition;
    if p == AtTarget || p == AtBoth then Some(MarkerId(k)) else None
  }

  /** `markerStart`: a reference to the marker when the arrow sits at the source or at both ends. */
  function MarkerStart(k: RelationKind): (m: Option<string>)
    ensures m.Some? <==> StyleOf(k).arrowPosition == AtSource || StyleOf(k).arrowPosition == AtBoth
    ensures m.Some? ==> m.value == MarkerId(k)
  {
    var p := StyleOf(k).arrowPosition;
    if p == AtSource || p == AtBoth then Some(MarkerId(k)) else None
  }

  /** A marker definition: its id, whether the shape is a diamond, and whether it is filled with the line colour. */
  datatype MarkerDef = MarkerDef(id: string, diamond: bool, filled: bool)

  /** The marker definition emitted for a kind: one per arrow shape except `none`. */
  function MarkerDefinition(k: RelationKind): (d: Option<MarkerDef>)
    ensures d.Some? <==> StyleOf(k).arrowType != NoArrow
    ensures d.Some? ==> d.value.id == MarkerId(k)
    ensures d.Some? ==> (d.value.diamond <==> StyleOf(k).arrowType in {Diamond, FilledDiamond})
    ensures d.Some? ==> (d.value.filled <==> StyleOf(k).arrowType in {Closed, FilledDiamond})
  {
    var prefix := "preview-" + RelationValue(k) + "-";
    match StyleOf(k).arrowType
    case Open => Some(MarkerDef(prefix + "arrow", false, false))
    case Closed => Some(MarkerDef(prefix + "arrow", false, true))
    case Diamond => Some(MarkerDef(prefix + "diamond", true, false))
    case FilledDiamond => Some(MarkerDef(prefix + "diamond", true, true))
    case NoArrow => None
  }

  /** A kind's preview line refers to a marker that is not defined. */
  predicate DanglingMarker(k: RelationKind) {
    (MarkerEnd(k).Some? || MarkerStart(k).Some?) && MarkerDefinition(k).None?
  }

  /**
   * Every marker a preview refers to is defined, except for the two kinds
   * whose table entry pairs arrow type `none` with position `both`: shared
   * kernel and published language refer to an arrow marker nobody emits.
   */
  lemma DanglingMarkers(k: RelationKind)
    ensures DanglingMarker(k) <==> k == SharedKernel || k == PublishedLanguage
    ensures !DanglingMarker(k) && MarkerEnd(k).Some? ==>
      MarkerDefinition(k).Some? && MarkerDefinition(k).value.id == MarkerEnd(k).value
    ensures !DanglingMarker(k) && MarkerStart(k).Some? ==>
      MarkerDefinition(k).Some? && MarkerDefinition(k).value.id == MarkerStart(k).value
  {
  }

  /** The preview line's dash pattern: `3,3` for a dashed kind, none otherwise. */
  function PreviewDash(lineType: LineType): (d: Option<string>)
    ensures d.Some? <==> lineType == Dashed
    ensures d.Some? ==> d.value == "3,3"
  {
    if lineType == Dashed then Some("3,3") else None
  }

  /** `getRelationshipDescription`. */
  function Description(k: RelationKind): (text: string)
    ensures text != "" && text != UnknownDescription
  {
    match k
    case Aggregation => "整体与部分的关系，部分可以独立存在"
    case Composition => "强组合关系，部分不能脱离整体存在"
    case Association => "一般的关联关系，表示两个概念之间的连接"
    case Dependency => "依赖关系，一个概念的变化会影响另一个"
    case Usage => "使用关系，表示一个概念使用另一个概念的服务"
    case DomainService => "领域服务调用，处理跨聚合的业务逻辑"
    case ApplicationService => "应用服务调用，协调领域对象完成用例"
    case DomainEvent => "领域事件发布，表示领域中发生的重要事件"
    case EventHandler => "事件处理，响应和处理领域事件"
    case Repository => "仓储访问，提供聚合的持久化操作"
    case Factory => "工厂创建，负责复杂对象的创建逻辑"
    case ValueObject => "值对象包含，表示概念包含某个值对象"
    case AntiCorruptionLayer => "防腐层，保护本地模型不受外部影响"
    case SharedKernel => "共享内核，多个上下文共享的核心模型"
    case CustomerSupplier => "客户-供应商关系，下游依赖上游"
    case Conformist => "遵奉者模式，完全遵循上游模型"
    case OpenHostService => "开放主机服务，提供标准化的服务接口"
    case PublishedLanguage => "发布语言，定义通用的交流语言"
  }

  /** The fallback text for a type without a description; no kind of the catalogue receives it. */
  const UnknownDescription: string := "未知关系类型"

  // ---------------------------------------------------------------------------
  // The accordion

  /** A click on a group heading: the open group closes, any other group opens alone. */
  function Toggle(expanded: Option<Group>, g: Group): (r: Option<Group>)
    ensures expanded == Some(g) ==> r.None?
    ensures expanded != Some(g) ==> r == Some(g)
  {
    if expanded == Some(g) then None else Some(g)
  }

  /** The options listed: none for a hidden selector, else the members of the open group. */
  function ShownOptions(visible: bool, expanded: Option<Group>): (r: Option<seq<RelationKind>>)
    ensures r.None? <==> !visible
    ensures r.Some? ==> forall k :: k in r.value <==> expanded == Some(GroupOf(k))
  {
    forall k ensures k in Members(GroupOf(k)) && (expanded.Some? && k in Members(expanded.value) ==> expanded.value == GroupOf(k)) {
      if expanded.Some? { InExactlyOneGroup(k, expanded.value); }
    }
    if !visible then None
    else match expanded
      case None => Some([])
      case Some(g) => Some(Members(g))
  }

  /** The shortcut row: association, dependency, aggregation, composition. */
  const QuickChoices: seq<RelationKind> := [Association, Dependency, Aggregation, Composition]

  /** The selector's own state: the open group. */
  class Selector {
    var expandedGroup: Option<Group>

    /** Initially the within-aggregate group is open. */
    constructor()
      ensures expandedGroup == Some(WithinAggregate)
    {
      expandedGroup := Some(WithinAggregate);
    }

    /** A click on the heading of `g`. */
    method HeadingClicked(g: Group)
      modifies this
      ensures expandedGroup == Toggle(old(expandedGroup), g)
      ensures forall h :: expandedGroup == Some(h) ==> h == g
    {
      expandedGroup := if expandedGroup == Some(g) then None else Some(g);
    }
  }
}
