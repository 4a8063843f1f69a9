/**
 * The relationship and concept vocabularies of domain-driven design used by
 * the editor, with the visual style attached to each relationship kind.
 */
module RelationshipTypes {
  import opened Wrappers

  /** The eighteen relationship kinds, in declaration order. */
  datatype RelationKind =
    | Aggregation | Composition | Association
    | Dependency | Usage
    | DomainService | ApplicationService
    | DomainEvent | EventHandler
    | Repository
    | Factory
    | ValueObject
    | AntiCorruptionLayer | SharedKernel | CustomerSupplier | Conformist | OpenHostService | PublishedLanguage

  /** The string each relationship kind is stored as. */
  function RelationValue(k: RelationKind): string {
    match k
    case Aggregation => "aggregation"
    case Composition => "composition"
    case Association => "association"
    case Dependency => "dependency"
    case Usage => "usage"
    case DomainService => "domain_service"
    case ApplicationService => "application_service"
    case DomainEvent => "domain_event"
    case EventHandler => "event_handler"
    case Repository => "repository"
    case Factory => "factory"
    case ValueObject => "value_object"
    case AntiCorruptionLayer => "acl"
    case SharedKernel => "shared_kernel"
    case CustomerSupplier => "customer_supplier"
    case Conformist => "conformist"
    case OpenHostService => "open_host"
    case PublishedLanguage => "published_lang"
  }

  /** Every relationship kind, each once, in declaration order. */
  const AllRelationKinds: seq<RelationKind> := [
    Aggregation, Composition, Association, Dependency, Usage, DomainService, ApplicationService,
    DomainEvent, EventHandler, Repository, Factory, ValueObject, AntiCorruptionLayer,
    SharedKernel, CustomerSupplier, Conformist, OpenHostService, PublishedLanguage
  ]

  /** The declaration position of a kind. */
  function RelationIndex(k: RelationKind): (i: nat)
    ensures i < |AllRelationKinds| && AllRelationKinds[i] == k
  {
    match k
    case Aggregation => 0
    case Composition => 1
    case Association => 2
    case Dependency => 3
    case Usage => 4
    case DomainService => 5
    case ApplicationService => 6
    case DomainEvent => 7
    case EventHandler => 8
    case Repository => 9
    case Factory => 10
    case ValueObject => 11
    case AntiCorruptionLayer => 12
    case SharedKernel => 13
    case CustomerSupplier => 14
    case Conformist => 15
    case OpenHostService => 16
    case PublishedLanguage => 17
  }

  /** The enumeration lists all eighteen kinds, each once. */
  lemma AllRelationKindsComplete()
    ensures |AllRelationKinds| == 18
    ensures forall k: RelationKind :: k in AllRelationKinds
    ensures forall i, j :: 0 <= i < j < |AllRelationKinds| ==> AllRelationKinds[i] != AllRelationKinds[j]
  {
    forall k: RelationKind ensures k in AllRelationKinds {
      assert AllRelationKinds[RelationIndex(k)] == k;
    }
  }

  /**
   * The membership test `Object.values(DDDRelationType).includes(s)`: the kind
   * whose stored string is `s`, if there is one.
   */
  function ParseRelation(s: string): (r: Option<RelationKind>)
    ensures r.Some? ==> RelationValue(r.value) == s
    ensures r.None? ==> forall k :: RelationValue(k) != s
  {
    if s == "aggregation" then Some(Aggregation)
    else if s == "composition" then Some(Composition)
    else if s == "association" then Some(Association)
    else if s == "dependency" then Some(Dependency)
    else if s == "usage" then Some(Usage)
    else if s == "domain_service" then Some(DomainService)
    else if s == "application_service" then Some(ApplicationService)
    else if s == "domain_event" then Some(DomainEvent)
    else if s == "event_handler" then Some(EventHandler)
    else if s == "repository" then Some(Repository)
    else if s == "factory" then Some(Factory)
    else if s == "value_object" then Some(ValueObject)
    else if s == "acl" then Some(AntiCorruptionLayer)
    else if s == "shared_kernel" then Some(SharedKernel)
    else if s == "customer_supplier" then Some(CustomerSupplier)
    else if s == "conformist" then Some(Conformist)
    else if s == "open_host" then Some(OpenHostService)
    else if s == "published_lang" then Some(PublishedLanguage)
    else None
  }

  /** Stored strings identify their kind: parsing the string of a kind gives that kind back. */
  lemma ParseRelationValue(k: RelationKind)
    ensures ParseRelation(RelationValue(k)) == Some(k)
  {
  }

  /** No two kinds share a stored string. */
  lemma RelationValueInjective()
    ensures forall k, k' :: RelationValue(k) == RelationValue(k') ==> k == k'
  {
    forall k, k' | RelationValue(k) == RelationValue(k')
      ensures k == k'
    {
      ParseRelationValue(k);
      ParseRelationValue(k');
    }
  }

  /** The ten concept kinds, in declaration order. */
  datatype ConceptKind =
    | AggregateRoot | Entity | ValueObjectConcept | DomainServiceConcept | ApplicationServiceConcept
    | RepositoryConcept | FactoryConcept | DomainEventConcept | Policy | Specification

  function ConceptValue(k: ConceptKind): string {
    match k
    case AggregateRoot => "aggregate_root"
    case Entity => "entity"
    case ValueObjectConcept => "value_object"
    case DomainServiceConcept => "domain_service"
    case ApplicationServiceConcept => "application_service"
    case RepositoryConcept => "repository"
    case FactoryConcept => "factory"
    case DomainEventConcept => "domain_event"
    case Policy => "policy"
    case Specification => "specification"
  }

  /** The concept kind whose stored string is `s`, if there is one. */
  function ParseConcept(s: string): (r: Option<ConceptKind>)
    ensures r.Some? ==> ConceptValue(r.value) == s
    ensures r.None? ==> forall k :: ConceptValue(k) != s
  {
    if s == "aggregate_root" then Some(AggregateRoot)
    else if s == "entity" then Some(Entity)
    else if s == "value_object" then Some(ValueObjectConcept)
    else if s == "domain_service" then Some(DomainServiceConcept)
    else if s == "application_service" then Some(ApplicationServiceConcept)
    else if s == "repository" then Some(RepositoryConcept)
    else if s == "factory" then Some(FactoryConcept)
    else if s == "domain_event" then Some(DomainEventConcept)
    else if s == "policy" then Some(Policy)
    else if s == "specification" then Some(Specification)
    else None
  }

  lemma ParseConceptValue(k: ConceptKind)
    ensures ParseConcept(ConceptValue(k)) == Some(k)
  {
  }

  datatype LineType = Solid | Dashed | Dotted
  datatype ArrowType = NoArrow | Open | Closed | Diamond | FilledDiamond
  datatype ArrowPosition = AtTarget | AtSource | AtBoth | Nowhere

  /** How a relationship is drawn. */
  datatype Style = Style(
    lineType: LineType,
    lineColor: string,
    lineWidth: nat,
    arrowType: ArrowType,
    arrowPosition: ArrowPosition,
    labelText: Option<string>,
    stereotype: Option<string>)

  /** The style table, one entry per relationship kind. */
  function StyleOf(k: RelationKind): Style {
    match k
    case Aggregation => Style(Solid, "#2563EB", 2, Diamond, AtSource, Some("聚合"), None)
    case Composition => Style(Solid, "#DC2626", 2, FilledDiamond, AtSource, Some("组合"), None)
    case Association => Style(Solid, "#059669", 2, Open, AtTarget, Some("关联"), None)
    case Dependency => Style(Dashed, "#7C3AED", 1, Open, AtTarget, Some("依赖"), None)
    case Usage => Style(Dashed, "#7C3AED", 1, Open, AtTarget, Some("使用"), Some("<<use>>"))
    case DomainService => Style(Dashed, "#EA580C", 1, Open, AtTarget, Some("领域服务"), Some("<<service>>"))
    case ApplicationService => Style(Dashed, "#EA580C", 1, Open, AtTarget, Some("应用服务"), Some("<<app>>"))
    case DomainEvent => Style(Dashed, "#DB2777", 1, Open, AtTarget, Some("发布事件"), Some("<<event>>"))
    case EventHandler => Style(Dashed, "#DB2777", 1, Open, AtTarget, Some("处理事件"), Some("<<handler>>"))
    case Repository => Style(Dashed, "#0891B2", 1, Open, AtTarget, Some("仓储访问"), Some("<<repo>>"))
    case Factory => Style(Dashed, "#65A30D", 1, Open, AtTarget, Some("工厂创建"), Some("<<create>>"))
    case ValueObject => Style(Solid, "#6B7280", 1, NoArrow, Nowhere, Some("包含值对象"), None)
    case AntiCorruptionLayer => Style(Dashed, "#DC2626", 2, Open, AtBoth, Some("防腐层"), Some("<<ACL>>"))
    case SharedKernel => Style(Solid, "#059669", 2, NoArrow, AtBoth, Some("共享内核"), Some("<<Shared>>"))
    case CustomerSupplier => Style(Solid, "#2563EB", 2, Open, AtTarget, Some("客户-供应商"), Some("<<C/S>>"))
    case Conformist => Style(Dashed, "#7C3AED", 2, Open, AtTarget, Some("遵奉者"), Some("<<Conform>>"))
    case OpenHostService => Style(Solid, "#EA580C", 2, Open, AtTarget, Some("开放主机服务"), Some("<<OHS>>"))
    case PublishedLanguage => Style(Solid, "#DB2777", 2, NoArrow, AtBoth, Some("发布语言"), Some("<<PL>>"))
  }

  /** Every table entry is labelled, has a visible line and uses no dotted line. */
  lemma StyleTableShape(k: RelationKind)
    ensures StyleOf(k).labelText.Some? && StyleOf(k).lineWidth >= 1
    ensures StyleOf(k).lineType != Dotted
    ensures StyleOf(k).arrowPosition == Nowhere <==> k == ValueObject
  {
  }
}
