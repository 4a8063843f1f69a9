/**
 * The add/edit dialog for contexts and concepts: the form's initial values,
 * field-by-field editing, and what `Save` hands back, including the
 * normalisation of comma-separated property and method lists.
 */
module Modal {
  import opened Wrappers
  import opened Text
  import opened Seqs
  import opened RelationshipTypes
  import opened ProjectTypes

  /** The colour choices offered for a context, in display order. */
  const ContextColors: seq<string> :=
    ["#3B82F6", "#10B981", "#F59E0B", "#EF4444", "#8B5CF6", "#06B6D4", "#84CC16", "#F97316", "#EC4899", "#6B7280"]

  /**
   * A list field of a concept form: still the array it was loaded with, or
   * the text typed into its input.
   */
  datatype ListField = Items(items: seq<string>) | Typed(text: string)

  datatype Form =
    | ContextForm(name: string, description: string, color: string)
    | ConceptForm(name: string, kind: ConceptKind, description: string, properties: ListField, methods: ListField)

  /** The edited item: an existing context or concept, or none when adding. */
  datatype Item = NoItem | ContextItem(context: BoundedContext) | ConceptItem(concept: DDDConcept)

  /** `a || b` on strings: `a` unless it is empty. */
  function Or(a: string, b: string): (r: string)
    ensures a != "" ==> r == a
    ensures a == "" ==> r == b
  {
    if a != "" then a else b
  }

  /** The form opened for `item`: its own values where it has them, the defaults otherwise. */
  function InitialForm(forContext: bool, item: Item): (f: Form)
    ensures forContext <==> f.ContextForm?
    ensures item.NoItem? && forContext ==> f == ContextForm("", "", ContextColors[0])
    ensures item.NoItem? && !forContext ==> f == ConceptForm("", Entity, "", Items([]), Items([]))
    ensures item.ContextItem? && forContext ==>
              f.name == item.context.name && f.description == item.context.description
              && f.color == Or(item.context.color, ContextColors[0])
    ensures item.ConceptItem? && !forContext ==>
              f.name == item.concept.name && f.kind == item.concept.kind
              && f.description == item.concept.description.GetOr("")
              && f.properties == Items(item.concept.properties.GetOr([]))
              && f.methods == Items(item.concept.methods.GetOr([]))
  {
    if forContext then
      match item
      case ContextItem(c) => ContextForm(c.name, c.description, Or(c.color, ContextColors[0]))
      case _ => ContextForm("", "", ContextColors[0])
    else
      match item
      case ConceptItem(c) =>
        ConceptForm(c.name, c.kind, c.description.GetOr(""), Items(c.properties.GetOr([])), Items(c.methods.GetOr([])))
      case _ => ConceptForm("", Entity, "", Items([]), Items([]))
  }

  /** One call of `handleInputChange`: which field, and its new value. */
  datatype Edit =
    | SetName(name: string)
    | SetDescription(description: string)
    | SetColor(color: string)
    | SetKind(kind: ConceptKind)
    | SetProperties(properties: string)
    | SetMethods(methods: string)

  /** The dialog only offers the inputs of its own form: colour for a context, kind and lists for a concept. */
  predicate Offers(f: Form, e: Edit) {
    match e
    case SetColor(_) => f.ContextForm?
    case SetKind(_) => f.ConceptForm?
    case SetProperties(_) => f.ConceptForm?
    case SetMethods(_) => f.ConceptForm?
    case _ => true
  }

  /** `handleInputChange`: the named field takes the new value and every other field keeps its own. */
  function Apply(f: Form, e: Edit): (r: Form)
    requires Offers(f, e)
    ensures r.ContextForm? == f.ContextForm?
    ensures r.name == (if e.SetName? then e.name else f.name)
    ensures r.description == (if e.SetDescription? then e.description else f.description)
    ensures r.ContextForm? ==> r.color == (if e.SetColor? then e.color else f.color)
    ensures r.ConceptForm? ==> r.kind == (if e.SetKind? then e.kind else f.kind)
    ensures r.ConceptForm? ==> r.properties == (if e.SetProperties? then Typed(e.properties) else f.properties)
    ensures r.ConceptForm? ==> r.methods == (if e.SetMethods? then Typed(e.methods) else f.methods)
  {
    match e
    case SetName(v) => f.(name := v)
    case SetDescription(v) => f.(description := v)
    case SetColor(v) => f.(color := v)
    case SetKind(v) => f.(kind := v)
    case SetProperties(v) => f.(properties := Typed(v))
    case SetMethods(v) => f.(methods := Typed(v))
  }

  predicate NonEmpty(s: string) {
    s != ""
  }

  /**
   * `text.split(',').map(s => s.trim()).filter(Boolean)`: the trimmed comma
   * pieces in order, each non-empty piece kept as often as it occurs and the
   * empty ones dropped.
   */
  function Normalize(text: string): (r: seq<string>)
    ensures forall x :: x in r ==> x != "" && IsTrimmed(x) && ',' !in x
    ensures IsSubsequence(r, TrimEach(Split(text, ',')))
    ensures forall x :: x != "" ==> multiset(r)[x] == multiset(TrimEach(Split(text, ',')))[x]
  {
    var pieces := TrimEach(Split(text, ','));
    TrimmedPieces(text);
    forall x | x != "" ensures multiset(Filter(pieces, NonEmpty))[x] == multiset(pieces)[x] {
      FilterKeepsCount(pieces, NonEmpty, x);
    }
    Filter(pieces, NonEmpty)
  }

  /** A list field as saved: typed text is normalised, an array passes through unchanged. */
  function Saved(field: ListField): (r: seq<string>)
    ensures field.Items? ==> r == field.items
    ensures field.Typed? ==> r == Normalize(field.text)
  {
    match field
    case Items(xs) => xs
    case Typed(s) => Normalize(s)
  }

  /** What `onSave` receives. */
  datatype SavedItem =
    | SavedContext(name: string, description: string, color: string)
    | SavedConcept(name: string, kind: ConceptKind, description: string, properties: seq<string>, methods: seq<string>)

  /**
   * `handleSave`: nothing is saved while the name is blank; a context form is
   * passed on as it is, a concept form with its lists normalised.
   */
  function Save(f: Form): (r: Option<SavedItem>)
    ensures r.None? <==> Trim(f.name) == ""
    ensures r.Some? ==> r.value.name == f.name && r.value.description == f.description
    ensures r.Some? && f.ContextForm? ==> r.value == SavedContext(f.name, f.description, f.color)
    ensures r.Some? && f.ConceptForm? ==>
              r.value == SavedConcept(f.name, f.kind, f.description, Saved(f.properties), Saved(f.methods))
  {
    if Trim(f.name) == "" then None
    else
      match f
      case ContextForm(n, d, c) => Some(SavedContext(n, d, c))
      case ConceptForm(n, k, d, ps, ms) => Some(SavedConcept(n, k, d, Saved(ps), Saved(ms)))
  }

  /** How a list is shown in its input: `items.join(', ')`. */
  function Shown(items: seq<string>): string {
    Join(items, ", ")
  }

  /**
   * Retyping the shown text of a list and saving gives the list back, when its
   * entries are non-empty, trimmed and free of commas.
   */
  lemma ShownThenSaved(items: seq<string>)
    requires SafeEntries(items) && forall i :: 0 <= i < |items| ==> items[i] != ""
    ensures Saved(Typed(Shown(items))) == items
  {
    if items == [] {
      assert Split("", ',') == [""];
      assert TrimEach([""]) == [Trim("")];
      assert Trim("") == "";
    } else {
      TrimSplitJoin(items);
      FilterAll(items, NonEmpty);
    }
  }

  /** A second save of what was saved changes nothing about the lists. */
  lemma NormalizeIdempotent(text: string)
    ensures Saved(Typed(Shown(Normalize(text)))) == Normalize(text)
  {
    var r := Normalize(text);
    assert forall i :: 0 <= i < |r| ==> r[i] in r;
    ShownThenSaved(r);
  }

  /** The dialog's state: the form being edited. */
  class ModalState {
    var form: Form

    constructor(forContext: bool, item: Item)
      ensures form == InitialForm(forContext, item)
    {
      form := InitialForm(forContext, item);
    }

    method InputChange(e: Edit)
      requires Offers(form, e)
      modifies this
      ensures form == Apply(old(form), e)
    {
      form := Apply(form, e);
    }

    /** The save button: the item passed to `onSave`, if any; the form is left as it is. */
    method SaveClicked() returns (saved: Option<SavedItem>)
      ensures saved == Save(form)
    {
      saved := Save(form);
    }
  }
}
