/**
 * The two-click connection mode shared by the project editor and the context
 * board: the first click on a concept picks the source, a click on another
 * concept connects the two, and clicking the source again does nothing.
 */
module ConnectionMode {
  import opened Wrappers

  /** What a click on a concept does. */
  datatype ClickOutcome = SelectConcept(id: string) | ChooseSource(id: string) | Connect(sourceId: string, targetId: string) | Ignore

  /**
   * A click on `conceptId`: outside connection mode it selects; with no
   * source yet it picks the source; on another concept it connects from the
   * source; on the source itself it does nothing.
   */
  function Click(connecting: bool, source: Option<string>, conceptId: string): (o: ClickOutcome)
    ensures o == SelectConcept(conceptId) <==> !connecting
    ensures o == ChooseSource(conceptId) <==> connecting && source.None?
    ensures o.Connect? <==> connecting && source.Some? && source.value != conceptId
    ensures o.Connect? ==> o.sourceId == source.value && o.targetId == conceptId && o.sourceId != o.targetId
    ensures o.Ignore? <==> connecting && source == Some(conceptId)
  {
    if connecting then
      match source
      case None => ChooseSource(conceptId)
      case Some(s) => if s != conceptId then Connect(s, conceptId) else Ignore
    else SelectConcept(conceptId)
  }

  /** Two clicks on distinct concepts, starting with no source, connect them in click order. */
  lemma TwoClicksConnect(first: string, second: string)
    requires first != second
    ensures Click(true, None, first) == ChooseSource(first)
    ensures Click(true, Some(first), second) == Connect(first, second)
  {
  }
}
