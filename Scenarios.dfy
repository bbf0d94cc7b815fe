/**
 * What the breadcrumb and the preview panel show after the user actions of
 * `Transitions`.
 */
module Scenarios {
  import opened Wrappers
  import opened Catalog
  import opened SelectionState
  import opened Transitions
  import opened Views

  /** At start-up with a "CC" domain: trail "Kindergarten > <domain name>", domain preview. */
  lemma InitialViews(cat: Catalog)
    requires Lookup(cat.grades, "K").Some?
    requires Lookup(Lookup(cat.grades, "K").value.domains, "CC").Some?
    requires Lookup(Lookup(cat.grades, "K").value.domains, "CC").value.name != ""
    ensures var s := InitialSelection(cat, Empty);
      Crumbs(s) == ["Kindergarten", Lookup(Lookup(cat.grades, "K").value.domains, "CC").value.name] &&
      PreviewOf(s) == DomainPreview
  {
  }

  /** After switching to a known grade only the grade shows, in the trail and in the preview. */
  lemma GradeChangedViews(cat: Catalog, s: Selection, gradeId: string)
    requires Lookup(cat.grades, gradeId).Some? && gradeId != "" && Lookup(cat.grades, gradeId).value.name != ""
    ensures var r := GradeChanged(cat, s, gradeId);
      Crumbs(r) == [Lookup(cat.grades, gradeId).value.name] && PreviewOf(r) == GradePreview
  {
  }

  /**
   * Selecting a sub-standard appends its code to the trail when it differs
   * from the standard's code, and leaves the trail as if no sub-standard were
   * selected when it does not.
   */
  lemma SubStandardSelectedCrumbs(s: Selection, code: string, data: SubStandard)
    ensures var r := SubStandardSelected(s, code, data);
      (code != "" && Some(code) != s.standardCode ==> Crumbs(r) == Crumbs(s.(subStandardCode := None)) + [code]) &&
      (Some(code) == s.standardCode ==> Crumbs(r) == Crumbs(s.(subStandardCode := None)))
  {
  }

  /** A selected sub-standard with text is what the preview shows, whatever else is selected. */
  lemma SubStandardSelectedPreview(s: Selection, code: string, data: SubStandard)
    requires Truthy(s.grade) && code != "" && data.text != ""
    ensures PreviewOf(SubStandardSelected(s, code, data)) == SubStandardPreview
  {
  }
}
