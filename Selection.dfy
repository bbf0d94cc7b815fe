/**
 * The selection record: the current path through the catalog (grade,
 * domain, cluster, standard, sub-standard, each with the denormalised
 * name/code/text the views display) and one expansion slot per level.
 */
module SelectionState {
  import opened Wrappers

  datatype Selection = Selection(
    grade: Option<string>,
    gradeName: Option<string>,
    domain: Option<string>,
    domainName: Option<string>,
    cluster: Option<string>,
    clusterName: Option<string>,
    standard: Option<string>,
    standardCode: Option<string>,
    standardText: Option<string>,
    subStandard: Option<string>,
    subStandardCode: Option<string>,
    subStandardText: Option<string>,
    expandedDomain: Option<string>,
    expandedCluster: Option<string>,
    expandedStandard: Option<string>)

  /** The record before anything is chosen: every field null. */
  const Empty: Selection :=
    Selection(None, None, None, None, None, None, None, None, None, None, None, None, None, None, None)

  // Cascading resets: "nothing is selected at this level or below".

  predicate NoSubStandard(s: Selection) {
    s.subStandard.None? && s.subStandardCode.None? && s.subStandardText.None?
  }

  predicate NoStandard(s: Selection) {
    s.standard.None? && s.standardCode.None? && s.standardText.None? && NoSubStandard(s)
  }

  predicate NoCluster(s: Selection) {
    s.cluster.None? && s.clusterName.None? && NoStandard(s)
  }

  predicate NoDomain(s: Selection) {
    s.domain.None? && s.domainName.None? && NoCluster(s)
  }

  predicate NoExpansion(s: Selection) {
    s.expandedDomain.None? && s.expandedCluster.None? && s.expandedStandard.None?
  }

  // Frames: "these fields are the same in r as in s".

  predicate SameDomainPath(r: Selection, s: Selection) {
    r.grade == s.grade && r.gradeName == s.gradeName && r.domain == s.domain && r.domainName == s.domainName
  }

  predicate SameClusterPath(r: Selection, s: Selection) {
    SameDomainPath(r, s) && r.cluster == s.cluster && r.clusterName == s.clusterName
  }

  predicate SameStandardPath(r: Selection, s: Selection) {
    SameClusterPath(r, s) && r.standard == s.standard && r.standardCode == s.standardCode &&
    r.standardText == s.standardText
  }

  /** Every one of the twelve selection fields is unchanged. */
  predicate SameSelection(r: Selection, s: Selection) {
    SameStandardPath(r, s) && r.subStandard == s.subStandard && r.subStandardCode == s.subStandardCode &&
    r.subStandardText == s.subStandardText
  }

  predicate SameExpansion(r: Selection, s: Selection) {
    r.expandedDomain == s.expandedDomain && r.expandedCluster == s.expandedCluster &&
    r.expandedStandard == s.expandedStandard
  }

  // Invariants of the state machine.

  /** Each id travels with its denormalised name, code or text. */
  predicate Paired(s: Selection) {
    (s.grade.Some? <==> s.gradeName.Some?) &&
    (s.domain.Some? <==> s.domainName.Some?) &&
    (s.cluster.Some? <==> s.clusterName.Some?) &&
    s.standardCode == s.standard && (s.standard.Some? <==> s.standardText.Some?) &&
    s.subStandardCode == s.subStandard && (s.subStandard.Some? <==> s.subStandardText.Some?)
  }

  /**
   * Paired, and an open domain or cluster is the selected one. (No such
   * relation holds for standards: selecting a standard without sub-standards
   * leaves an earlier expanded standard open.)
   */
  predicate Coherent(s: Selection) {
    Paired(s) &&
    (s.expandedDomain.Some? ==> s.expandedDomain == s.domain) &&
    (s.expandedCluster.Some? ==> s.expandedCluster == s.cluster)
  }
}
