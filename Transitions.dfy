/**
 * The transition engine: what each user action does to the selection
 * record, as functions from the record before to the record after. The
 * `Navigator` class performs the same steps field by field on its state.
 *
 * An action naming an id that is not in the catalog makes the original
 * code throw part-way through a transition; such ids are excluded here by
 * `requires` rather than modelled as a rollback.
 */
module Transitions {
  import opened Wrappers
  import opened Catalog
  import opened CodeSearch
  import opened SelectionState

  // ---------------------------------------------------------------------
  // Setters that select one level and clear every deeper one
  // ---------------------------------------------------------------------

  /** `selectDomain`: select the domain, forget cluster, standard and sub-standard. */
  function DomainSelected(s: Selection, domainId: string, domainData: Domain): (r: Selection)
    ensures r.domain == Some(domainId) && r.domainName == Some(domainData.name) && NoCluster(r)
    ensures r.grade == s.grade && r.gradeName == s.gradeName && SameExpansion(r, s)
    ensures Paired(s) ==> Paired(r)
  {
    s.(domain := Some(domainId), domainName := Some(domainData.name),
       cluster := None, clusterName := None,
       standard := None, standardCode := None, standardText := None,
       subStandard := None, subStandardCode := None, subStandardText := None)
  }

  /** `selectCluster`: select the cluster, forget standard and sub-standard. */
  function ClusterSelected(s: Selection, clusterId: string, clusterData: Cluster): (r: Selection)
    ensures r.cluster == Some(clusterId) && r.clusterName == Some(clusterData.name) && NoStandard(r)
    ensures SameDomainPath(r, s) && SameExpansion(r, s)
    ensures Paired(s) ==> Paired(r)
  {
    s.(cluster := Some(clusterId), clusterName := Some(clusterData.name),
       standard := None, standardCode := None, standardText := None,
       subStandard := None, subStandardCode := None, subStandardText := None)
  }

  /** `selectStandard`: select the standard by its code, forget the sub-standard. */
  function StandardSelected(s: Selection, standardCode: string, standardData: Standard): (r: Selection)
    ensures r.standard == Some(standardCode) && r.standardCode == Some(standardCode)
    ensures r.standardText == Some(standardData.text) && NoSubStandard(r)
    ensures SameClusterPath(r, s) && SameExpansion(r, s)
    ensures Paired(s) ==> Paired(r)
  {
    s.(standard := Some(standardCode), standardCode := Some(standardCode), standardText := Some(standardData.text),
       subStandard := None, subStandardCode := None, subStandardText := None)
  }

  /** `selectSubStandard`: select the sub-standard; no other field changes. */
  function SubStandardSelected(s: Selection, subStandardCode: string, subStandardData: SubStandard): (r: Selection)
    ensures r.subStandard == Some(subStandardCode) && r.subStandardCode == Some(subStandardCode)
    ensures r.subStandardText == Some(subStandardData.text)
    ensures SameStandardPath(r, s) && SameExpansion(r, s)
    ensures Coherent(s) ==> Coherent(r)
  {
    s.(subStandard := Some(subStandardCode), subStandardCode := Some(subStandardCode),
       subStandardText := Some(subStandardData.text))
  }

  // ---------------------------------------------------------------------
  // User actions
  // ---------------------------------------------------------------------

  /** `selectInitialStandard`: open Kindergarten, then open and select its domain "CC" when it exists. */
  function InitialSelection(cat: Catalog, s: Selection): (r: Selection)
    requires Lookup(cat.grades, "K").Some?
    ensures r.grade == Some("K") && r.gradeName == Some("Kindergarten")
    ensures var cc := Lookup(Lookup(cat.grades, "K").value.domains, "CC");
      cc.None? ==> r.(grade := s.grade, gradeName := s.gradeName) == s
    ensures var cc := Lookup(Lookup(cat.grades, "K").value.domains, "CC");
      cc.Some? ==> r.expandedDomain == Some("CC") && r.domain == Some("CC") && r.domainName == Some(cc.value.name) &&
                   NoCluster(r) && r.expandedCluster == s.expandedCluster && r.expandedStandard == s.expandedStandard
    ensures Coherent(s) && s.expandedCluster.None? ==> Coherent(r)
  {
    var withGrade := s.(grade := Some("K"), gradeName := Some("Kindergarten"));
    var cc := Lookup(Lookup(cat.grades, "K").value.domains, "CC");
    if cc.None? then withGrade
    else DomainSelected(withGrade.(expandedDomain := Some("CC")), "CC", cc.value)
  }

  /**
   * `handleGradeChange`: an unknown grade changes nothing; a known one
   * starts a fresh record holding only that grade and its name.
   */
  function GradeChanged(cat: Catalog, s: Selection, gradeId: string): (r: Selection)
    ensures Lookup(cat.grades, gradeId).None? ==> r == s
    ensures Lookup(cat.grades, gradeId).Some? ==>
      r.grade == Some(gradeId) && r.gradeName == Some(Lookup(cat.grades, gradeId).value.name) &&
      NoDomain(r) && NoExpansion(r) && Coherent(r)
    ensures Coherent(s) ==> Coherent(r)
  {
    match Lookup(cat.grades, gradeId)
    case None => s
    case Some(gradeData) => Empty.(grade := Some(gradeId), gradeName := Some(gradeData.name))
  }

  /**
   * `handleDomainClick`: clicking the open domain only closes it; any other
   * domain is opened and selected, and the deeper levels are closed.
   */
  function DomainClicked(cat: Catalog, s: Selection, domainId: string): (r: Selection)
    requires s.expandedDomain != Some(domainId) ==> GetDomainData(cat, s.grade, domainId).Some?
    ensures s.expandedDomain == Some(domainId) ==>
      r.expandedDomain == None && SameSelection(r, s) &&
      r.expandedCluster == s.expandedCluster && r.expandedStandard == s.expandedStandard
    ensures s.expandedDomain != Some(domainId) ==>
      r.expandedDomain == Some(domainId) && r.expandedCluster == None && r.expandedStandard == None &&
      r.grade == s.grade && r.gradeName == s.gradeName &&
      r.domain == Some(domainId) && r.domainName == Some(GetDomainData(cat, s.grade, domainId).value.name) &&
      NoCluster(r)
    ensures Coherent(s) ==> Coherent(r)
  {
    if s.expandedDomain == Some(domainId) then s.(expandedDomain := None)
    else
      var open := s.(expandedDomain := Some(domainId));
      DomainSelected(open, domainId, GetDomainData(cat, s.grade, domainId).value)
        .(expandedCluster := None, expandedStandard := None)
  }

  /**
   * `handleClusterClick`: the same toggle one level down; the domain level
   * (selection and expansion) is never touched.
   */
  function ClusterClicked(cat: Catalog, s: Selection, clusterId: string): (r: Selection)
    requires s.expandedCluster != Some(clusterId) ==> GetClusterData(cat, s.grade, clusterId).Some?
    ensures SameDomainPath(r, s) && r.expandedDomain == s.expandedDomain
    ensures s.expandedCluster == Some(clusterId) ==>
      r.expandedCluster == None && SameSelection(r, s) && r.expandedStandard == s.expandedStandard
    ensures s.expandedCluster != Some(clusterId) ==>
      r.expandedCluster == Some(clusterId) && r.expandedStandard == None &&
      r.cluster == Some(clusterId) && r.clusterName == Some(GetClusterData(cat, s.grade, clusterId).value.name) &&
      NoStandard(r)
    ensures Coherent(s) ==> Coherent(r)
  {
    if s.expandedCluster == Some(clusterId) then s.(expandedCluster := None)
    else
      var open := s.(expandedCluster := Some(clusterId));
      ClusterSelected(open, clusterId, GetClusterData(cat, s.grade, clusterId).value)
        .(expandedStandard := None)
  }

  /**
   * `handleStandardClick`: a standard without sub-standards is always just
   * selected, leaving every expansion slot as it was; a standard with
   * sub-standards toggles like a domain or cluster.
   */
  function StandardClicked(cat: Catalog, s: Selection, standardCode: string): (r: Selection)
    requires StandardData(cat, s.grade, standardCode).Some?
    ensures SameClusterPath(r, s) && r.expandedDomain == s.expandedDomain && r.expandedCluster == s.expandedCluster
    ensures var data := StandardData(cat, s.grade, standardCode).value;
      data.subStandards.None? || s.expandedStandard != Some(standardCode) ==>
        r.standard == Some(standardCode) && r.standardCode == Some(standardCode) &&
        r.standardText == Some(data.text) && NoSubStandard(r)
    ensures StandardData(cat, s.grade, standardCode).value.subStandards.None? ==>
      r.expandedStandard == s.expandedStandard
    ensures StandardData(cat, s.grade, standardCode).value.subStandards.Some? ==>
      if s.expandedStandard == Some(standardCode) then r.expandedStandard == None && SameSelection(r, s)
      else r.expandedStandard == Some(standardCode)
    ensures Coherent(s) ==> Coherent(r)
  {
    var data := StandardData(cat, s.grade, standardCode).value;
    if data.subStandards.Some? then
      if s.expandedStandard == Some(standardCode) then s.(expandedStandard := None)
      else StandardSelected(s.(expandedStandard := Some(standardCode)), standardCode, data)
    else StandardSelected(s, standardCode, data)
  }

  // ---------------------------------------------------------------------
  // Consequences over several actions
  // ---------------------------------------------------------------------

  /** Clicking a closed domain twice leaves it closed but still selected: collapsing does not deselect. */
  lemma DomainClickedTwice(cat: Catalog, s: Selection, domainId: string)
    requires s.expandedDomain != Some(domainId) && GetDomainData(cat, s.grade, domainId).Some?
    ensures var once := DomainClicked(cat, s, domainId);
      var twice := DomainClicked(cat, once, domainId);
      twice.expandedDomain == None && twice.domain == Some(domainId) && SameSelection(twice, once)
  {
  }

  /** For a standard with sub-standards, a second click closes it and keeps it selected. */
  lemma StandardClickedTwice(cat: Catalog, s: Selection, standardCode: string)
    requires StandardData(cat, s.grade, standardCode).Some?
    requires StandardData(cat, s.grade, standardCode).value.subStandards.Some?
    requires s.expandedStandard != Some(standardCode)
    ensures var once := StandardClicked(cat, s, standardCode);
      var twice := StandardClicked(cat, once, standardCode);
      once.expandedStandard == Some(standardCode) && twice.expandedStandard == None &&
      twice.standard == Some(standardCode) && SameSelection(twice, once)
  {
  }
}
