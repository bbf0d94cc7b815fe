/**
 * The browser's single mutable selection record and the click handlers that
 * update it one field at a time. Each method's new record is the
 * corresponding function of `Transitions` applied to the old record, so
 * everything proved about those functions holds of the running object.
 */
module Browser {
  import opened Wrappers
  import opened Catalog
  import opened CodeSearch
  import opened SelectionState
  import opened Transitions

  class Navigator {
    /** The standards data, loaded once and never changed. */
    const catalog: Catalog

    /** `currentSelection`: the one selection record of the session; each field write is a record update. */
    var selection: Selection

    /** The record as declared at start-up: every field null. */
    constructor (catalog: Catalog)
      ensures this.catalog == catalog && selection == Empty
    {
      this.catalog := catalog;
      selection := Empty;
    }

    method SelectInitialStandard()
      requires Lookup(catalog.grades, "K").Some?
      modifies this
      ensures selection == InitialSelection(catalog, old(selection))
    {
      selection := selection.(grade := Some("K"));
      selection := selection.(gradeName := Some("Kindergarten"));
      var firstDomain := Lookup(Lookup(catalog.grades, "K").value.domains, "CC");
      if firstDomain.Some? {
        selection := selection.(expandedDomain := Some("CC"));
        SelectDomain("CC", firstDomain.value);
      }
    }

    method HandleGradeChange(selectedGrade: string)
      modifies this
      ensures selection == GradeChanged(catalog, old(selection), selectedGrade)
    {
      var gradeData := Lookup(catalog.grades, selectedGrade);
      if gradeData.None? {
        return;
      }
      // a new record: the grade, its name, and every other field (the expansion slots included) null
      selection := Empty.(grade := Some(selectedGrade), gradeName := Some(gradeData.value.name));
    }

    method HandleDomainClick(domainId: string)
      requires selection.expandedDomain != Some(domainId) ==> GetDomainData(catalog, selection.grade, domainId).Some?
      modifies this
      ensures selection == DomainClicked(catalog, old(selection), domainId)
    {
      if selection.expandedDomain == Some(domainId) {
        selection := selection.(expandedDomain := None);
      } else {
        selection := selection.(expandedDomain := Some(domainId));
        SelectDomain(domainId, GetDomainData(catalog, selection.grade, domainId).value);
        selection := selection.(expandedCluster := None);
        selection := selection.(expandedStandard := None);
      }
    }

    method HandleClusterClick(clusterId: string)
      requires selection.expandedCluster != Some(clusterId) ==> GetClusterData(catalog, selection.grade, clusterId).Some?
      modifies this
      ensures selection == ClusterClicked(catalog, old(selection), clusterId)
    {
      if selection.expandedCluster == Some(clusterId) {
        selection := selection.(expandedCluster := None);
      } else {
        selection := selection.(expandedCluster := Some(clusterId));
        SelectCluster(clusterId, GetClusterData(catalog, selection.grade, clusterId).value);
        selection := selection.(expandedStandard := None);
      }
    }

    method HandleStandardClick(standardCode: string)
      requires StandardData(catalog, selection.grade, standardCode).Some?
      modifies this
      ensures selection == StandardClicked(catalog, old(selection), standardCode)
    {
      var standardData := GetStandardData(catalog, selection.grade, standardCode);
      if standardData.value.subStandards.Some? {
        if selection.expandedStandard == Some(standardCode) {
          selection := selection.(expandedStandard := None);
        } else {
          selection := selection.(expandedStandard := Some(standardCode));
          SelectStandard(standardCode, standardData.value);
        }
      } else {
        SelectStandard(standardCode, standardData.value);
      }
    }

    /** A click on a sub-standard selects the record its code scans to. */
    method HandleSubStandardClick(subStandardCode: string)
      requires SubStandardData(catalog, selection.grade, subStandardCode).Some?
      modifies this
      ensures selection == SubStandardSelected(old(selection), subStandardCode,
                                               SubStandardData(catalog, old(selection).grade, subStandardCode).value)
    {
      var subStandardData := GetSubStandardData(catalog, selection.grade, subStandardCode);
      SelectSubStandard(subStandardCode, subStandardData.value);
    }

    method SelectDomain(domainId: string, domainData: Domain)
      modifies this
      ensures selection == DomainSelected(old(selection), domainId, domainData)
    {
      selection := selection.(domain := Some(domainId));
      selection := selection.(domainName := Some(domainData.name));
      selection := selection.(cluster := None);
      selection := selection.(clusterName := None);
      selection := selection.(standard := None);
      selection := selection.(standardCode := None);
      selection := selection.(standardText := None);
      selection := selection.(subStandard := None);
      selection := selection.(subStandardCode := None);
      selection := selection.(subStandardText := None);
    }

    method SelectCluster(clusterId: string, clusterData: Cluster)
      modifies this
      ensures selection == ClusterSelected(old(selection), clusterId, clusterData)
    {
      selection := selection.(cluster := Some(clusterId));
      selection := selection.(clusterName := Some(clusterData.name));
      selection := selection.(standard := None);
      selection := selection.(standardCode := None);
      selection := selection.(standardText := None);
      selection := selection.(subStandard := None);
      selection := selection.(subStandardCode := None);
      selection := selection.(subStandardText := None);
    }

    method SelectStandard(code: string, standardData: Standard)
      modifies this
      ensures selection == StandardSelected(old(selection), code, standardData)
    {
      selection := selection.(standard := Some(code));
      selection := selection.(standardCode := Some(code));
      selection := selection.(standardText := Some(standardData.text));
      selection := selection.(subStandard := None);
      selection := selection.(subStandardCode := None);
      selection := selection.(subStandardText := None);
    }

    method SelectSubStandard(code: string, subStandardData: SubStandard)
      modifies this
      ensures selection == SubStandardSelected(old(selection), code, subStandardData)
    {
      selection := selection.(subStandard := Some(code));
      selection := selection.(subStandardCode := Some(code));
      selection := selection.(subStandardText := Some(subStandardData.text));
    }
  }
}
