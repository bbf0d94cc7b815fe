/**
 * Read-only projections of the selection record: the breadcrumb trail, the
 * choice of what the preview panel shows, and the shortened labels of the
 * navigation tree. Markup itself is not modelled, only what it is built from.
 */
module Views {
  import opened Wrappers
  import opened SelectionState

  /** JavaScript truthiness of a nullable string: null and "" are both false. */
  predicate Truthy(o: Option<string>) {
    o.Some? && o.value != ""
  }

  // ---------------------------------------------------------------------
  // Breadcrumb
  // ---------------------------------------------------------------------

  function Part(o: Option<string>): seq<string> {
    if Truthy(o) then [o.value] else []
  }

  /** The sub-standard's part, present only when its code differs from the standard's code. */
  function SubPart(s: Selection): seq<string> {
    if Truthy(s.subStandardCode) && s.subStandardCode != s.standardCode then [s.subStandardCode.value] else []
  }

  /** How many parts a field contributes: one when it is truthy. */
  function Count(o: Option<string>): nat {
    if Truthy(o) then 1 else 0
  }

  /** The breadcrumb parts: grade name, domain name, cluster name, standard code, sub-standard code. */
  function Crumbs(s: Selection): (r: seq<string>)
    ensures |r| <= 5
    ensures r == [] <==> !Truthy(s.gradeName) && !Truthy(s.domainName) && !Truthy(s.clusterName) &&
                         !Truthy(s.standardCode) && !Truthy(s.subStandardCode)
    ensures forall p :: p in r ==>
      p != "" && Some(p) in {s.gradeName, s.domainName, s.clusterName, s.standardCode, s.subStandardCode}
    ensures |r| == Count(s.gradeName) + Count(s.domainName) + Count(s.clusterName) + Count(s.standardCode) +
                   (if Truthy(s.subStandardCode) && s.subStandardCode != s.standardCode then 1 else 0)
    ensures Truthy(s.gradeName) ==> r[0] == s.gradeName.value
    ensures Truthy(s.domainName) ==> r[Count(s.gradeName)] == s.domainName.value
    ensures Truthy(s.clusterName) ==> r[Count(s.gradeName) + Count(s.domainName)] == s.clusterName.value
    ensures Truthy(s.standardCode) ==>
      r[Count(s.gradeName) + Count(s.domainName) + Count(s.clusterName)] == s.standardCode.value
    ensures Truthy(s.subStandardCode) && s.subStandardCode != s.standardCode ==>
      r[|r| - 1] == s.subStandardCode.value
    ensures Truthy(s.standardCode) && (s.subStandardCode == s.standardCode || !Truthy(s.subStandardCode)) ==>
      r[|r| - 1] == s.standardCode.value
  {
    Part(s.gradeName) + Part(s.domainName) + Part(s.clusterName) + Part(s.standardCode) + SubPart(s)
  }

  /** A sub-standard whose code equals its standard's code adds nothing to the trail. */
  lemma SubStandardEqualToStandardAddsNothing(s: Selection)
    requires s.subStandardCode == s.standardCode
    ensures Crumbs(s) == Crumbs(s.(subStandardCode := None))
  {
  }

  datatype Crumb = Crumb(text: string, current: bool)

  /** A rendered breadcrumb: the placeholder prompt, or the trail with its current item marked. */
  datatype Breadcrumb = Placeholder(prompt: string) | Trail(items: seq<Crumb>)

  const PlaceholderText := "Select a grade to begin"

  /** The parts rendered in order, exactly the last one marked current; no parts gives the placeholder. */
  function RenderBreadcrumb(parts: seq<string>): (r: Breadcrumb)
    ensures r.Placeholder? <==> parts == []
    ensures r.Placeholder? ==> r.prompt == PlaceholderText
    ensures r.Trail? ==>
      |r.items| == |parts| && r.items[|parts| - 1].current &&
      (forall i :: 0 <= i < |parts| ==> r.items[i].text == parts[i]) &&
      (forall i, j :: 0 <= i < j < |parts| ==> !(r.items[i].current && r.items[j].current))
  {
    if parts == [] then Placeholder(PlaceholderText)
    else Trail(seq(|parts|, i requires 0 <= i < |parts| => Crumb(parts[i], i == |parts| - 1)))
  }

  /** `generateBreadcrumb`: push the parts that are present, then render them. */
  method GenerateBreadcrumb(s: Selection) returns (r: Breadcrumb)
    ensures r == RenderBreadcrumb(Crumbs(s))
  {
    var parts: seq<string> := [];
    if Truthy(s.gradeName) {
      parts := parts + [s.gradeName.value];
    }
    assert parts == Part(s.gradeName);
    if Truthy(s.domainName) {
      parts := parts + [s.domainName.value];
    }
    assert parts == Part(s.gradeName) + Part(s.domainName);
    if Truthy(s.clusterName) {
      parts := parts + [s.clusterName.value];
    }
    assert parts == Part(s.gradeName) + Part(s.domainName) + Part(s.clusterName);
    if Truthy(s.standardCode) {
      parts := parts + [s.standardCode.value];
    }
    assert parts == Part(s.gradeName) + Part(s.domainName) + Part(s.clusterName) + Part(s.standardCode);
    if Truthy(s.subStandardCode) && s.subStandardCode != s.standardCode {
      parts := parts + [s.subStandardCode.value];
    }
    assert parts == Crumbs(s);
    r := RenderBreadcrumb(parts);
  }

  // ---------------------------------------------------------------------
  // Preview panel
  // ---------------------------------------------------------------------

  /** Which preview the panel renders. */
  datatype Preview = Welcome | GradePreview | DomainPreview | ClusterPreview | StandardPreview | SubStandardPreview

  /** How deep in the hierarchy a preview sits. */
  function Depth(p: Preview): nat {
    match p
    case Welcome => 0
    case GradePreview => 1
    case DomainPreview => 2
    case ClusterPreview => 3
    case StandardPreview => 4
    case SubStandardPreview => 5
  }

  /** The record holds what preview `p` needs. */
  predicate CanShow(s: Selection, p: Preview) {
    match p
    case Welcome => !Truthy(s.grade)
    case GradePreview => Truthy(s.grade)
    case DomainPreview => Truthy(s.grade) && Truthy(s.domain) && Truthy(s.domainName)
    case ClusterPreview => Truthy(s.grade) && Truthy(s.cluster) && Truthy(s.clusterName)
    case StandardPreview => Truthy(s.grade) && Truthy(s.standard) && Truthy(s.standardText)
    case SubStandardPreview => Truthy(s.grade) && Truthy(s.subStandard) && Truthy(s.subStandardText)
  }

  /** `generatePreviewHTML`'s choice: the deepest preview the record can show. */
  function PreviewOf(s: Selection): (r: Preview)
    ensures CanShow(s, r)
    ensures forall p :: CanShow(s, p) ==> Depth(p) <= Depth(r)
  {
    if !Truthy(s.grade) then Welcome
    else if Truthy(s.subStandard) && Truthy(s.subStandardText) then SubStandardPreview
    else if Truthy(s.standard) && Truthy(s.standardText) then StandardPreview
    else if Truthy(s.cluster) && Truthy(s.clusterName) then ClusterPreview
    else if Truthy(s.domain) && Truthy(s.domainName) then DomainPreview
    else GradePreview
  }

  // ---------------------------------------------------------------------
  // Navigation labels
  // ---------------------------------------------------------------------

  /** Hand-picked short labels for long domain names. */
  const NavLabels: map<string, string> := map[
    "Number & Operations in Base Ten" := "Number & Operations",
    "Operations & Algebraic Thinking" := "Operations & Algebra",
    "Number & Operations—Fractions" := "Fractions",
    "Measurement & Data" := "Measurement & Data",
    "Counting & Cardinality" := "Counting & Cardinality",
    "Ratios & Proportional Relationships" := "Ratios & Proportions",
    "Expressions & Equations" := "Expressions & Equations"
  ]

  const DefaultMaxLength: int := 25

  /** `s.substring(0, n)`: the first `n` characters, with `n` clamped into `0..|s|`. */
  function Prefix(s: string, n: int): (r: string)
    ensures r <= s
    ensures |r| == if n < 0 then 0 else if n > |s| then |s| else n
  {
    if n < 0 then [] else if n > |s| then s else s[..n]
  }

  /**
   * `getNavLabel`: the table's short label if there is one, else the name
   * itself if it fits in `maxLength`, else its start followed by "...".
   */
  function NavLabel(fullName: string, maxLength: int): (r: string)
    ensures fullName in NavLabels ==> r == NavLabels[fullName]
    ensures fullName !in NavLabels && |fullName| <= maxLength ==> r == fullName
    ensures fullName !in NavLabels && |fullName| > maxLength ==>
      |r| == (if maxLength < 3 then 3 else maxLength) && r[..|r| - 3] <= fullName && r[|r| - 3..] == "..."
  {
    if fullName in NavLabels && NavLabels[fullName] != "" then NavLabels[fullName]
    else if |fullName| <= maxLength then fullName
    else Prefix(fullName, maxLength - 3) + "..."
  }

  /** With the default limit every label fits in 25 characters, table entries included. */
  lemma NavLabelFits(fullName: string)
    ensures |NavLabel(fullName, DefaultMaxLength)| <= DefaultMaxLength
  {
    if fullName in NavLabels {
      assert forall k :: k in NavLabels ==> |NavLabels[k]| <= DefaultMaxLength;
    }
  }
}
