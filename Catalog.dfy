/**
 * The read-only standards catalog: grade -> domain -> cluster -> standard
 * -> sub-standard. Every JSON object of the catalog is an ordered sequence of
 * (key, record) pairs, in the order `Object.entries` enumerates it, so that
 * "the first match" of a scan is meaningful.
 */
module Catalog {
  import opened Wrappers

  datatype SubStandard = SubStandard(code: string, name: Option<string>, text: string)

  /** `subStandards` is optional: its mere presence (even when empty) makes the standard expandable. */
  datatype Standard = Standard(
    code: string,
    name: Option<string>,
    text: string,
    subStandards: Option<seq<(string, SubStandard)>>)

  datatype Cluster = Cluster(name: string, text: Option<string>, standards: seq<(string, Standard)>)

  datatype Domain = Domain(
    name: string,
    fullName: string,
    text: Option<string>,
    clusters: seq<(string, Cluster)>)

  datatype Grade = Grade(name: string, domains: seq<(string, Domain)>)

  datatype Catalog = Catalog(grades: seq<(string, Grade)>)

  // ---------------------------------------------------------------------
  // First match in a sequence
  // ---------------------------------------------------------------------

  /** No element of `xs` has key `k`. */
  ghost predicate NoMatch<T>(xs: seq<T>, key: T -> string, k: string) {
    forall y :: y in xs ==> key(y) != k
  }

  /** Index of the first element of `xs` whose key is `k`, as a front-to-back scan finds it. */
  function FirstIndex<T>(xs: seq<T>, key: T -> string, k: string): (r: Option<nat>)
    ensures r.None? <==> NoMatch(xs, key, k)
    ensures r.Some? ==> r.value < |xs| && key(xs[r.value]) == k && NoMatch(xs[..r.value], key, k)
  {
    if xs == [] then None
    else if key(xs[0]) == k then Some(0)
    else
      var t := FirstIndex(xs[1..], key, k);
      if t.None? then None
      else
        assert xs[..t.value + 1] == [xs[0]] + xs[1..][..t.value];
        Some(t.value + 1)
  }

  /** A position holding the key, with no earlier position holding it, is the first index. */
  lemma FirstIndexIs<T>(xs: seq<T>, key: T -> string, k: string, i: nat)
    requires i < |xs| && key(xs[i]) == k && NoMatch(xs[..i], key, k)
    ensures FirstIndex(xs, key, k) == Some(i)
  {
    assert xs[i] in xs;
  }

  /** The first element of `xs` whose key is `k`. */
  function First<T>(xs: seq<T>, key: T -> string, k: string): (r: Option<T>)
    ensures r.None? <==> NoMatch(xs, key, k)
    ensures r.Some? ==> r.value in xs && key(r.value) == k
  {
    match FirstIndex(xs, key, k)
    case None => None
    case Some(i) => Some(xs[i])
  }

  /** If nothing before `x` matches and `x` does, the first match is `x`. */
  lemma FirstAfterMisses<T>(pre: seq<T>, x: T, post: seq<T>, key: T -> string, k: string)
    requires NoMatch(pre, key, k) && key(x) == k
    ensures First(pre + [x] + post, key, k) == Some(x)
  {
    var xs := pre + [x] + post;
    assert xs[..|pre|] == pre;
    FirstIndexIs(xs, key, k, |pre|);
  }

  // ---------------------------------------------------------------------
  // Keyed lookup (a JSON object read by property name)
  // ---------------------------------------------------------------------

  function EntryKey<T>(e: (string, T)): string { e.0 }

  /** The record stored under `key`, i.e. `object[key]`. */
  function Lookup<T>(entries: seq<(string, T)>, key: string): (r: Option<T>)
    ensures r.Some? <==> exists i :: 0 <= i < |entries| && entries[i].0 == key
    ensures r.Some? ==> (key, r.value) in entries
  {
    match FirstIndex(entries, EntryKey, key)
    case None =>
      assert forall i :: 0 <= i < |entries| ==> entries[i] in entries;
      None
    case Some(i) => Some(entries[i].1)
  }

  /** Keys of a JSON object are distinct. */
  ghost predicate UniqueKeys<T>(entries: seq<(string, T)>) {
    forall i, j :: 0 <= i < j < |entries| ==> entries[i].0 != entries[j].0
  }

  /** With distinct keys a lookup finds exactly the record stored under the key. */
  lemma LookupUnique<T>(entries: seq<(string, T)>, key: string, v: T)
    requires UniqueKeys(entries) && (key, v) in entries
    ensures Lookup(entries, key) == Some(v)
  {
    var i :| 0 <= i < |entries| && entries[i] == (key, v);
    var r := Lookup(entries, key);
    assert r.Some?;
    var j :| 0 <= j < |entries| && entries[j] == (key, r.value);
    assert i == j;
  }

  // ---------------------------------------------------------------------
  // Direct lookups relative to the selected grade
  // ---------------------------------------------------------------------

  /** `standardsData.grades[grade]`; a grade that is not selected finds nothing. */
  function GradeData(cat: Catalog, grade: Option<string>): (r: Option<Grade>)
    ensures r.Some? ==> grade.Some? && (grade.value, r.value) in cat.grades
    ensures grade.Some? && r.None? ==> forall i :: 0 <= i < |cat.grades| ==> cat.grades[i].0 != grade.value
  {
    if grade.None? then None else Lookup(cat.grades, grade.value)
  }

  /** `getDomainData`: the domain `domainId` of the selected grade. */
  function GetDomainData(cat: Catalog, grade: Option<string>, domainId: string): (r: Option<Domain>)
    ensures r.Some? ==> GradeData(cat, grade).Some? && (domainId, r.value) in GradeData(cat, grade).value.domains
    ensures r.None? && GradeData(cat, grade).Some? ==>
      forall i :: 0 <= i < |GradeData(cat, grade).value.domains| ==> GradeData(cat, grade).value.domains[i].0 != domainId
  {
    match GradeData(cat, grade)
    case None => None
    case Some(g) => Lookup(g.domains, domainId)
  }

  /** The composite cluster id used in the navigation tree: domain id, a dot, the cluster key. */
  function ClusterId(domainId: string, clusterKey: string): string {
    domainId + "." + clusterKey
  }

  /** The part of `s` before its first dot (all of `s` when it has none). */
  function BeforeDot(s: string): (r: string)
    ensures r <= s && '.' !in r
    ensures |r| < |s| ==> s[|r|] == '.'
  {
    if s == [] || s[0] == '.' then [] else [s[0]] + BeforeDot(s[1..])
  }

  /**
   * The first two pieces of `clusterId.split('.')`: the domain id and the cluster
   * key, the latter missing when the id holds no dot.
   */
  function SplitClusterId(clusterId: string): (r: (string, Option<string>))
    ensures r.0 <= clusterId && '.' !in r.0
    ensures |r.0| < |clusterId| ==> clusterId[|r.0|] == '.'
    ensures r.1.None? <==> '.' !in clusterId
    ensures r.1.Some? ==>
      r.0 + "." + r.1.value <= clusterId && '.' !in r.1.value &&
      (|r.0| + 1 + |r.1.value| < |clusterId| ==> clusterId[|r.0| + 1 + |r.1.value|] == '.')
  {
    var d := BeforeDot(clusterId);
    if |d| == |clusterId| then (d, None)
    else
      var rest := clusterId[|d| + 1..];
      assert clusterId == d + "." + rest;
      (d, Some(BeforeDot(rest)))
  }

  /** Splitting a composite id built from dot-free parts gives the parts back. */
  lemma {:induction false} SplitClusterIdRoundTrip(domainId: string, clusterKey: string)
    requires '.' !in domainId && '.' !in clusterKey
    ensures SplitClusterId(ClusterId(domainId, clusterKey)) == (domainId, Some(clusterKey))
  {
    var id := ClusterId(domainId, clusterKey);
    BeforeDotOfPrefix(domainId, clusterKey);
    assert |id| == |domainId| + 1 + |clusterKey|;
    assert id[|domainId| + 1..] == clusterKey;
    assert BeforeDot(clusterKey) == clusterKey;
  }

  lemma {:induction false} BeforeDotOfPrefix(d: string, rest: string)
    requires '.' !in d
    ensures BeforeDot(d + "." + rest) == d
  {
    if d != [] {
      assert (d + "." + rest)[1..] == d[1..] + "." + rest;
      BeforeDotOfPrefix(d[1..], rest);
    }
  }

  /** `getClusterData`: split the composite id and look the cluster up in that domain. */
  function GetClusterData(cat: Catalog, grade: Option<string>, clusterId: string): (r: Option<Cluster>)
    ensures r.Some? ==>
      var (domainId, key) := SplitClusterId(clusterId);
      key.Some? && GetDomainData(cat, grade, domainId).Some? &&
      (key.value, r.value) in GetDomainData(cat, grade, domainId).value.clusters
  {
    var (domainId, key) := SplitClusterId(clusterId);
    match GetDomainData(cat, grade, domainId)
    case None => None
    case Some(d) => if key.None? then None else Lookup(d.clusters, key.value)
  }

  /** The cluster id the tree renders resolves, through `getClusterData`, to that cluster of that domain. */
  lemma ClusterDataOfClusterId(cat: Catalog, grade: Option<string>, domainId: string, clusterKey: string)
    requires '.' !in domainId && '.' !in clusterKey
    ensures GetClusterData(cat, grade, ClusterId(domainId, clusterKey)) ==
      match GetDomainData(cat, grade, domainId)
      case None => None
      case Some(d) => Lookup(d.clusters, clusterKey)
  {
    SplitClusterIdRoundTrip(domainId, clusterKey);
  }

  // ---------------------------------------------------------------------
  // Catalogs whose objects have distinct keys, as every JSON object does
  // ---------------------------------------------------------------------

  /** The grade, domain and cluster objects, the ones looked up by key, have distinct keys. */
  ghost predicate ValidCatalog(cat: Catalog) {
    UniqueKeys(cat.grades) &&
    (forall i :: 0 <= i < |cat.grades| ==> UniqueKeys(cat.grades[i].1.domains)) &&
    (forall i, j :: 0 <= i < |cat.grades| && 0 <= j < |cat.grades[i].1.domains| ==>
      UniqueKeys(cat.grades[i].1.domains[j].1.clusters))
  }

  /** In a valid catalog, `getDomainData` finds exactly the domain stored under its id in the selected grade. */
  lemma StoredDomainIsFound(cat: Catalog, gradeId: string, g: Grade, domainId: string, d: Domain)
    requires ValidCatalog(cat) && (gradeId, g) in cat.grades && (domainId, d) in g.domains
    ensures GradeData(cat, Some(gradeId)) == Some(g)
    ensures GetDomainData(cat, Some(gradeId), domainId) == Some(d)
  {
    LookupUnique(cat.grades, gradeId, g);
    var i :| 0 <= i < |cat.grades| && cat.grades[i] == (gradeId, g);
    LookupUnique(g.domains, domainId, d);
  }

  /**
   * In a valid catalog, the composite id the tree renders for a stored cluster
   * resolves, through `getClusterData`, to exactly that cluster.
   */
  lemma StoredClusterIsFound(cat: Catalog, gradeId: string, g: Grade, domainId: string, d: Domain,
                             clusterKey: string, c: Cluster)
    requires ValidCatalog(cat) && (gradeId, g) in cat.grades && (domainId, d) in g.domains && (clusterKey, c) in d.clusters
    requires '.' !in domainId && '.' !in clusterKey
    ensures GetClusterData(cat, Some(gradeId), ClusterId(domainId, clusterKey)) == Some(c)
  {
    StoredDomainIsFound(cat, gradeId, g, domainId, d);
    ClusterDataOfClusterId(cat, Some(gradeId), domainId, clusterKey);
    var i :| 0 <= i < |cat.grades| && cat.grades[i] == (gradeId, g);
    var j :| 0 <= j < |g.domains| && g.domains[j] == (domainId, d);
    LookupUnique(d.clusters, clusterKey, c);
  }
}
