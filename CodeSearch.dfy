/**
 * Lookup of a standard or a sub-standard by its code within the selected
 * grade: a linear scan in domain -> cluster -> standard (-> sub-standard)
 * order that stops at the first record carrying the code.
 */
module CodeSearch {
  import opened Wrappers
  import opened Catalog

  // ---------------------------------------------------------------------
  // The scan order, as a flattening of the nested catalog
  // ---------------------------------------------------------------------

  /** Concatenation of `f(x)` over `xs`, in order. */
  function Flatten<T, U>(xs: seq<T>, f: T -> seq<U>): seq<U> {
    if xs == [] then [] else Flatten(xs[..|xs| - 1], f) + f(xs[|xs| - 1])
  }

  lemma {:induction false} FlattenAppend<T, U>(a: seq<T>, b: seq<T>, f: T -> seq<U>)
    ensures Flatten(a + b, f) == Flatten(a, f) + Flatten(b, f)
  {
    if b == [] {
      assert a + b == a;
    } else {
      var ab := a + b;
      assert ab[..|ab| - 1] == a + b[..|b| - 1];
      assert ab[|ab| - 1] == b[|b| - 1];
      FlattenAppend(a, b[..|b| - 1], f);
    }
  }

  /** One more step of a scan over `xs`. */
  lemma FlattenPrefix<T, U>(xs: seq<T>, i: nat, f: T -> seq<U>)
    requires i < |xs|
    ensures Flatten(xs[..i + 1], f) == Flatten(xs[..i], f) + f(xs[i])
  {
    assert xs[..i + 1][..i] == xs[..i];
  }

  /** The flattening of `xs` around its element `i`. */
  lemma FlattenAround<T, U>(xs: seq<T>, i: nat, f: T -> seq<U>)
    requires i < |xs|
    ensures Flatten(xs, f) == Flatten(xs[..i], f) + f(xs[i]) + Flatten(xs[i + 1..], f)
  {
    calc {
      Flatten(xs, f);
      { assert xs == xs[..i + 1] + xs[i + 1..]; }
      Flatten(xs[..i + 1] + xs[i + 1..], f);
      { FlattenAppend(xs[..i + 1], xs[i + 1..], f); }
      Flatten(xs[..i + 1], f) + Flatten(xs[i + 1..], f);
      { FlattenPrefix(xs, i, f); }
      Flatten(xs[..i], f) + f(xs[i]) + Flatten(xs[i + 1..], f);
    }
  }

  /** Where a hit inside `f(xs[i])` sits in the flattening of all of `xs`. */
  lemma FlattenSplitAt<T, U>(xs: seq<T>, i: nat, f: T -> seq<U>, a: seq<U>, x: U, b: seq<U>)
    requires i < |xs| && f(xs[i]) == a + [x] + b
    ensures Flatten(xs, f) == (Flatten(xs[..i], f) + a) + [x] + (b + Flatten(xs[i + 1..], f))
  {
    FlattenAround(xs, i, f);
    Regroup(Flatten(xs[..i], f), a, x, b, Flatten(xs[i + 1..], f));
  }

  lemma Regroup<U>(p: seq<U>, a: seq<U>, x: U, b: seq<U>, q: seq<U>)
    ensures p + (a + [x] + b) + q == (p + a) + [x] + (b + q)
  {
  }

  function StandardCode(s: Standard): string { s.code }
  function SubStandardCode(s: SubStandard): string { s.code }

  function StandardOf(e: (string, Standard)): seq<Standard> { [e.1] }
  function ClusterStandards(e: (string, Cluster)): seq<Standard> { Flatten(e.1.standards, StandardOf) }
  function DomainStandards(e: (string, Domain)): seq<Standard> { Flatten(e.1.clusters, ClusterStandards) }

  /** Every standard of a grade, in domain -> cluster -> standard order. */
  function GradeStandards(g: Grade): seq<Standard> { Flatten(g.domains, DomainStandards) }

  function SubStandardOf(e: (string, SubStandard)): seq<SubStandard> { [e.1] }
  function StandardSubStandards(e: (string, Standard)): seq<SubStandard> {
    match e.1.subStandards
    case None => []
    case Some(subs) => Flatten(subs, SubStandardOf)
  }
  function ClusterSubStandards(e: (string, Cluster)): seq<SubStandard> { Flatten(e.1.standards, StandardSubStandards) }
  function DomainSubStandards(e: (string, Domain)): seq<SubStandard> { Flatten(e.1.clusters, ClusterSubStandards) }

  /** Every sub-standard of a grade, in domain -> cluster -> standard -> sub-standard order. */
  function GradeSubStandards(g: Grade): seq<SubStandard> { Flatten(g.domains, DomainSubStandards) }

  // ---------------------------------------------------------------------
  // What the scans return
  // ---------------------------------------------------------------------

  /** The first standard of the selected grade whose code is `code`. */
  function StandardData(cat: Catalog, grade: Option<string>, code: string): (r: Option<Standard>)
    ensures r.Some? ==> r.value.code == code && GradeData(cat, grade).Some? &&
                        r.value in GradeStandards(GradeData(cat, grade).value)
    ensures r.None? <==> GradeData(cat, grade).None? ||
                         NoMatch(GradeStandards(GradeData(cat, grade).value), StandardCode, code)
  {
    match GradeData(cat, grade)
    case None => None
    case Some(g) => First(GradeStandards(g), StandardCode, code)
  }

  /** The first sub-standard of the selected grade whose code is `code`. */
  function SubStandardData(cat: Catalog, grade: Option<string>, code: string): (r: Option<SubStandard>)
    ensures r.Some? ==> r.value.code == code && GradeData(cat, grade).Some? &&
                        r.value in GradeSubStandards(GradeData(cat, grade).value)
    ensures r.None? <==> GradeData(cat, grade).None? ||
                         NoMatch(GradeSubStandards(GradeData(cat, grade).value), SubStandardCode, code)
  {
    match GradeData(cat, grade)
    case None => None
    case Some(g) => First(GradeSubStandards(g), SubStandardCode, code)
  }

  /** A hit at position (i, j, k) of the scan, after misses everywhere before it, is the first match. */
  lemma StandardHit(g: Grade, i: nat, j: nat, k: nat, code: string)
    requires i < |g.domains| && j < |g.domains[i].1.clusters| && k < |g.domains[i].1.clusters[j].1.standards|
    requires NoMatch(Flatten(g.domains[..i], DomainStandards), StandardCode, code)
    requires NoMatch(Flatten(g.domains[i].1.clusters[..j], ClusterStandards), StandardCode, code)
    requires NoMatch(Flatten(g.domains[i].1.clusters[j].1.standards[..k], StandardOf), StandardCode, code)
    requires g.domains[i].1.clusters[j].1.standards[k].1.code == code
    ensures First(GradeStandards(g), StandardCode, code) == Some(g.domains[i].1.clusters[j].1.standards[k].1)
  {
    var clusters := g.domains[i].1.clusters;
    var standards := clusters[j].1.standards;
    var x := standards[k].1;
    var a0, b0 := Flatten(standards[..k], StandardOf), Flatten(standards[k + 1..], StandardOf);
    FlattenSplitAt(standards, k, StandardOf, [], x, []);
    var a1, b1 := Flatten(clusters[..j], ClusterStandards) + (a0 + []), ([] + b0) + Flatten(clusters[j + 1..], ClusterStandards);
    FlattenSplitAt(clusters, j, ClusterStandards, a0 + [], x, [] + b0);
    FlattenSplitAt(g.domains, i, DomainStandards, a1, x, b1);
    FirstAfterMisses(Flatten(g.domains[..i], DomainStandards) + a1, x, b1 + Flatten(g.domains[i + 1..], DomainStandards),
                     StandardCode, code);
  }

  /** A hit at position (i, j, k, m) of the sub-standard scan, after misses everywhere before it, is the first match. */
  lemma SubStandardHit(g: Grade, i: nat, j: nat, k: nat, m: nat, code: string)
    requires i < |g.domains| && j < |g.domains[i].1.clusters| && k < |g.domains[i].1.clusters[j].1.standards|
    requires g.domains[i].1.clusters[j].1.standards[k].1.subStandards.Some?
    requires m < |g.domains[i].1.clusters[j].1.standards[k].1.subStandards.value|
    requires NoMatch(Flatten(g.domains[..i], DomainSubStandards), SubStandardCode, code)
    requires NoMatch(Flatten(g.domains[i].1.clusters[..j], ClusterSubStandards), SubStandardCode, code)
    requires NoMatch(Flatten(g.domains[i].1.clusters[j].1.standards[..k], StandardSubStandards), SubStandardCode, code)
    requires NoMatch(Flatten(g.domains[i].1.clusters[j].1.standards[k].1.subStandards.value[..m], SubStandardOf),
                     SubStandardCode, code)
    requires g.domains[i].1.clusters[j].1.standards[k].1.subStandards.value[m].1.code == code
    ensures First(GradeSubStandards(g), SubStandardCode, code) ==
            Some(g.domains[i].1.clusters[j].1.standards[k].1.subStandards.value[m].1)
  {
    var clusters := g.domains[i].1.clusters;
    var standards := clusters[j].1.standards;
    var subs := standards[k].1.subStandards.value;
    var x := subs[m].1;
    var a0, b0 := Flatten(subs[..m], SubStandardOf), Flatten(subs[m + 1..], SubStandardOf);
    FlattenSplitAt(subs, m, SubStandardOf, [], x, []);
    var a1, b1 := Flatten(standards[..k], StandardSubStandards) + (a0 + []),
                  ([] + b0) + Flatten(standards[k + 1..], StandardSubStandards);
    FlattenSplitAt(standards, k, StandardSubStandards, a0 + [], x, [] + b0);
    var a2, b2 := Flatten(clusters[..j], ClusterSubStandards) + a1, b1 + Flatten(clusters[j + 1..], ClusterSubStandards);
    FlattenSplitAt(clusters, j, ClusterSubStandards, a1, x, b1);
    FlattenSplitAt(g.domains, i, DomainSubStandards, a2, x, b2);
    FirstAfterMisses(Flatten(g.domains[..i], DomainSubStandards) + a2, x, b2 + Flatten(g.domains[i + 1..], DomainSubStandards),
                     SubStandardCode, code);
  }

  /** A standard stored anywhere in the selected grade is found by its code (codes need not be unique). */
  lemma StandardFoundWhenPresent(cat: Catalog, grade: Option<string>, i: nat, j: nat, k: nat)
    requires GradeData(cat, grade).Some?
    requires var g := GradeData(cat, grade).value;
      i < |g.domains| && j < |g.domains[i].1.clusters| && k < |g.domains[i].1.clusters[j].1.standards|
    ensures var g := GradeData(cat, grade).value;
      StandardData(cat, grade, g.domains[i].1.clusters[j].1.standards[k].1.code).Some?
  {
    var g := GradeData(cat, grade).value;
    var clusters := g.domains[i].1.clusters;
    var standards := clusters[j].1.standards;
    var x := standards[k].1;
    FlattenSplitAt(standards, k, StandardOf, [], x, []);
    var a0, b0 := Flatten(standards[..k], StandardOf), Flatten(standards[k + 1..], StandardOf);
    FlattenSplitAt(clusters, j, ClusterStandards, a0 + [], x, [] + b0);
    var a1, b1 := Flatten(clusters[..j], ClusterStandards) + (a0 + []), ([] + b0) + Flatten(clusters[j + 1..], ClusterStandards);
    FlattenSplitAt(g.domains, i, DomainStandards, a1, x, b1);
    assert x in GradeStandards(g);
  }

  /** A sub-standard stored anywhere in the selected grade is found by its code (codes need not be unique). */
  lemma SubStandardFoundWhenPresent(cat: Catalog, grade: Option<string>, i: nat, j: nat, k: nat, m: nat)
    requires GradeData(cat, grade).Some?
    requires var g := GradeData(cat, grade).value;
      i < |g.domains| && j < |g.domains[i].1.clusters| && k < |g.domains[i].1.clusters[j].1.standards| &&
      g.domains[i].1.clusters[j].1.standards[k].1.subStandards.Some? &&
      m < |g.domains[i].1.clusters[j].1.standards[k].1.subStandards.value|
    ensures var g := GradeData(cat, grade).value;
      SubStandardData(cat, grade, g.domains[i].1.clusters[j].1.standards[k].1.subStandards.value[m].1.code).Some?
  {
    var g := GradeData(cat, grade).value;
    var clusters := g.domains[i].1.clusters;
    var standards := clusters[j].1.standards;
    var subs := standards[k].1.subStandards.value;
    var x := subs[m].1;
    FlattenSplitAt(subs, m, SubStandardOf, [], x, []);
    var a0, b0 := Flatten(subs[..m], SubStandardOf), Flatten(subs[m + 1..], SubStandardOf);
    FlattenSplitAt(standards, k, StandardSubStandards, a0 + [], x, [] + b0);
    var a1, b1 := Flatten(standards[..k], StandardSubStandards) + (a0 + []),
                  ([] + b0) + Flatten(standards[k + 1..], StandardSubStandards);
    FlattenSplitAt(clusters, j, ClusterSubStandards, a1, x, b1);
    var a2, b2 := Flatten(clusters[..j], ClusterSubStandards) + a1, b1 + Flatten(clusters[j + 1..], ClusterSubStandards);
    FlattenSplitAt(g.domains, i, DomainSubStandards, a2, x, b2);
    assert x in GradeSubStandards(g);
  }

  // ---------------------------------------------------------------------
  // The scans themselves
  // ---------------------------------------------------------------------

  /** `getStandardData`: scan the selected grade for the first standard with this code. */
  method GetStandardData(cat: Catalog, grade: Option<string>, code: string) returns (r: Option<Standard>)
    ensures r == StandardData(cat, grade, code)
  {
    var gradeData := GradeData(cat, grade);
    if gradeData.None? {
      return None;
    }
    var g := gradeData.value;
    var domains := g.domains;
    var i := 0;
    while i < |domains|
      invariant i <= |domains|
      invariant NoMatch(Flatten(domains[..i], DomainStandards), StandardCode, code)
    {
      var clusters := domains[i].1.clusters;
      var j := 0;
      while j < |clusters|
        invariant j <= |clusters|
        invariant NoMatch(Flatten(clusters[..j], ClusterStandards), StandardCode, code)
      {
        var standards := clusters[j].1.standards;
        var k := 0;
        while k < |standards|
          invariant k <= |standards|
          invariant NoMatch(Flatten(standards[..k], StandardOf), StandardCode, code)
        {
          if standards[k].1.code == code {
            StandardHit(g, i, j, k, code);
            return Some(standards[k].1);
          }
          FlattenPrefix(standards, k, StandardOf);
          k := k + 1;
        }
        assert standards[..k] == standards;
        FlattenPrefix(clusters, j, ClusterStandards);
        j := j + 1;
      }
      assert clusters[..j] == clusters;
      FlattenPrefix(domains, i, DomainStandards);
      i := i + 1;
    }
    assert domains[..i] == domains;
    return None;
  }

  /** `getSubStandardData`: scan the selected grade for the first sub-standard with this code. */
  method GetSubStandardData(cat: Catalog, grade: Option<string>, code: string) returns (r: Option<SubStandard>)
    ensures r == SubStandardData(cat, grade, code)
  {
    var gradeData := GradeData(cat, grade);
    if gradeData.None? {
      return None;
    }
    var g := gradeData.value;
    var domains := g.domains;
    var i := 0;
    while i < |domains|
      invariant i <= |domains|
      invariant NoMatch(Flatten(domains[..i], DomainSubStandards), SubStandardCode, code)
    {
      var clusters := domains[i].1.clusters;
      var j := 0;
      while j < |clusters|
        invariant j <= |clusters|
        invariant NoMatch(Flatten(clusters[..j], ClusterSubStandards), SubStandardCode, code)
      {
        var standards := clusters[j].1.standards;
        var k := 0;
        while k < |standards|
          invariant k <= |standards|
          invariant NoMatch(Flatten(standards[..k], StandardSubStandards), SubStandardCode, code)
        {
          if standards[k].1.subStandards.Some? {
            var subs := standards[k].1.subStandards.value;
            var m := 0;
            while m < |subs|
              invariant m <= |subs|
              invariant NoMatch(Flatten(subs[..m], SubStandardOf), SubStandardCode, code)
            {
              if subs[m].1.code == code {
                SubStandardHit(g, i, j, k, m, code);
                return Some(subs[m].1);
              }
              FlattenPrefix(subs, m, SubStandardOf);
              m := m + 1;
            }
            assert subs[..m] == subs;
          }
          FlattenPrefix(standards, k, StandardSubStandards);
          k := k + 1;
        }
        assert standards[..k] == standards;
        FlattenPrefix(clusters, j, ClusterSubStandards);
        j := j + 1;
      }
      assert clusters[..j] == clusters;
      FlattenPrefix(domains, i, DomainSubStandards);
      i := i + 1;
    }
    assert domains[..i] == domains;
    return None;
  }
}
