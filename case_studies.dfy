/**
 * The case-study listing's facets and filter (client/src/pages/CaseStudies.tsx).
 *
 * The fetched list is `None` until the query has data. The two facets are the
 * distinct industries and solution types in order of first occurrence (what
 * `Array.from(new Set(...))` gives); the filter keeps the studies that match
 * both selections, where "all" matches everything.
 */
module CaseStudies {
  import opened Wrappers

  /** The fields of a `case_studies` row that the listing looks at. */
  datatype CaseStudy = CaseStudy(
    title: string,
    slug: string,
    company: string,
    industry: string,
    solutionType: string)

  /** The value of both selections when the page opens. */
  const All := "all"

  // ---------------------------------------------------------------------------
  // Facets

  /** The index of the first occurrence of `x` in `xs`. */
  function FirstIndex(xs: seq<string>, x: string): (i: nat)
    requires x in xs
    ensures i < |xs| && xs[i] == x && x !in xs[..i]
  {
    if xs[0] == x then 0 else 1 + FirstIndex(xs[1..], x)
  }

  /** No value occurs twice. */
  predicate NoDuplicates(xs: seq<string>) {
    forall i, j :: 0 <= i < j < |xs| ==> xs[i] != xs[j]
  }

  /** `Array.from(new Set(xs))`: each value once, where it first occurs. */
  function Distinct(xs: seq<string>): (r: seq<string>)
    ensures NoDuplicates(r)
    ensures forall x :: x in r <==> x in xs
    decreases |xs|
  {
    if xs == [] then []
    else
      var d := Distinct(xs[..|xs| - 1]);
      var x := xs[|xs| - 1];
      assert forall y :: y in xs <==> y in xs[..|xs| - 1] || y == x by {
        assert xs == xs[..|xs| - 1] + [x];
      }
      if x in d then d else d + [x]
  }

  /** The facets appear in the order of their first occurrence in the input. */
  lemma {:induction false} DistinctInFirstOccurrenceOrder(xs: seq<string>, i: nat, j: nat)
    requires i < j < |Distinct(xs)|
    ensures FirstIndex(xs, Distinct(xs)[i]) < FirstIndex(xs, Distinct(xs)[j])
    decreases |xs|
  {
    var n := |xs| - 1;
    var init, x := xs[..n], xs[n];
    var d := Distinct(init);
    assert xs == init + [x];
    var a, b := Distinct(xs)[i], Distinct(xs)[j];
    assert a in init by {
      assert a in d;
    }
    FirstIndexOfPrefix(init, x, a);
    if x in d || j < |d| {
      assert Distinct(xs)[..|d|] == d;
      assert b in init by {
        assert b in d;
      }
      FirstIndexOfPrefix(init, x, b);
      DistinctInFirstOccurrenceOrder(init, i, j);
    } else {
      assert b == x && x !in init;
      assert FirstIndex(xs, x) == n by {
        FirstIndexNotInPrefix(init, x);
      }
    }
  }

  /** Appending a value does not move a first occurrence already in the sequence. */
  lemma {:induction false} FirstIndexOfPrefix(xs: seq<string>, x: string, y: string)
    requires y in xs
    ensures y in xs + [x] && FirstIndex(xs + [x], y) == FirstIndex(xs, y)
    decreases |xs|
  {
    if xs[0] != y {
      assert (xs + [x])[1..] == xs[1..] + [x];
      FirstIndexOfPrefix(xs[1..], x, y);
    }
  }

  /** A value appended to a sequence that lacks it first occurs at the end. */
  lemma {:induction false} FirstIndexNotInPrefix(xs: seq<string>, x: string)
    requires x !in xs
    ensures FirstIndex(xs + [x], x) == |xs|
    decreases |xs|
  {
    if xs != [] {
      assert (xs + [x])[1..] == xs[1..] + [x];
      FirstIndexNotInPrefix(xs[1..], x);
    }
  }

  function Industries(studies: seq<CaseStudy>): (r: seq<string>)
    ensures |r| == |studies| && forall k :: 0 <= k < |r| ==> r[k] == studies[k].industry
  {
    seq(|studies|, k requires 0 <= k < |studies| => studies[k].industry)
  }

  function SolutionTypes(studies: seq<CaseStudy>): (r: seq<string>)
    ensures |r| == |studies| && forall k :: 0 <= k < |r| ==> r[k] == studies[k].solutionType
  {
    seq(|studies|, k requires 0 <= k < |studies| => studies[k].solutionType)
  }

  /** `industries`: each industry of the fetched studies once. */
  function IndustryFacet(data: Option<seq<CaseStudy>>): (r: seq<string>)
    ensures NoDuplicates(r)
    ensures forall v :: v in r <==> data.Some? && exists k :: 0 <= k < |data.value| && data.value[k].industry == v
    ensures data.None? ==> r == []
  {
    if data.None? then [] else
      var r := Distinct(Industries(data.value));
      forall v ensures v in Industries(data.value) <==> exists k :: 0 <= k < |data.value| && data.value[k].industry == v {
        if v in Industries(data.value) {
          var k :| 0 <= k < |data.value| && Industries(data.value)[k] == v;
        }
      }
      r
  }

  /** `solutionTypes`: each solution type of the fetched studies once. */
  function SolutionFacet(data: Option<seq<CaseStudy>>): (r: seq<string>)
    ensures NoDuplicates(r)
    ensures forall v :: v in r <==> data.Some? && exists k :: 0 <= k < |data.value| && data.value[k].solutionType == v
    ensures data.None? ==> r == []
  {
    if data.None? then [] else
      var r := Distinct(SolutionTypes(data.value));
      forall v ensures v in SolutionTypes(data.value) <==> exists k :: 0 <= k < |data.value| && data.value[k].solutionType == v {
        if v in SolutionTypes(data.value) {
          var k :| 0 <= k < |data.value| && SolutionTypes(data.value)[k] == v;
        }
      }
      r
  }

  // ---------------------------------------------------------------------------
  // Filter

  /** One selection against one value: "all" matches everything. */
  predicate Selects(selection: string, value: string) {
    selection == All || value == selection
  }

  predicate Shown(cs: CaseStudy, industry: string, solution: string) {
    Selects(industry, cs.industry) && Selects(solution, cs.solutionType)
  }

  /** `caseStudies.filter(...)` */
  function FilterStudies(studies: seq<CaseStudy>, industry: string, solution: string): (r: seq<CaseStudy>)
    ensures |r| <= |studies|
    ensures forall cs :: cs in r <==> cs in studies && Shown(cs, industry, solution)
    decreases |studies|
  {
    if studies == [] then []
    else (if Shown(studies[0], industry, solution) then [studies[0]] else [])
         + FilterStudies(studies[1..], industry, solution)
  }

  /** `filteredCaseStudies`: the filtered studies, or none before data arrives. */
  function FilteredCaseStudies(data: Option<seq<CaseStudy>>, industry: string, solution: string): (r: seq<CaseStudy>)
    ensures data.None? ==> r == []
    ensures data.Some? ==> r == FilterStudies(data.value, industry, solution)
  {
    if data.None? then [] else FilterStudies(data.value, industry, solution)
  }

  /** `sub` is `xs` with some elements left out, the rest in their order. */
  ghost predicate IsSubsequence(sub: seq<CaseStudy>, xs: seq<CaseStudy>)
    decreases |xs|
  {
    if sub == [] then true
    else if xs == [] then false
    else (sub[0] == xs[0] && IsSubsequence(sub[1..], xs[1..])) || IsSubsequence(sub, xs[1..])
  }

  /** The filter keeps the order of the listing. */
  lemma {:induction false} FilterIsSubsequence(studies: seq<CaseStudy>, industry: string, solution: string)
    ensures IsSubsequence(FilterStudies(studies, industry, solution), studies)
    decreases |studies|
  {
    if studies != [] {
      var rest := FilterStudies(studies[1..], industry, solution);
      FilterIsSubsequence(studies[1..], industry, solution);
      if Shown(studies[0], industry, solution) {
        var r := FilterStudies(studies, industry, solution);
        assert r == [studies[0]] + rest;
        assert r[1..] == rest;
      } else {
        assert FilterStudies(studies, industry, solution) == rest;
      }
    }
  }

  /** With both selections at "all" (as the page opens) every study is listed. */
  lemma {:induction false} AllSelectsEverything(studies: seq<CaseStudy>)
    ensures FilterStudies(studies, All, All) == studies
    decreases |studies|
  {
    if studies != [] {
      AllSelectsEverything(studies[1..]);
      assert studies == [studies[0]] + studies[1..];
    }
  }

  /** Each industry offered by the facet lists at least one study when chosen. */
  lemma IndustryChoiceIsNeverEmpty(data: Option<seq<CaseStudy>>, v: string)
    requires v in IndustryFacet(data)
    ensures FilteredCaseStudies(data, v, All) != []
  {
    var k :| 0 <= k < |data.value| && data.value[k].industry == v;
    assert Shown(data.value[k], v, All);
  }

  /** Each solution type offered by the facet lists at least one study when chosen. */
  lemma SolutionChoiceIsNeverEmpty(data: Option<seq<CaseStudy>>, v: string)
    requires v in SolutionFacet(data)
    ensures FilteredCaseStudies(data, All, v) != []
  {
    var k :| 0 <= k < |data.value| && data.value[k].solutionType == v;
    assert Shown(data.value[k], All, v);
  }
}
