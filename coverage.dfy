/**
  Forecast coverage scores of the plan-corpus linker
  (step 3 of `link_plan_to_corpus`): one vector-store lookup per theme,
  turned into an average similarity and a count of relevant chunks.
 */
module CoverageForecast {
  import opened PlanContexts

  /** A chunk whose similarity exceeds this counts as relevant. */
  const RelevanceThreshold: real := 0.3
  /** The number of neighbours asked of the vector store per theme. */
  const ResultsPerQuery: nat := 10

  /**
    The outcome of querying the vector store for one theme: the query raised
    an exception, or it returned the distances of the first result list
    (empty when the result, its `distances` or its first list is missing or empty).
   */
  datatype Lookup = QueryFailed | QueryResult(distances: seq<real>)

  /** `[1 - d for d in distances]`. */
  function Scores(ds: seq<real>): seq<real> {
    seq(|ds|, k requires 0 <= k < |ds| => 1.0 - ds[k])
  }

  function Sum(xs: seq<real>): real {
    if xs == [] then 0.0 else xs[0] + Sum(xs[1..])
  }

  /** `len([s for s in xs if s > t])`. */
  function CountAbove(xs: seq<real>, t: real): (n: nat)
    ensures n <= |xs|
    ensures n == |xs| <==> forall k :: 0 <= k < |xs| ==> xs[k] > t
    ensures n == 0 <==> forall k :: 0 <= k < |xs| ==> xs[k] <= t
  {
    if xs == [] then 0
    else
      assert forall k :: 1 <= k < |xs| ==> xs[1..][k - 1] == xs[k];
      (if xs[0] > t then 1 else 0) + CountAbove(xs[1..], t)
  }

  /** The number of distances strictly below `t`. */
  function CountBelow(ds: seq<real>, t: real): nat {
    if ds == [] then 0 else (if ds[0] < t then 1 else 0) + CountBelow(ds[1..], t)
  }

  /** The coverage recorded for a theme whose lookup came back as `l`. */
  function CoverageOf(l: Lookup): (c: Coverage)
    ensures (l.QueryFailed? || l.distances == []) ==> c == Coverage(0.0, 0)
    ensures l.QueryResult? ==> c.nbChunks <= |l.distances|
  {
    if l.QueryResult? && l.distances != [] then
      var scores := Scores(l.distances);
      Coverage(Sum(scores) / (|scores| as real), CountAbove(scores, RelevanceThreshold))
    else Coverage(0.0, 0)
  }

  /** A score above the threshold is a distance below `1 - 0.3`: the count is one of close neighbours. */
  lemma {:induction false} RelevantMeansClose(ds: seq<real>)
    ensures CountAbove(Scores(ds), RelevanceThreshold) == CountBelow(ds, 1.0 - RelevanceThreshold)
  {
    if ds != [] {
      RelevantMeansClose(ds[1..]);
      assert Scores(ds)[1..] == Scores(ds[1..]);
    }
  }

  lemma {:induction false} SumBounds(xs: seq<real>, lo: real, hi: real)
    requires forall k :: 0 <= k < |xs| ==> lo <= xs[k] <= hi
    ensures (|xs| as real) * lo <= Sum(xs) <= (|xs| as real) * hi
  {
    if xs != [] {
      assert forall k :: 0 <= k < |xs| - 1 ==> xs[1..][k] == xs[k + 1];
      SumBounds(xs[1..], lo, hi);
    }
  }

  lemma QuotientWithin(total: real, n: real, lo: real, hi: real)
    requires n > 0.0 && n * lo <= total <= n * hi
    ensures lo <= total / n <= hi
  {
    var q := total / n;
    assert total == q * n;
  }

  /**
    When every distance lies in `[lo, hi]` the average score lies in
    `[1 - hi, 1 - lo]`.
   */
  lemma AverageWithin(ds: seq<real>, lo: real, hi: real)
    requires ds != []
    requires forall k :: 0 <= k < |ds| ==> lo <= ds[k] <= hi
    ensures 1.0 - hi <= CoverageOf(QueryResult(ds)).avgScore <= 1.0 - lo
  {
    var scores := Scores(ds);
    SumBounds(scores, 1.0 - hi, 1.0 - lo);
    QuotientWithin(Sum(scores), |scores| as real, 1.0 - hi, 1.0 - lo);
  }

  /** Coverage of every theme, a later duplicate overwriting an earlier entry. */
  function CoverageMap(themes: seq<string>, lookup: string -> Lookup): (m: map<string, Coverage>)
    ensures m.Keys == set t | t in themes
    ensures forall t :: t in m ==> m[t] == CoverageOf(lookup(t))
  {
    if themes == [] then map[]
    else
      var t := themes[|themes| - 1];
      assert themes == themes[..|themes| - 1] + [t];
      CoverageMap(themes[..|themes| - 1], lookup)[t := CoverageOf(lookup(t))]
  }

  /** The per-theme loop of step 3. */
  method ForecastCoverage(themes: seq<string>, lookup: string -> Lookup) returns (coverage: map<string, Coverage>)
    ensures coverage == CoverageMap(themes, lookup)
  {
    coverage := map[];
    for i := 0 to |themes|
      invariant coverage == CoverageMap(themes[..i], lookup)
    {
      var theme := themes[i];
      assert themes[..i + 1][..i] == themes[..i] && themes[..i + 1][i] == theme;
      assert CoverageMap(themes[..i + 1], lookup) == CoverageMap(themes[..i], lookup)[theme := CoverageOf(lookup(theme))];
      var l := lookup(theme);
      if l.QueryResult? && l.distances != [] {
        var scores := Scores(l.distances);
        coverage := coverage[theme := Coverage(Sum(scores) / (|scores| as real), CountAbove(scores, RelevanceThreshold))];
      } else {
        coverage := coverage[theme := Coverage(0.0, 0)];
      }
    }
    assert themes[..|themes|] == themes;
  }

  /** A theme whose lookup fails or finds nothing is recorded with a zero score and no chunk. */
  lemma UnmatchedThemeHasZeroCoverage(themes: seq<string>, lookup: string -> Lookup, t: string)
    requires t in themes
    requires lookup(t).QueryFailed? || lookup(t).distances == []
    ensures t in CoverageMap(themes, lookup) && CoverageMap(themes, lookup)[t] == Coverage(0.0, 0)
  {
  }
}
