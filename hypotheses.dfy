/** `validate_hypotheses` and `generate_summary` of simple_experiment.py:
    H1 and H2 compare the mean correlation over all models on the structured
    and on the subjective dimensions with fixed thresholds; H3 reports each
    model's mean correlation and the best of them. The H1 and H2 rules are
    shared with experiment.py. */
module Hypotheses {
  import opened Dicts
  import opened Statistics
  import opened Ratings
  import opened Correlations

  /** The `calculate_correlations` results, by model name. */
  type Results = Dict<Dict<DimStats>>

  /** One model's results hold every dimension. */
  ghost predicate StatsComplete(s: Dict<DimStats>) {
    s.Valid() && forall d :: d in Dimensions ==> d in s.entries
  }

  /** What `validate_hypotheses` needs to run without an error: at least one
      model (H1 divides by the number of collected correlations), every model
      with every dimension (otherwise a `KeyError`). */
  ghost predicate Complete(results: Results) {
    results.Valid() && 0 < |results.keys| && forall m :: m in results.entries ==> StatsComplete(results.entries[m])
  }

  /** Every correlation of one model lies in [-1, 1]. */
  ghost predicate StatsBounded(s: Dict<DimStats>) {
    forall d :: d in s.entries ==> -1.0 <= s.entries[d].correlation <= 1.0
  }

  /** Every correlation of every model lies in [-1, 1], as every Pearson
      correlation does. */
  ghost predicate Bounded(results: Results) {
    forall m :: m in results.entries ==> StatsBounded(results.entries[m])
  }

  ghost predicate AmongDimensions(dims: seq<string>) {
    forall j :: 0 <= j < |dims| ==> dims[j] in Dimensions
  }

  // ---------------------------------------------------------------------------
  // H1 and H2: correlations collected over all models

  /** `[stats[d]['correlation'] for d in dims]`. */
  function CorrelationsOf(stats: Dict<DimStats>, dims: seq<string>): (c: seq<real>)
    requires forall j :: 0 <= j < |dims| ==> dims[j] in stats.entries
    ensures |c| == |dims|
  {
    seq(|dims|, j requires 0 <= j < |dims| => stats.entries[dims[j]].correlation)
  }

  /** The correlations the nested loop over the first `n` models and then
      over `dims` appends, in that order. */
  function Collected(results: Results, n: nat, dims: seq<string>): (c: seq<real>)
    requires Complete(results) && n <= |results.keys| && AmongDimensions(dims)
    ensures |c| == n * |dims|
  {
    if n == 0 then []
    else
      var stats := results.entries[results.keys[n - 1]];
      assert StatsComplete(stats);
      Collected(results, n - 1, dims) + CorrelationsOf(stats, dims)
  }

  /** The inner loop: one model's correlations on `dims`, appended. */
  method AppendCorrelations(values: seq<real>, stats: Dict<DimStats>, dims: seq<string>) returns (r: seq<real>)
    requires forall j :: 0 <= j < |dims| ==> dims[j] in stats.entries
    ensures r == values + CorrelationsOf(stats, dims)
  {
    r := values;
    var j := 0;
    while j < |dims|
      invariant 0 <= j <= |dims|
      invariant r == values + CorrelationsOf(stats, dims)[..j]
    {
      r := r + [stats.entries[dims[j]].correlation];
      j := j + 1;
    }
    assert CorrelationsOf(stats, dims)[..j] == CorrelationsOf(stats, dims);
  }

  /** The nested loop that fills `h1_results` (or `h2_results`). */
  method CollectCorrelations(results: Results, dims: seq<string>) returns (values: seq<real>)
    requires Complete(results) && AmongDimensions(dims)
    ensures values == Collected(results, |results.keys|, dims)
  {
    values := [];
    var i := 0;
    while i < |results.keys|
      invariant 0 <= i <= |results.keys|
      invariant values == Collected(results, i, dims)
    {
      var stats := results.entries[results.keys[i]];
      assert StatsComplete(stats);
      values := AppendCorrelations(values, stats, dims);
      i := i + 1;
    }
  }

  /** Every collected correlation is a correlation of some model. */
  lemma {:induction false} CollectedBounded(results: Results, n: nat, dims: seq<string>)
    requires Complete(results) && n <= |results.keys| && AmongDimensions(dims) && Bounded(results)
    ensures AllWithin(Collected(results, n, dims), -1.0, 1.0)
  {
    if n > 0 {
      CollectedBounded(results, n - 1, dims);
      var stats := results.entries[results.keys[n - 1]];
      assert StatsComplete(stats) && StatsBounded(stats);
      var c, d := Collected(results, n - 1, dims), CorrelationsOf(stats, dims);
      forall i | 0 <= i < |c + d| ensures -1.0 <= (c + d)[i] <= 1.0 {
        if i >= |c| {
          assert (c + d)[i] == d[i - |c|];
        }
      }
    }
  }

  // ---------------------------------------------------------------------------
  // H3: each model's mean correlation and the best one

  /** `sum(results[d]['correlation'] for d in results.keys()) / len(results)`. */
  function ModelAverage(stats: Dict<DimStats>): real
    requires StatsComplete(stats)
  {
    assert "methodology" in stats.keys;
    Sum(CorrelationsOf(stats, stats.keys)) / (|stats.keys| as real)
  }

  /** The model averages in model order. */
  function Averages(results: Results): (a: seq<real>)
    requires Complete(results)
    ensures |a| == |results.keys|
  {
    seq(|results.keys|, i requires 0 <= i < |results.keys| => ModelAverage(results.entries[results.keys[i]]))
  }

  /** The loop that fills `model_averages`. */
  method ModelAverages(results: Results) returns (averages: seq<real>)
    requires Complete(results)
    ensures averages == Averages(results)
  {
    averages := [];
    var i := 0;
    while i < |results.keys|
      invariant 0 <= i <= |results.keys|
      invariant averages == Averages(results)[..i]
    {
      var stats := results.entries[results.keys[i]];
      assert StatsComplete(stats) && "methodology" in stats.keys;
      var avg := Sum(CorrelationsOf(stats, stats.keys)) / (|stats.keys| as real);
      averages := averages + [avg];
      i := i + 1;
    }
  }

  /** The position Python's `max` picks: it scans left to right and moves on
      only to a strictly larger value, so the result is a maximum and the
      first one. */
  function FirstMaxIndex(s: seq<real>): (i: nat)
    requires |s| > 0
    ensures i < |s|
    ensures forall j :: 0 <= j < |s| ==> s[j] <= s[i]
    ensures forall j :: 0 <= j < i ==> s[j] < s[i]
    decreases |s|
  {
    if |s| == 1 then 0
    else
      var k := FirstMaxIndex(s[..|s| - 1]);
      if s[|s| - 1] > s[k] then |s| - 1 else k
  }

  /** A mean of correlations in [-1, 1] lies in [-1, 1]. */
  lemma ModelAverageBounded(stats: Dict<DimStats>)
    requires StatsComplete(stats) && StatsBounded(stats)
    ensures -1.0 <= ModelAverage(stats) <= 1.0
  {
    assert "methodology" in stats.keys;
    var c := CorrelationsOf(stats, stats.keys);
    forall i | 0 <= i < |c| ensures -1.0 <= c[i] <= 1.0 {
      assert stats.keys[i] in stats.entries;
    }
    MeanWithin(c, -1.0, 1.0);
  }

  // ---------------------------------------------------------------------------
  // The validation record

  datatype Verdict = Verdict(hypothesis: string, result: real, validated: bool)
  datatype Comparison = Comparison(hypothesis: string, bestIndividualPerformance: real, modelPerformances: Dict<real>)
  datatype Validation = Validation(h1: Verdict, h2: Verdict, h3: Comparison)

  const H1Text := "LLM correlation >0.7 on structured dimensions"
  const H2Text := "LLM correlation <0.5 on subjective dimensions"
  const H3Text := "Performance comparison across models"

  /** The H1 entry: the mean structured correlation, validated above 0.7. */
  function H1Verdict(results: Results): Verdict
    requires Complete(results)
  {
    var c := Collected(results, |results.keys|, StructuredDims);
    Verdict(H1Text, Mean(c), Mean(c) > 0.7)
  }

  /** The H2 entry: the mean subjective correlation, validated below 0.5. */
  function H2Verdict(results: Results): Verdict
    requires Complete(results)
  {
    var c := Collected(results, |results.keys|, SubjectiveDims);
    Verdict(H2Text, Mean(c), Mean(c) < 0.5)
  }

  /** The dictionary `validate_hypotheses` returns. */
  function ValidationOf(results: Results): Validation
    requires Complete(results)
  {
    var averages := Averages(results);
    Validation(H1Verdict(results), H2Verdict(results),
      Comparison(H3Text, averages[FirstMaxIndex(averages)], BuildDict(results.keys, averages)))
  }

  /** The H1 and H2 parts of `validate_hypotheses`, the same in both scripts. */
  method ValidateStructuredAndSubjective(results: Results) returns (h1: Verdict, h2: Verdict)
    requires Complete(results)
    ensures h1 == H1Verdict(results) && h2 == H2Verdict(results)
  {
    var h1Results := CollectCorrelations(results, StructuredDims);
    var h1Mean := Sum(h1Results) / (|h1Results| as real);
    h1 := Verdict(H1Text, h1Mean, h1Mean > 0.7);
    var h2Results := CollectCorrelations(results, SubjectiveDims);
    var h2Mean := Sum(h2Results) / (|h2Results| as real);
    h2 := Verdict(H2Text, h2Mean, h2Mean < 0.5);
  }

  /** `validate_hypotheses(llm_results)`. */
  method ValidateHypotheses(results: Results) returns (v: Validation)
    requires Complete(results)
    ensures v == ValidationOf(results)
  {
    var h1, h2 := ValidateStructuredAndSubjective(results);
    var modelAverages := ModelAverages(results);
    var bestIndividual := modelAverages[FirstMaxIndex(modelAverages)];
    v := Validation(h1, h2, Comparison(H3Text, bestIndividual, BuildDict(results.keys, Averages(results))));
  }

  lemma ProductAsReal(n: nat, k: nat)
    requires n >= 1 && k >= 1
    ensures n * k >= 1 && (n * k) as real == (n as real) * (k as real)
  {
  }

  /** H1 holds exactly when the structured correlations, two per model, sum
      to more than 1.4 times the number of models. */
  lemma H1Rule(results: Results)
    requires Complete(results)
    ensures H1Verdict(results).validated <==>
      Sum(Collected(results, |results.keys|, StructuredDims)) > 1.4 * (|results.keys| as real)
  {
    H1VerdictMean(results);
    MeanOverPairs(Collected(results, |results.keys|, StructuredDims), |results.keys|);
  }

  /** The H1 verdict compares the mean of the collected correlations,
      2 per model, with 0.7. */
  lemma H1VerdictMean(results: Results)
    requires Complete(results)
    ensures |Collected(results, |results.keys|, StructuredDims)| == |results.keys| * 2
    ensures H1Verdict(results).validated == (Mean(Collected(results, |results.keys|, StructuredDims)) > 0.7)
  {
  }

  /** Two structured correlations per model over `n` models: their mean is
      above 0.7 exactly when their sum is above 1.4 per model. */
  lemma MeanOverPairs(s: seq<real>, n: nat)
    requires n >= 1 && |s| == n * 2
    ensures Mean(s) > 0.7 <==> Sum(s) > 1.4 * (n as real)
  {
    ProductAsReal(n, 2);
    MeanAboveIff(s, 0.7);
  }

  /** Three subjective correlations per model over `n` models: their mean is
      below 0.5 exactly when their sum is below 1.5 per model. */
  lemma MeanOverTriples(s: seq<real>, n: nat)
    requires n >= 1 && |s| == n * 3
    ensures Mean(s) < 0.5 <==> Sum(s) < 1.5 * (n as real)
  {
    ProductAsReal(n, 3);
    MeanAboveIff(s, 0.5);
  }

  /** H2 holds exactly when the subjective correlations, three per model,
      sum to less than 1.5 times the number of models. */
  lemma H2Rule(results: Results)
    requires Complete(results)
    ensures H2Verdict(results).validated <==>
      Sum(Collected(results, |results.keys|, SubjectiveDims)) < 1.5 * (|results.keys| as real)
  {
    H2VerdictMean(results);
    MeanOverTriples(Collected(results, |results.keys|, SubjectiveDims), |results.keys|);
  }

  /** The H2 verdict compares the mean of the collected correlations,
      3 per model, with 0.5. */
  lemma H2VerdictMean(results: Results)
    requires Complete(results)
    ensures |Collected(results, |results.keys|, SubjectiveDims)| == |results.keys| * 3
    ensures H2Verdict(results).validated == (Mean(Collected(results, |results.keys|, SubjectiveDims)) < 0.5)
  {
  }

  /** With every correlation in [-1, 1], both means and the best model
      average lie in [-1, 1]. */
  lemma ValidationBounded(results: Results)
    requires Complete(results) && Bounded(results)
    ensures -1.0 <= ValidationOf(results).h1.result <= 1.0
    ensures -1.0 <= ValidationOf(results).h2.result <= 1.0
    ensures -1.0 <= ValidationOf(results).h3.bestIndividualPerformance <= 1.0
  {
    var n := |results.keys|;
    CollectedBounded(results, n, StructuredDims);
    CollectedBounded(results, n, SubjectiveDims);
    MeanWithin(Collected(results, n, StructuredDims), -1.0, 1.0);
    MeanWithin(Collected(results, n, SubjectiveDims), -1.0, 1.0);
    var a := Averages(results);
    var i := FirstMaxIndex(a);
    assert results.keys[i] in results.entries;
    ModelAverageBounded(results.entries[results.keys[i]]);
  }

  /** `model_performances` has the models in order, each holding its own
      average; the best individual performance is at least every one of
      them and is the average of some model. */
  lemma ComparisonProperties(results: Results)
    requires Complete(results)
    ensures var p := ValidationOf(results).h3.modelPerformances;
      && p.Valid() && p.keys == results.keys
      && (forall m :: m in p.entries <==> m in results.entries)
      && (forall m :: m in p.entries ==> p.entries[m] == ModelAverage(results.entries[m]))
      && (forall m :: m in p.entries ==> p.entries[m] <= ValidationOf(results).h3.bestIndividualPerformance)
      && exists m :: m in p.entries && p.entries[m] == ValidationOf(results).h3.bestIndividualPerformance
  {
    var a := Averages(results);
    var p := BuildDict(results.keys, a);
    var i := FirstMaxIndex(a);
    var h3 := ValidationOf(results).h3;
    assert h3.modelPerformances == p && h3.bestIndividualPerformance == a[i];
    BuildDictDistinct(results.keys, a);
    forall m | m in p.entries ensures p.entries[m] == ModelAverage(results.entries[m]) && p.entries[m] <= a[i] {
      var k :| 0 <= k < |results.keys| && results.keys[k] == m;
      assert p.entries[m] == a[k];
    }
    assert p.entries[results.keys[i]] == a[i];
  }

  // ---------------------------------------------------------------------------
  // The summary

  datatype Summary = Summary(
    h1Validated: bool, h2Validated: bool,
    structuredPerformance: real, subjectivePerformance: real,
    bestModel: string, keyFinding: string)

  const KeyFinding := "LLMs show stronger correlation on structured evaluation tasks compared to subjective ones, supporting the hypothesis of task-specific AI capabilities in scientific evaluation."

  /** The values of a dictionary in key order. */
  function ValuesInOrder(d: Dict<real>): (s: seq<real>)
    requires d.Valid()
    ensures |s| == |d.keys|
  {
    seq(|d.keys|, i requires 0 <= i < |d.keys| => d.entries[d.keys[i]])
  }

  /** `generate_summary(llm_results, validation)`: the flags and means of H1
      and H2 copied, and as best model the first model in order whose
      performance is maximal (`max(..., key=lambda x: x[1])`); an empty
      `model_performances` is an error. The results argument is not read. */
  function GenerateSummary(results: Results, v: Validation): (s: Summary)
    requires v.h3.modelPerformances.Valid() && |v.h3.modelPerformances.keys| > 0
    ensures s.bestModel in v.h3.modelPerformances.entries
    ensures forall m :: m in v.h3.modelPerformances.entries ==>
      v.h3.modelPerformances.entries[m] <= v.h3.modelPerformances.entries[s.bestModel]
    ensures forall i :: 0 <= i < |v.h3.modelPerformances.keys| && v.h3.modelPerformances.keys[i] != s.bestModel ==>
      (v.h3.modelPerformances.entries[v.h3.modelPerformances.keys[i]] < v.h3.modelPerformances.entries[s.bestModel]
       || exists j :: 0 <= j < i && v.h3.modelPerformances.keys[j] == s.bestModel)
  {
    var p := v.h3.modelPerformances;
    var values := ValuesInOrder(p);
    var best := FirstMaxIndex(values);
    assert p.keys[best] in p.entries;
    forall m | m in p.entries ensures p.entries[m] <= p.entries[p.keys[best]] {
      var i :| 0 <= i < |p.keys| && p.keys[i] == m;
      assert values[i] == p.entries[m];
    }
    forall i | 0 <= i < |p.keys| && p.keys[i] != p.keys[best]
      ensures p.entries[p.keys[i]] < p.entries[p.keys[best]] || exists j :: 0 <= j < i && p.keys[j] == p.keys[best]
    {
      assert values[i] == p.entries[p.keys[i]];
      if i > best {
        assert p.keys[best] == p.keys[best];
      }
    }
    Summary(v.h1.validated, v.h2.validated, v.h1.result, v.h2.result, p.keys[best], KeyFinding)
  }

  /** On the validation of complete results, the summary copies the H1 and
      H2 flags and means, and names a model whose average is the best
      individual performance. */
  lemma SummaryProperties(results: Results)
    requires Complete(results)
    ensures ValidationOf(results).h3.modelPerformances.Valid() && |ValidationOf(results).h3.modelPerformances.keys| > 0
    ensures var v := ValidationOf(results); var s := GenerateSummary(results, v);
      && s.h1Validated == v.h1.validated && s.h2Validated == v.h2.validated
      && s.structuredPerformance == v.h1.result && s.subjectivePerformance == v.h2.result
      && s.bestModel in results.entries
      && ModelAverage(results.entries[s.bestModel]) == v.h3.bestIndividualPerformance
  {
    ComparisonProperties(results);
    var v := ValidationOf(results);
    var s := GenerateSummary(results, v);
    var p := v.h3.modelPerformances;
    var m :| m in p.entries && p.entries[m] == v.h3.bestIndividualPerformance;
    assert p.entries[m] <= p.entries[s.bestModel];
  }
}
