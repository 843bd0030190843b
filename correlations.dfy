/** `calculate_correlations` of simple_experiment.py: for each of the five
    dimensions, the human and LLM score columns (in each table's own key
    order), their Pearson correlation, approximate p-value, mean absolute
    error and the two column means. */
module Correlations {
  import opened Dicts
  import opened Statistics
  import opened Ratings

  /** The statistics dictionary stored under one dimension. */
  datatype DimStats = DimStats(correlation: real, pValue: real, mae: real, humanMean: real, llmMean: real)

  /** The row scores every one of the five dimensions. */
  ghost predicate RowHasDimensions(s: Scores) {
    forall d :: d in Dimensions ==> d in s.entries
  }

  /** Every row of the table scores every dimension. */
  ghost predicate HasDimensions(t: Table) {
    WellFormed(t) && forall k :: k in t.entries ==> RowHasDimensions(t.entries[k])
  }

  /** What `calculate_correlations(human, llm)` needs to run without an
      error: every row has every dimension (otherwise a `KeyError`), there is
      at least one human row (the mean absolute error and the means divide by
      the number of human rows) and the LLM table has at least as many rows
      (the correlation indexes the LLM column at every human position). */
  ghost predicate Comparable(human: Table, llm: Table) {
    HasDimensions(human) && HasDimensions(llm) && 0 < |human.keys| <= |llm.keys|
  }

  /** `[t[pid][dim] for pid in t.keys()]`. */
  function Column(t: Table, dim: string): (c: seq<real>)
    requires HasDimensions(t) && dim in Dimensions
    ensures |c| == |t.keys|
  {
    seq(|t.keys|, i requires 0 <= i < |t.keys| => t.entries[t.keys[i]].entries[dim])
  }

  /** The statistics of one dimension: a correlation in [-1, 1], a p-value
      that is 1 (degenerate input), 0.05 or 0.1, and a non-negative error. */
  function DimensionStats(human: Table, llm: Table, dim: string, sqrt: real -> real): (s: DimStats)
    requires Comparable(human, llm) && dim in Dimensions && IsSqrt(sqrt)
    ensures -1.0 <= s.correlation <= 1.0
    ensures s.pValue == 1.0 || s.pValue == 0.05 || s.pValue == 0.1
    ensures s.mae >= 0.0
  {
    var h, l := Column(human, dim), Column(llm, dim);
    MeanAbsoluteErrorProperties(h, l);
    var corr := PearsonCorrelation(h, l, sqrt);
    DimStats(corr.0, corr.1, MeanAbsoluteError(h, l), Mean(h), Mean(l))
  }

  /** The statistics of the five dimensions, in order. */
  function AllStats(human: Table, llm: Table, sqrt: real -> real): (s: seq<DimStats>)
    requires Comparable(human, llm) && IsSqrt(sqrt)
    ensures |s| == |Dimensions|
  {
    seq(5, j requires 0 <= j < 5 => DimensionStats(human, llm, Dimensions[j], sqrt))
  }

  /** The dictionary `calculate_correlations` returns. */
  function CorrelationTable(human: Table, llm: Table, sqrt: real -> real): Dict<DimStats>
    requires Comparable(human, llm) && IsSqrt(sqrt)
  {
    BuildDict(Dimensions, AllStats(human, llm, sqrt))
  }

  /** `calculate_correlations(human_ratings, llm_ratings)`. */
  method CalculateCorrelations(human: Table, llm: Table, sqrt: real -> real) returns (results: Dict<DimStats>)
    requires Comparable(human, llm) && IsSqrt(sqrt)
    ensures results == CorrelationTable(human, llm, sqrt)
  {
    ghost var all := AllStats(human, llm, sqrt);
    results := Empty();
    var j := 0;
    while j < |Dimensions|
      invariant 0 <= j <= |Dimensions|
      invariant results == BuildDict(Dimensions[..j], all[..j])
    {
      var stats := DimensionStats(human, llm, Dimensions[j], sqrt);
      assert stats == all[j];
      BuildDictStep(Dimensions, all, j);
      results := results.Put(Dimensions[j], stats);
      j := j + 1;
    }
    assert Dimensions[..j] == Dimensions;
    assert all[..j] == all;
  }

  /** A column of a table whose scores lie in [1, 5] lies in [1, 5]. */
  lemma ColumnWithin(t: Table, dim: string)
    requires HasDimensions(t) && dim in Dimensions && ScoresWithin(t)
    ensures AllWithin(Column(t, dim), 1.0, 5.0)
  {
    forall i | 0 <= i < |t.keys| ensures 1.0 <= Column(t, dim)[i] <= 5.0 {
      assert t.keys[i] in t.entries;
      assert RowWithin(t.entries[t.keys[i]]);
    }
  }

  /** With scores in [1, 5], both means lie in [1, 5] and the error is at
      most 4; the error is 0 exactly when the LLM column agrees with the
      human column at every human position. */
  lemma DimensionStatsProperties(human: Table, llm: Table, dim: string, sqrt: real -> real)
    requires Comparable(human, llm) && dim in Dimensions && IsSqrt(sqrt)
    ensures DimensionStats(human, llm, dim, sqrt).mae == 0.0 <==>
      forall i :: 0 <= i < |human.keys| ==> Column(human, dim)[i] == Column(llm, dim)[i]
    ensures ScoresWithin(human) && ScoresWithin(llm) ==>
      && 1.0 <= DimensionStats(human, llm, dim, sqrt).humanMean <= 5.0
      && 1.0 <= DimensionStats(human, llm, dim, sqrt).llmMean <= 5.0
      && DimensionStats(human, llm, dim, sqrt).mae <= 4.0
  {
    var h, l := Column(human, dim), Column(llm, dim);
    MeanAbsoluteErrorProperties(h, l);
    assert MinLength(h, l) == |h|;
    if (forall i :: 0 <= i < |h| ==> h[i] == l[i]) {
      assert h[..|h|] == l[..|h|];
    }
    if h[..|h|] == l[..|h|] {
      forall i | 0 <= i < |h| ensures h[i] == l[i] {
        assert h[..|h|][i] == l[..|h|][i];
      }
    }
    if ScoresWithin(human) && ScoresWithin(llm) {
      ColumnWithin(human, dim);
      ColumnWithin(llm, dim);
      MeanWithin(h, 1.0, 5.0);
      MeanWithin(l, 1.0, 5.0);
    }
  }

  /** The result has exactly the five dimensions, in order, each holding its
      own statistics. */
  lemma CorrelationTableKeys(human: Table, llm: Table, sqrt: real -> real)
    requires Comparable(human, llm) && IsSqrt(sqrt)
    ensures CorrelationTable(human, llm, sqrt).Valid() && CorrelationTable(human, llm, sqrt).keys == Dimensions
    ensures forall j :: 0 <= j < |Dimensions| ==>
      Dimensions[j] in CorrelationTable(human, llm, sqrt).entries
      && CorrelationTable(human, llm, sqrt).entries[Dimensions[j]] == DimensionStats(human, llm, Dimensions[j], sqrt)
  {
    DimensionsDistinct();
    BuildDictDistinct(Dimensions, AllStats(human, llm, sqrt));
  }
}
