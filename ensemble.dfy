/** The ensemble part of experiment.py: `simulate_ensemble_method`, a
    per-score blend of the human and the LLM table, and the H3 rule of its
    `validate_hypotheses`, which compares the ensemble's mean correlation
    with the best single model's. */
module Ensemble {
  import opened Dicts
  import opened Statistics
  import opened Ratings
  import opened Correlations
  import opened Hypotheses

  // ---------------------------------------------------------------------------
  // The blend

  /** The human weight: 0.7 on the structured dimensions, 0.9 on every other. */
  function HumanWeight(dim: string): (w: real)
    ensures 0.0 < w < 1.0
  {
    if dim in StructuredDims then 0.7 else 0.9
  }

  /** `weight_human * human + (1 - weight_human) * llm`: a convex combination,
      so it lies between the two scores. */
  function EnsembleScore(dim: string, human: real, llm: real): (r: real)
    ensures Min(human, llm) <= r <= Max(human, llm)
  {
    HumanWeight(dim) * human + (1.0 - HumanWeight(dim)) * llm
  }

  /** Two equal scores blend to themselves; scores in [1, 5] blend into [1, 5];
      the structured weight is 0.7 and every other weight 0.9. */
  lemma EnsembleScoreProperties(dim: string, human: real, llm: real)
    ensures human == llm ==> EnsembleScore(dim, human, llm) == human
    ensures 1.0 <= human <= 5.0 && 1.0 <= llm <= 5.0 ==> 1.0 <= EnsembleScore(dim, human, llm) <= 5.0
    ensures dim in StructuredDims ==> EnsembleScore(dim, human, llm) == 0.7 * human + 0.3 * llm
    ensures dim !in StructuredDims ==> EnsembleScore(dim, human, llm) == 0.9 * human + 0.1 * llm
  {
  }

  /** Every score of `h` has a counterpart in `l`. */
  ghost predicate RowCovered(h: Scores, l: Scores) {
    forall d :: d in h.entries ==> d in l.entries
  }

  /** What `simulate_ensemble_method(human, llm)` needs to run without a
      `KeyError`: every paper id of the human table is in the LLM table, and
      every dimension of a human row is in the matching LLM row. */
  ghost predicate Covers(human: Table, llm: Table) {
    WellFormed(human) && forall k :: k in human.entries ==> k in llm.entries && RowCovered(human.entries[k], llm.entries[k])
  }

  /** The blended scores of one paper, in the human row's key order. */
  function EnsembleScores(h: Scores, l: Scores): (s: seq<real>)
    requires h.Valid() && RowCovered(h, l)
    ensures |s| == |h.keys|
  {
    seq(|h.keys|, j requires 0 <= j < |h.keys| => EnsembleScore(h.keys[j], h.entries[h.keys[j]], l.entries[h.keys[j]]))
  }

  /** One paper's ensemble row. */
  function EnsembleRow(h: Scores, l: Scores): Scores
    requires h.Valid() && RowCovered(h, l)
  {
    BuildDict(h.keys, EnsembleScores(h, l))
  }

  /** The ensemble row of the `i`-th paper id. */
  function EnsembleRowAt(human: Table, llm: Table, i: nat): Scores
    requires Covers(human, llm) && i < |human.keys|
  {
    EnsembleRow(RowAt(human, i), llm.entries[human.keys[i]])
  }

  function EnsembleRows(human: Table, llm: Table): (rows: seq<Scores>)
    requires Covers(human, llm)
    ensures |rows| == |human.keys|
  {
    seq(|human.keys|, i requires 0 <= i < |human.keys| => EnsembleRowAt(human, llm, i))
  }

  /** The table `simulate_ensemble_method` builds. */
  function EnsembleRatings(human: Table, llm: Table): Table
    requires Covers(human, llm)
  {
    BuildDict(human.keys, EnsembleRows(human, llm))
  }

  /** The inner loop of `simulate_ensemble_method` for one paper. */
  method BlendRow(humanScores: Scores, llmScores: Scores) returns (row: Scores)
    requires humanScores.Valid() && RowCovered(humanScores, llmScores)
    ensures row == EnsembleRow(humanScores, llmScores)
  {
    ghost var scores := EnsembleScores(humanScores, llmScores);
    row := Empty();
    var j := 0;
    while j < |humanScores.keys|
      invariant 0 <= j <= |humanScores.keys|
      invariant row == BuildDict(humanScores.keys[..j], scores[..j])
    {
      var dim := humanScores.keys[j];
      var weightHuman := HumanWeight(dim);
      var ensembleScore := weightHuman * humanScores.entries[dim] + (1.0 - weightHuman) * llmScores.entries[dim];
      assert scores[j] == ensembleScore;
      BuildDictStep(humanScores.keys, scores, j);
      row := row.Put(dim, ensembleScore);
      j := j + 1;
    }
    assert humanScores.keys[..j] == humanScores.keys && scores[..j] == scores;
  }

  /** `simulate_ensemble_method(human_ratings, llm_ratings)`. */
  method SimulateEnsembleMethod(human: Table, llm: Table) returns (ensemble: Table)
    requires Covers(human, llm)
    ensures ensemble == EnsembleRatings(human, llm)
  {
    ensemble := Empty();
    var i := 0;
    while i < |human.keys|
      invariant 0 <= i <= |human.keys|
      invariant ensemble == BuildDict(human.keys[..i], EnsembleRows(human, llm)[..i])
    {
      EnsembleStep(human, llm, i);
      var paperId := human.keys[i];
      var row := BlendRow(human.entries[paperId], llm.entries[paperId]);
      ensemble := ensemble.Put(paperId, row);
      i := i + 1;
    }
    assert human.keys[..i] == human.keys && EnsembleRows(human, llm)[..i] == EnsembleRows(human, llm);
  }

  /** One step of the outer loop of `simulate_ensemble_method`. */
  lemma EnsembleStep(human: Table, llm: Table, i: nat)
    requires Covers(human, llm) && i < |human.keys|
    ensures human.entries[human.keys[i]].Valid() && RowCovered(human.entries[human.keys[i]], llm.entries[human.keys[i]])
    ensures BuildDict(human.keys[..i + 1], EnsembleRows(human, llm)[..i + 1])
         == BuildDict(human.keys[..i], EnsembleRows(human, llm)[..i])
              .Put(human.keys[i], EnsembleRow(human.entries[human.keys[i]], llm.entries[human.keys[i]]))
  {
    assert human.keys[i] in human.entries;
    BuildDictStep(human.keys, EnsembleRows(human, llm), i);
  }

  /** One ensemble row keeps the human row's keys, in order; each key holds
      the blend of its human and LLM score. */
  lemma EnsembleRowKeys(h: Scores, l: Scores)
    requires h.Valid() && RowCovered(h, l)
    ensures EnsembleRow(h, l).Valid() && EnsembleRow(h, l).keys == h.keys
    ensures forall j :: 0 <= j < |h.keys| ==>
      h.keys[j] in EnsembleRow(h, l).entries
      && EnsembleRow(h, l).entries[h.keys[j]] == EnsembleScore(h.keys[j], h.entries[h.keys[j]], l.entries[h.keys[j]])
  {
    BuildDictDistinct(h.keys, EnsembleScores(h, l));
  }

  /** Blending rows with scores in [1, 5] gives scores in [1, 5]. */
  lemma EnsembleRowWithin(h: Scores, l: Scores)
    requires h.Valid() && RowCovered(h, l) && RowWithin(h) && RowWithin(l)
    ensures RowWithin(EnsembleRow(h, l))
  {
    var scores := EnsembleScores(h, l);
    forall d | d in EnsembleRow(h, l).entries ensures 1.0 <= EnsembleRow(h, l).entries[d] <= 5.0 {
      BuildDictValues(h.keys, scores, d);
      var j :| 0 <= j < |scores| && EnsembleRow(h, l).entries[d] == scores[j];
      assert h.keys[j] in h.entries;
      EnsembleScoreProperties(h.keys[j], h.entries[h.keys[j]], l.entries[h.keys[j]]);
    }
  }

  /** A row blended with itself is the row itself. */
  lemma EnsembleRowSelf(h: Scores)
    requires h.Valid()
    ensures RowCovered(h, h) && EnsembleRow(h, h) == h
  {
    var e := EnsembleRow(h, h);
    EnsembleRowKeys(h, h);
    forall d | d in e.entries ensures d in h.entries && e.entries[d] == h.entries[d] {
      var j :| 0 <= j < |h.keys| && h.keys[j] == d;
      EnsembleScoreProperties(d, h.entries[d], h.entries[d]);
    }
    assert e.entries == h.entries;
  }

  /** The ensemble table lists the human table's paper ids in the same
      order, the `i`-th holding the blend of the `i`-th human row with the
      LLM row of the same paper id. */
  lemma EnsembleRatingsOrder(human: Table, llm: Table)
    requires Covers(human, llm)
    ensures EnsembleRatings(human, llm).Valid() && EnsembleRatings(human, llm).keys == human.keys
    ensures forall i :: 0 <= i < |human.keys| ==>
      EnsembleRatings(human, llm).entries[human.keys[i]] == EnsembleRowAt(human, llm, i)
  {
    var rows := EnsembleRows(human, llm);
    BuildDictDistinct(human.keys, rows);
    forall i | 0 <= i < |human.keys|
      ensures EnsembleRatings(human, llm).entries[human.keys[i]] == EnsembleRowAt(human, llm, i)
    {
      assert rows[i] == EnsembleRowAt(human, llm, i);
    }
  }

  /** The `i`-th ensemble row keeps the dimensions of the `i`-th human row,
      in order, and with scores in [1, 5] on both sides its scores lie in
      [1, 5]. */
  lemma EnsembleRowAtProperties(human: Table, llm: Table, i: nat)
    requires Covers(human, llm) && i < |human.keys|
    ensures EnsembleRowAt(human, llm, i).Valid() && EnsembleRowAt(human, llm, i).keys == RowAt(human, i).keys
    ensures ScoresWithin(human) && ScoresWithin(llm) ==> RowWithin(EnsembleRowAt(human, llm, i))
  {
    var k := human.keys[i];
    assert k in human.entries;
    EnsembleRowKeys(human.entries[k], llm.entries[k]);
    if ScoresWithin(human) && ScoresWithin(llm) {
      EnsembleRowWithin(human.entries[k], llm.entries[k]);
    }
  }

  /** The ensemble table has the human table's paper ids in the same order,
      each row with the human row's dimensions in the same order; when both
      inputs score within [1, 5], so does the ensemble. */
  lemma EnsembleRatingsProperties(human: Table, llm: Table)
    requires Covers(human, llm)
    ensures WellFormed(EnsembleRatings(human, llm)) && EnsembleRatings(human, llm).keys == human.keys
    ensures forall i :: 0 <= i < |human.keys| ==>
      EnsembleRatings(human, llm).entries[human.keys[i]].keys == human.entries[human.keys[i]].keys
    ensures ScoresWithin(human) && ScoresWithin(llm) ==> ScoresWithin(EnsembleRatings(human, llm))
  {
    var rows := EnsembleRows(human, llm);
    var within := ScoresWithin(human) && ScoresWithin(llm);
    forall i | 0 <= i < |human.keys|
      ensures rows[i].Valid() && rows[i].keys == human.entries[human.keys[i]].keys
      ensures within ==> RowWithin(rows[i])
    {
      assert rows[i] == EnsembleRowAt(human, llm, i);
      EnsembleRowAtProperties(human, llm, i);
    }
    EnsembleRatingsOrder(human, llm);
    BuildDictValid(human.keys, rows);
    if within {
      TableFromRows(human.keys, rows);
    } else {
      forall k | k in EnsembleRatings(human, llm).entries ensures EnsembleRatings(human, llm).entries[k].Valid() {
        BuildDictValues(human.keys, rows, k);
      }
    }
  }

  // ---------------------------------------------------------------------------
  // H3 of experiment.py

  /** The outcome of a numpy float64 division: division by zero gives an
      infinity of the dividend's sign, or NaN for 0 / 0, instead of an error. */
  datatype FloatQuotient = Finite(value: real) | PosInf | NegInf | NaN

  function FloatDivide(a: real, b: real): (q: FloatQuotient)
    ensures q.Finite? <==> b != 0.0
    ensures q.Finite? ==> q.value * b == a
  {
    if b != 0.0 then Finite(a / b)
    else if a > 0.0 then PosInf
    else if a < 0.0 then NegInf
    else NaN
  }

  /** `q > t` on float64 values: every comparison with NaN is false. */
  predicate Exceeds(q: FloatQuotient, t: real) {
    match q
    case Finite(v) => v > t
    case PosInf => true
    case NegInf => false
    case NaN => false
  }

  /** `q * 100`. */
  function Percent(q: FloatQuotient): FloatQuotient {
    match q
    case Finite(v) => Finite(v * 100.0)
    case _ => q
  }

  datatype EnsembleVerdict = EnsembleVerdict(
    hypothesis: string, individualBest: real, ensemblePerformance: real,
    improvementPercent: FloatQuotient, validated: bool)
  datatype EnsembleValidation = EnsembleValidation(h1: Verdict, h2: Verdict, h3: EnsembleVerdict)

  const H3EnsembleText := "Ensemble outperforms individual by >15%"

  /** The H3 entry: the relative improvement of the ensemble mean over the
      best model average, validated above 0.15. */
  function H3Verdict(individualBest: real, ensembleMean: real): (v: EnsembleVerdict)
    ensures v.individualBest == individualBest && v.ensemblePerformance == ensembleMean
  {
    var improvement := FloatDivide(ensembleMean - individualBest, individualBest);
    EnsembleVerdict(H3EnsembleText, individualBest, ensembleMean, Percent(improvement), Exceeds(improvement, 0.15))
  }

  /** With a positive best, H3 holds exactly when the ensemble mean exceeds
      1.15 times the best; with a negative best, exactly when it is below
      1.15 times the best; with a best of exactly 0 the improvement is not a
      finite number and H3 holds exactly when the ensemble mean is positive. */
  lemma H3Rule(individualBest: real, ensembleMean: real)
    ensures individualBest > 0.0 ==>
      (H3Verdict(individualBest, ensembleMean).validated <==> ensembleMean > 1.15 * individualBest)
    ensures individualBest < 0.0 ==>
      (H3Verdict(individualBest, ensembleMean).validated <==> ensembleMean < 1.15 * individualBest)
    ensures individualBest == 0.0 ==>
      !H3Verdict(individualBest, ensembleMean).improvementPercent.Finite?
      && (H3Verdict(individualBest, ensembleMean).validated <==> ensembleMean > 0.0)
  {
    var d := ensembleMean - individualBest;
    if individualBest != 0.0 {
      var q := d / individualBest;
      assert q * individualBest == d;
      assert H3Verdict(individualBest, ensembleMean).validated == (q > 0.15);
      if individualBest > 0.0 {
        ScaledAbove(q, individualBest);
      } else {
        ScaledBelow(q, individualBest);
        assert q > 0.15 <==> d < 0.15 * individualBest;
      }
    }
  }

  lemma ScaledAbove(q: real, b: real)
    requires b > 0.0
    ensures q > 0.15 <==> q * b > 0.15 * b
  {
    if q > 0.15 {
      assert (q - 0.15) * b > 0.0;
      assert (q - 0.15) * b == q * b - 0.15 * b;
    } else {
      assert (0.15 - q) * b >= 0.0;
      assert (0.15 - q) * b == 0.15 * b - q * b;
    }
  }

  lemma ScaledBelow(q: real, b: real)
    requires b < 0.0
    ensures q > 0.15 <==> q * b < 0.15 * b
  {
    if q > 0.15 {
      assert (q - 0.15) * (-b) > 0.0;
      assert (q - 0.15) * (-b) == 0.15 * b - q * b;
    } else {
      assert (0.15 - q) * (-b) >= 0.0;
      assert (0.15 - q) * (-b) == q * b - 0.15 * b;
    }
  }

  /** The mean correlation of the ensemble over its dimensions. */
  function EnsembleMean(ensemble: Dict<DimStats>): real
    requires StatsComplete(ensemble)
  {
    ModelAverage(ensemble)
  }

  /** The dictionary the ensemble `validate_hypotheses` returns: H1 and H2 as
      in simple_experiment.py, H3 from the best model average and the
      ensemble mean. */
  function EnsembleValidationOf(results: Results, ensemble: Dict<DimStats>): EnsembleValidation
    requires Complete(results) && StatsComplete(ensemble)
  {
    var averages := Averages(results);
    EnsembleValidation(H1Verdict(results), H2Verdict(results),
      H3Verdict(averages[FirstMaxIndex(averages)], EnsembleMean(ensemble)))
  }

  /** `validate_hypotheses(llm_results, ensemble_results)` of experiment.py. */
  method ValidateEnsembleHypotheses(results: Results, ensemble: Dict<DimStats>) returns (v: EnsembleValidation)
    requires Complete(results) && StatsComplete(ensemble)
    ensures v == EnsembleValidationOf(results, ensemble)
  {
    var h1, h2 := ValidateStructuredAndSubjective(results);
    var averages := ModelAverages(results);
    var individualBest := averages[FirstMaxIndex(averages)];
    assert "methodology" in ensemble.keys;
    var ensembleMean := Sum(CorrelationsOf(ensemble, ensemble.keys)) / (|ensemble.keys| as real);
    var improvement := FloatDivide(ensembleMean - individualBest, individualBest);
    v := EnsembleValidation(h1, h2,
      EnsembleVerdict(H3EnsembleText, individualBest, ensembleMean, Percent(improvement), Exceeds(improvement, 0.15)));
  }

  /** `individual_best` is at least every model's average and is the
      average of some model. */
  lemma IndividualBestProperties(results: Results, ensemble: Dict<DimStats>)
    requires Complete(results) && StatsComplete(ensemble)
    ensures forall m :: m in results.entries ==>
      ModelAverage(results.entries[m]) <= EnsembleValidationOf(results, ensemble).h3.individualBest
    ensures exists m :: (m in results.entries
      && ModelAverage(results.entries[m]) == EnsembleValidationOf(results, ensemble).h3.individualBest)
  {
    var a := Averages(results);
    var i := FirstMaxIndex(a);
    forall m | m in results.entries ensures ModelAverage(results.entries[m]) <= a[i] {
      var j :| 0 <= j < |results.keys| && results.keys[j] == m;
      assert a[j] == ModelAverage(results.entries[m]);
    }
    assert results.keys[i] in results.entries;
  }
}
