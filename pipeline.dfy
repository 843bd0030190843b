/** The `run_experiment` drivers: the rating pipeline of simple_experiment.py
    (50 papers, three models, validation and summary) and the ensemble run
    of experiment.py, whose call `simulate_ensemble_method(human_ratings,
    all_results['gpt-4'])` passes a dimension-keyed statistics dictionary
    where a paper-keyed rating table is expected. */
module Pipeline {
  import opened Dicts
  import opened Statistics
  import opened Papers
  import opened Ratings
  import opened Correlations
  import opened Hypotheses
  import opened Ensemble

  const NPapers: nat := 50
  const LlmModels: seq<string> := ["gpt-4", "claude-3.5-sonnet", "gemini-pro"]

  lemma ModelsDistinct()
    ensures Distinct(LlmModels)
  {
  }

  /** The draws the human ratings consume: six per paper. */
  const HumanDraws: nat := 6 * NPapers
  /** The draws one model's LLM ratings consume: five per paper. */
  const LlmDraws: nat := 5 * NPapers

  // ---------------------------------------------------------------------------
  // Facts linking the stages

  /** Rows that all have five dimensions consume five draws each. */
  lemma {:induction false} DrawsBeforeFive(t: Table, i: nat)
    requires WellFormed(t) && i <= |t.keys|
    requires forall k :: k in t.entries ==> t.entries[k].keys == Dimensions
    ensures DrawsBefore(t, i) == 5 * i
  {
    if i > 0 {
      DrawsBeforeFive(t, i - 1);
      assert t.keys[i - 1] in t.entries;
    }
  }

  /** The human table of papers with distinct ids: one row per paper, every
      row with exactly the five dimensions, scores in [1, 5], and five LLM
      draws per paper. */
  lemma HumanTableShape(papers: seq<Paper>, draws: seq<real>)
    requires 6 * |papers| <= |draws| && Distinct(PaperIds(papers))
    ensures HasDimensions(HumanRatings(papers, draws)) && ScoresWithin(HumanRatings(papers, draws))
    ensures |HumanRatings(papers, draws).keys| == |papers|
    ensures forall k :: k in HumanRatings(papers, draws).entries ==> HumanRatings(papers, draws).entries[k].keys == Dimensions
    ensures DrawsBefore(HumanRatings(papers, draws), |papers|) == 5 * |papers|
  {
    var t := HumanRatings(papers, draws);
    HumanRatingsProperties(papers, draws);
    assert HasDimensions(t);
    DrawsBeforeFive(t, |papers|);
  }

  /** A human table with every dimension in every row and the LLM table
      built from it are comparable, and the LLM table covers it. */
  lemma LlmTableComparable(human: Table, draws: seq<real>)
    requires HasDimensions(human) && 0 < |human.keys| && DrawsBefore(human, |human.keys|) <= |draws|
    ensures Comparable(human, LlmRatings(human, draws)) && Covers(human, LlmRatings(human, draws))
    ensures ScoresWithin(LlmRatings(human, draws))
  {
    var llm := LlmRatings(human, draws);
    LlmRatingsProperties(human, draws);
    forall k | k in llm.entries ensures k in human.entries && RowHasDimensions(llm.entries[k])
      && RowCovered(human.entries[k], llm.entries[k])
    {
      var i :| 0 <= i < |human.keys| && human.keys[i] == k;
      assert human.entries[k].Valid() && llm.entries[k].Valid();
      assert RowHasDimensions(human.entries[k]);
    }
    forall k | k in human.entries ensures k in llm.entries {
      assert k in human.keys;
    }
  }

  /** The statistics of comparable tables hold every dimension, each
      correlation in [-1, 1]. */
  lemma CorrelationTableComplete(human: Table, llm: Table, sqrt: real -> real)
    requires Comparable(human, llm) && IsSqrt(sqrt)
    ensures StatsComplete(CorrelationTable(human, llm, sqrt)) && StatsBounded(CorrelationTable(human, llm, sqrt))
  {
    var stats := AllStats(human, llm, sqrt);
    assert forall j :: 0 <= j < |stats| ==> -1.0 <= stats[j].correlation <= 1.0;
    StatsTableComplete(stats);
  }

  /** A table written under the five dimensions, whose every value has a
      correlation in [-1, 1], is complete and bounded. */
  lemma StatsTableComplete(stats: seq<DimStats>)
    requires |stats| == |Dimensions|
    requires forall j :: 0 <= j < |stats| ==> -1.0 <= stats[j].correlation <= 1.0
    ensures StatsComplete(BuildDict(Dimensions, stats)) && StatsBounded(BuildDict(Dimensions, stats))
  {
    var r := BuildDict(Dimensions, stats);
    BuildDictValid(Dimensions, stats);
    BuildDictKeys(Dimensions, stats);
    forall d | d in r.entries ensures -1.0 <= r.entries[d].correlation <= 1.0 {
      BuildDictValues(Dimensions, stats, d);
    }
  }

  // ---------------------------------------------------------------------------
  // run_experiment of simple_experiment.py

  datatype ExperimentResults = ExperimentResults(
    nPapers: nat, llmResults: Results, validation: Validation, summary: Summary)

  /** What the model loop needs of the human table: every row with every
      dimension, at least one row, five LLM draws per paper, and draws for
      all three models. */
  ghost predicate LoopReady(human: Table, draws: seq<real>, sqrt: real -> real) {
    HasDimensions(human) && 0 < |human.keys| && IsSqrt(sqrt)
    && DrawsBefore(human, |human.keys|) == LlmDraws && 3 * LlmDraws <= |draws|
  }

  /** Where the draws of the `i`-th model start: after 250 per earlier model. */
  function Offset(i: nat): nat {
    LlmDraws * i
  }

  /** The statistics of the LLM ratings one model makes from `draws`. */
  function DrawStats(human: Table, draws: seq<real>, sqrt: real -> real): (s: Dict<DimStats>)
    requires HasDimensions(human) && 0 < |human.keys| && IsSqrt(sqrt)
    requires DrawsBefore(human, |human.keys|) <= |draws|
    ensures StatsComplete(s) && StatsBounded(s) && s.keys == Dimensions
  {
    LlmTableComparable(human, draws);
    CorrelationTableComplete(human, LlmRatings(human, draws), sqrt);
    CorrelationTableKeys(human, LlmRatings(human, draws), sqrt);
    CorrelationTable(human, LlmRatings(human, draws), sqrt)
  }

  /** The statistics `run_experiment` stores for the `k`-th model: those of
      the LLM ratings made from the draws the first `k` models leave. */
  function ModelStats(human: Table, draws: seq<real>, sqrt: real -> real, k: nat): (s: Dict<DimStats>)
    requires LoopReady(human, draws, sqrt) && k < |LlmModels|
    ensures StatsComplete(s) && StatsBounded(s) && s.keys == Dimensions
  {
    OffsetStep(k);
    DrawStats(human, draws[Offset(k)..], sqrt)
  }

  /** The statistics of the three models, in model order. */
  function AllModelStats(human: Table, draws: seq<real>, sqrt: real -> real): (s: seq<Dict<DimStats>>)
    requires LoopReady(human, draws, sqrt)
    ensures |s| == |LlmModels|
  {
    seq(3, k requires 0 <= k < 3 => ModelStats(human, draws, sqrt, k))
  }

  /** The model loop of `run_experiment`: every model's statistics under its
      name, in model order, the first model's ratings kept aside, and the
      draws left. */
  method RunModels(human: Table, draws: seq<real>, sqrt: real -> real)
    returns (allResults: Results, gpt4Ratings: Table, rest: seq<real>)
    requires LoopReady(human, draws, sqrt)
    ensures ModelsRun(human, draws, sqrt, LlmModels, AllModelStats(human, draws, sqrt),
                      |LlmModels|, allResults, gpt4Ratings, rest)
  {
    ghost var all := AllModelStats(human, draws, sqrt);
    allResults := Empty();
    gpt4Ratings := Empty();
    rest := draws;
    var i := 0;
    while i < |LlmModels|
      invariant ModelsRun(human, draws, sqrt, LlmModels, all, i, allResults, gpt4Ratings, rest)
    {
      allResults, gpt4Ratings, rest := RunNextModel(human, draws, sqrt, LlmModels, all, i, allResults, gpt4Ratings, rest);
      i := i + 1;
    }
  }

  /** The state of the model loop after `i` of the `models`: the draws the
      first `i` models leave, their statistics `all` written under their
      names in order, and (once the first model has run) its ratings. */
  ghost predicate ModelsRun(human: Table, draws: seq<real>, sqrt: real -> real,
                            models: seq<string>, all: seq<Dict<DimStats>>,
                            i: nat, allResults: Results, gpt4Ratings: Table, rest: seq<real>)
    requires LoopReady(human, draws, sqrt)
  {
    && i <= |models| == |all|
    && Offset(i) <= |draws| && rest == draws[Offset(i)..]
    && allResults == BuildDict(models[..i], all[..i])
    && (i > 0 ==> gpt4Ratings == LlmRatings(human, draws))
  }

  /** One iteration of the model loop: rate with model `i` from the draws
      left, compute its statistics and store them under its name. */
  method RunNextModel(human: Table, draws: seq<real>, sqrt: real -> real,
                      models: seq<string>, ghost all: seq<Dict<DimStats>>,
                      i: nat, allResults: Results, gpt4Ratings: Table, rest: seq<real>)
    returns (allResults': Results, gpt4Ratings': Table, rest': seq<real>)
    requires LoopReady(human, draws, sqrt) && |models| == |LlmModels|
    requires all == AllModelStats(human, draws, sqrt)
    requires i < |models| && ModelsRun(human, draws, sqrt, models, all, i, allResults, gpt4Ratings, rest)
    ensures ModelsRun(human, draws, sqrt, models, all, i + 1, allResults', gpt4Ratings', rest')
  {
    OffsetStep(i);
    var llmRatings, correlations;
    llmRatings, correlations, rest' := RunModel(human, models[i], rest, sqrt);
    ModelStatsAt(human, draws, sqrt, all, i, rest);
    RestStep(draws, i, rest, rest');
    BuildDictStep(models, all, i);
    if i == 0 {
      assert rest == draws;
      gpt4Ratings' := llmRatings;
    } else {
      gpt4Ratings' := gpt4Ratings;
    }
    allResults' := allResults.Put(models[i], correlations);
  }

  /** Model `i`'s entry of `AllModelStats` is the statistics of the ratings
      made from the draws starting at its offset. */
  lemma ModelStatsAt(human: Table, draws: seq<real>, sqrt: real -> real,
                     all: seq<Dict<DimStats>>, i: nat, rest: seq<real>)
    requires LoopReady(human, draws, sqrt) && all == AllModelStats(human, draws, sqrt)
    requires i < |LlmModels| && Offset(i) <= |draws| && rest == draws[Offset(i)..]
    requires LlmDraws <= |rest|
    ensures all[i] == ModelStats(human, draws, sqrt, i) == DrawStats(human, rest, sqrt)
  {
  }

  /** Dropping one model's 250 draws from what model `i` starts with leaves
      what model `i + 1` starts with. */
  lemma RestStep(draws: seq<real>, i: nat, rest: seq<real>, rest': seq<real>)
    requires i < |LlmModels| && Offset(i) + LlmDraws <= |draws|
    requires rest == draws[Offset(i)..] && LlmDraws <= |rest| && rest' == rest[LlmDraws..]
    ensures Offset(i + 1) <= |draws| && rest' == draws[Offset(i + 1)..]
  {
    OffsetStep(i);
  }

  /** The draws of model `i` end where those of model `i + 1` begin, within
      the draws of all three models. */
  lemma OffsetStep(i: nat)
    requires i < |LlmModels|
    ensures Offset(i + 1) == Offset(i) + LlmDraws <= Offset(3) == 3 * LlmDraws
  {
  }

  /** After all three models: the results hold exactly the three models in
      order, model `k` with the statistics of the ratings made from its own
      draws; the first model's ratings cover the human table; the draws after
      the 750 the models consume are left. */
  lemma ModelsRunComplete(human: Table, draws: seq<real>, sqrt: real -> real,
                          allResults: Results, gpt4Ratings: Table, rest: seq<real>)
    requires LoopReady(human, draws, sqrt)
    requires ModelsRun(human, draws, sqrt, LlmModels, AllModelStats(human, draws, sqrt),
                       |LlmModels|, allResults, gpt4Ratings, rest)
    ensures allResults.keys == LlmModels && Complete(allResults) && Bounded(allResults)
    ensures forall k :: 0 <= k < |LlmModels| ==>
      LlmModels[k] in allResults.entries && allResults.entries[LlmModels[k]] == ModelStats(human, draws, sqrt, k)
    ensures gpt4Ratings == LlmRatings(human, draws) && Covers(human, gpt4Ratings)
    ensures rest == draws[3 * LlmDraws..]
  {
    var all := AllModelStats(human, draws, sqrt);
    AllModelStatsComplete(human, draws, sqrt);
    ModelsDistinct();
    LoopResults(human, draws, sqrt, LlmModels, all, allResults, gpt4Ratings, rest);
    LlmTableComparable(human, draws);
    OffsetStep(2);
  }

  /** Each model's statistics are complete and bounded. */
  lemma AllModelStatsComplete(human: Table, draws: seq<real>, sqrt: real -> real)
    requires LoopReady(human, draws, sqrt)
    ensures forall k :: 0 <= k < |LlmModels| ==> AllModelStats(human, draws, sqrt)[k] == ModelStats(human, draws, sqrt, k)
    ensures forall k :: 0 <= k < |LlmModels| ==>
      StatsComplete(AllModelStats(human, draws, sqrt)[k]) && StatsBounded(AllModelStats(human, draws, sqrt)[k])
  {
  }

  /** The loop state after the last of the `models`, whatever their names
      and statistics: the results hold exactly the models, each with its own
      statistics. */
  lemma LoopResults(human: Table, draws: seq<real>, sqrt: real -> real,
                    models: seq<string>, all: seq<Dict<DimStats>>,
                    allResults: Results, gpt4Ratings: Table, rest: seq<real>)
    requires LoopReady(human, draws, sqrt) && 0 < |models| && Distinct(models)
    requires forall k :: 0 <= k < |all| ==> StatsComplete(all[k]) && StatsBounded(all[k])
    requires ModelsRun(human, draws, sqrt, models, all, |models|, allResults, gpt4Ratings, rest)
    ensures allResults.keys == models && Complete(allResults) && Bounded(allResults)
    ensures forall k :: 0 <= k < |models| ==> models[k] in allResults.entries && allResults.entries[models[k]] == all[k]
  {
    assert models[..|models|] == models && all[..|models|] == all;
    ResultsFromModels(models, all);
  }

  /** Statistics written under distinct model names, each complete and
      bounded, give complete and bounded results holding each under its name. */
  lemma ResultsFromModels(ks: seq<string>, stats: seq<Dict<DimStats>>)
    requires |ks| == |stats| && 0 < |ks| && Distinct(ks)
    requires forall k :: 0 <= k < |stats| ==> StatsComplete(stats[k]) && StatsBounded(stats[k])
    ensures BuildDict(ks, stats).keys == ks && Complete(BuildDict(ks, stats)) && Bounded(BuildDict(ks, stats))
    ensures forall k :: 0 <= k < |ks| ==> ks[k] in BuildDict(ks, stats).entries && BuildDict(ks, stats).entries[ks[k]] == stats[k]
  {
    var r := BuildDict(ks, stats);
    BuildDictDistinct(ks, stats);
    forall m | m in r.entries ensures StatsComplete(r.entries[m]) && StatsBounded(r.entries[m]) {
      BuildDictValues(ks, stats, m);
    }
  }

  /** One iteration of the model loop: the LLM ratings for `model` from the
      next draws and their statistics against the human ratings. */
  method RunModel(human: Table, model: string, draws: seq<real>, sqrt: real -> real)
    returns (llmRatings: Table, correlations: Dict<DimStats>, rest: seq<real>)
    requires HasDimensions(human) && 0 < |human.keys| && IsSqrt(sqrt)
    requires DrawsBefore(human, |human.keys|) <= |draws|
    ensures llmRatings == LlmRatings(human, draws)
    ensures Comparable(human, llmRatings) && Covers(human, llmRatings)
    ensures correlations == CorrelationTable(human, LlmRatings(human, draws), sqrt)
    ensures correlations == DrawStats(human, draws, sqrt)
    ensures StatsComplete(correlations) && StatsBounded(correlations) && correlations.keys == Dimensions
    ensures rest == draws[DrawsBefore(human, |human.keys|)..]
  {
    llmRatings, rest := SimulateLlmRatings(human, model, draws);
    LlmTableComparable(human, draws);
    correlations := CalculateCorrelations(human, llmRatings, sqrt);
    CorrelationTableComplete(human, llmRatings, sqrt);
    CorrelationTableKeys(human, llmRatings, sqrt);
  }

  /** The validation and the summary of complete results with every
      correlation in [-1, 1]: the best model is one of the models and every
      reported mean correlation lies in [-1, 1]. */
  method ValidateAndSummarize(allResults: Results) returns (validation: Validation, summary: Summary)
    requires Complete(allResults) && Bounded(allResults)
    ensures validation == ValidationOf(allResults)
    ensures validation.h3.modelPerformances.Valid() && |validation.h3.modelPerformances.keys| > 0
    ensures summary == GenerateSummary(allResults, validation)
    ensures summary.bestModel in allResults.entries
    ensures -1.0 <= validation.h1.result <= 1.0 && -1.0 <= validation.h2.result <= 1.0
    ensures -1.0 <= validation.h3.bestIndividualPerformance <= 1.0
  {
    validation := ValidateHypotheses(allResults);
    ValidationBounded(allResults);
    SummaryProperties(allResults);
    summary := GenerateSummary(allResults, validation);
  }

  /** The papers and their human ratings, with the draws left over: the
      table is the human table of the generated papers, with one row per
      paper, every row with the five dimensions, and 250 draws consumed by
      each model's LLM ratings. */
  method GenerateHumanTable(picks: seq<Pick>, draws: seq<real>) returns (human: Table, rest: seq<real>)
    requires NPapers <= |picks| && forall i :: 0 <= i < NPapers ==> ValidPick(picks[i])
    requires HumanDraws <= |draws|
    ensures human == HumanRatings(PaperList(NPapers, picks), draws)
    ensures rest == draws[HumanDraws..]
    ensures HasDimensions(human) && ScoresWithin(human) && |human.keys| == NPapers
    ensures DrawsBefore(human, |human.keys|) == LlmDraws
  {
    var papers := GeneratePaperMetadata(NPapers, picks);
    assert Distinct(PaperIds(papers));
    human, rest := SimulateHumanExpertRatings(papers, draws);
    HumanTableShape(papers, draws);
  }

  /** `run_experiment()`: 50 papers, their human ratings, and for each of
      the three models its LLM ratings and statistics; then the validation
      and the summary. It needs six draws per paper for the human ratings
      and five per paper for each model. Model `k` holds the statistics of
      the ratings made from its own draws; the summary's best model is one
      of the three, and every reported mean correlation lies in [-1, 1]. */
  method RunExperiment(picks: seq<Pick>, draws: seq<real>, sqrt: real -> real)
    returns (r: ExperimentResults, ghost human: Table)
    requires NPapers <= |picks| && forall i :: 0 <= i < NPapers ==> ValidPick(picks[i])
    requires HumanDraws + 3 * LlmDraws <= |draws|
    requires IsSqrt(sqrt)
    ensures human == HumanRatings(PaperList(NPapers, picks), draws)
    ensures LoopReady(human, draws[HumanDraws..], sqrt)
    ensures r.nPapers == NPapers
    ensures r.llmResults.keys == LlmModels && Complete(r.llmResults) && Bounded(r.llmResults)
    ensures forall k :: 0 <= k < |LlmModels| ==>
      r.llmResults.entries[LlmModels[k]] == ModelStats(human, draws[HumanDraws..], sqrt, k)
    ensures r.validation == ValidationOf(r.llmResults)
    ensures r.validation.h3.modelPerformances.Valid() && |r.validation.h3.modelPerformances.keys| > 0
    ensures r.summary == GenerateSummary(r.llmResults, r.validation)
    ensures r.summary.bestModel in LlmModels
    ensures -1.0 <= r.validation.h1.result <= 1.0 && -1.0 <= r.validation.h2.result <= 1.0
    ensures -1.0 <= r.validation.h3.bestIndividualPerformance <= 1.0
  {
    var table, rest := GenerateHumanTable(picks, draws);
    human := table;
    var allResults, gpt4Ratings, left := RunModels(table, rest, sqrt);
    ModelsRunComplete(table, rest, sqrt, allResults, gpt4Ratings, left);
    var validation, summary := ValidateAndSummarize(allResults);
    r := ExperimentResults(NPapers, allResults, validation, summary);
  }

  // ---------------------------------------------------------------------------
  // The ensemble call of experiment.py

  const StatKeys: seq<string> := ["correlation", "p_value", "mae", "human_mean", "llm_mean"]

  /** The statistics of one dimension as the dictionary the script stores. */
  function StatsRecord(s: DimStats): (d: Scores)
    ensures d.Valid() && d.keys == StatKeys
  {
    var d := BuildDict(StatKeys, [s.correlation, s.pValue, s.mae, s.humanMean, s.llmMean]);
    assert Distinct(StatKeys);
    BuildDictDistinct(StatKeys, [s.correlation, s.pValue, s.mae, s.humanMean, s.llmMean]);
    d
  }

  /** A model's statistics, read as a two-level dictionary of numbers: keyed
      by dimension, then by statistic name. */
  function AsTable(results: Dict<DimStats>): (t: Table)
    ensures t.keys == results.keys
    ensures forall k :: k in t.entries <==> k in results.entries
  {
    Dict(results.keys, map k | k in results.entries :: StatsRecord(results.entries[k]))
  }

  /** As written, experiment.py passes the gpt-4 statistics, keyed by the five
      dimension names, as the LLM ratings. The human table of generated papers
      is keyed by `paper_000`, `paper_001`, ...: `paper_000` is not a
      dimension name, so the precondition of `simulate_ensemble_method`
      fails (a `KeyError` on the first paper). */
  lemma GptStatisticsDoNotCoverPapers(papers: seq<Paper>, draws: seq<real>, gpt4: Dict<DimStats>)
    requires 6 * |papers| <= |draws| && 0 < |papers| && papers[0].paperId == PaperId(0)
    requires forall k :: k in gpt4.entries ==> k in Dimensions
    ensures !Covers(HumanRatings(papers, draws), AsTable(gpt4))
  {
    var human := HumanRatings(papers, draws);
    var id := PaperId(0);
    BuildDictKeys(PaperIds(papers), HumanRows(papers, draws));
    assert PaperIds(papers)[0] == id;
    assert id in human.entries;
    PaperIdNotDimension(0);
    assert id !in AsTable(gpt4).entries;
  }

  /** No paper id is a dimension name: every id starts with `p`, no
      dimension does. */
  lemma PaperIdNotDimension(i: nat)
    ensures PaperId(i) !in Dimensions
  {
    var id := PaperId(i);
    PaperIdShape(i);
    assert id[0] == id[..6][0] == 'p';
    assert "methodology"[0] == 'm' && "reproducibility"[0] == 'r' && "novelty"[0] == 'n';
    assert "significance"[0] == 's' && "impact"[0] == 'i';
  }

  datatype EnsembleExperimentResults = EnsembleExperimentResults(
    nPapers: nat, llmResults: Results, ensembleResults: Dict<DimStats>, validation: EnsembleValidation)

  /** `run_experiment()` of experiment.py, with the ensemble built from the
      gpt-4 LLM ratings (the table the blend is written for) in place of the
      gpt-4 statistics. The model statistics are those of `run_experiment`
      of simple_experiment.py; the ensemble statistics are those of the
      blend of the human table with the gpt-4 ratings; the validation is the
      ensemble rule applied to both. */
  method RunEnsembleExperiment(picks: seq<Pick>, draws: seq<real>, sqrt: real -> real)
    returns (r: EnsembleExperimentResults, ghost human: Table, ghost gpt4Ratings: Table)
    requires NPapers <= |picks| && forall i :: 0 <= i < NPapers ==> ValidPick(picks[i])
    requires HumanDraws + 3 * LlmDraws <= |draws|
    requires IsSqrt(sqrt)
    ensures human == HumanRatings(PaperList(NPapers, picks), draws)
    ensures LoopReady(human, draws[HumanDraws..], sqrt)
    ensures gpt4Ratings == LlmRatings(human, draws[HumanDraws..]) && Covers(human, gpt4Ratings)
    ensures r.nPapers == NPapers
    ensures Complete(r.llmResults) && r.llmResults.keys == LlmModels
    ensures forall k :: 0 <= k < |LlmModels| ==>
      r.llmResults.entries[LlmModels[k]] == ModelStats(human, draws[HumanDraws..], sqrt, k)
    ensures Comparable(human, EnsembleRatings(human, gpt4Ratings))
    ensures r.ensembleResults == CorrelationTable(human, EnsembleRatings(human, gpt4Ratings), sqrt)
    ensures StatsComplete(r.ensembleResults) && r.ensembleResults.keys == Dimensions
    ensures r.validation == EnsembleValidationOf(r.llmResults, r.ensembleResults)
  {
    var table, rest := GenerateHumanTable(picks, draws);
    human := table;
    var allResults, gpt4, left := RunModels(table, rest, sqrt);
    ModelsRunComplete(table, rest, sqrt, allResults, gpt4, left);
    gpt4Ratings := gpt4;
    var ensembleResults, validation := RunEnsemble(table, gpt4, allResults, sqrt);
    r := EnsembleExperimentResults(NPapers, allResults, ensembleResults, validation);
  }

  /** The ensemble part of `run_experiment()` of experiment.py: blend the
      human ratings with an LLM table covering them, compute the ensemble
      statistics and validate the hypotheses against the model statistics. */
  method RunEnsemble(human: Table, llm: Table, allResults: Results, sqrt: real -> real)
    returns (ensembleResults: Dict<DimStats>, validation: EnsembleValidation)
    requires HasDimensions(human) && 0 < |human.keys| && Covers(human, llm) && IsSqrt(sqrt)
    requires Complete(allResults)
    ensures Comparable(human, EnsembleRatings(human, llm))
    ensures ensembleResults == CorrelationTable(human, EnsembleRatings(human, llm), sqrt)
    ensures StatsComplete(ensembleResults) && ensembleResults.keys == Dimensions
    ensures validation == EnsembleValidationOf(allResults, ensembleResults)
  {
    var ensembleRatings := SimulateEnsembleMethod(human, llm);
    EnsembleComparable(human, llm);
    ensembleResults := CalculateCorrelations(human, ensembleRatings, sqrt);
    CorrelationTableComplete(human, ensembleRatings, sqrt);
    CorrelationTableKeys(human, ensembleRatings, sqrt);
    validation := ValidateEnsembleHypotheses(allResults, ensembleResults);
  }

  /** The blend of a table with every dimension in every row is comparable
      with it. */
  lemma EnsembleComparable(human: Table, llm: Table)
    requires HasDimensions(human) && 0 < |human.keys| && Covers(human, llm)
    ensures Comparable(human, EnsembleRatings(human, llm))
  {
    var e := EnsembleRatings(human, llm);
    EnsembleRatingsProperties(human, llm);
    forall k | k in e.entries ensures RowHasDimensions(e.entries[k]) {
      var i :| 0 <= i < |human.keys| && human.keys[i] == k;
      assert human.entries[k].Valid() && RowHasDimensions(human.entries[k]);
    }
  }
}
