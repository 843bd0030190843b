# LLM-vs-human judge experiment, modelled in Dafny

This project models the deterministic core of the `llm_human_judge_001`
experiment scripts. The experiment simulates how well LLM judges agree with
human experts when rating research papers.

- **`simple_experiment.py`**:
  - generates 50 paper records;
  - simulates one human expert rating per paper and dimension;
  - simulates the ratings of three LLM judges (`gpt-4`, `claude-3.5-sonnet`, `gemini-pro`) as noisy copies of the human ones;
  - computes, per dimension, the Pearson correlation, an approximate p-value, the mean absolute error and the two means;
  - decides hypotheses H1 (structured dimensions correlate above 0.7) and H2 (subjective dimensions stay below 0.5);
  - reports each model's mean correlation and the best model.
- **`experiment.py`** repeats the same pipeline and adds:
  - an ensemble that blends human and LLM scores;
  - a different H3: the ensemble beats the best single model by more than 15%.

The five dimensions are `methodology` and `reproducibility` (structured) and
`novelty`, `significance` and `impact` (subjective). Every score lies on a
1–5 scale.

Modules:

| module | file | contents |
|---|---|---|
| `Dicts` | `dicts.dfy` | Python's insertion-ordered dictionaries. `Dict<V>` holds the iteration order `keys` and the contents `entries`. `Put` is `d[k] = v`. `BuildDict` is the dictionary a loop of writes produces. |
| `Statistics` | `statistics.dfy` | `clip`, sums and means, `pearson_correlation` (including a proof of Cauchy–Schwarz, which bounds the correlation by 1), `mean_absolute_error` |
| `Papers` | `papers.dfy` | `generate_paper_metadata`, including the `paper_{i:03d}` id format and its injectivity |
| `Ratings` | `ratings.dfy` | `simulate_human_expert_ratings` and `simulate_llm_ratings`. Each has a specification function and a method with the source's nested loops. |
| `Correlations` | `correlations.dfy` | `calculate_correlations` |
| `Hypotheses` | `hypotheses.dfy` | `validate_hypotheses` and `generate_summary` of `simple_experiment.py` |
| `Ensemble` | `ensemble.dfy` | `simulate_ensemble_method` and the ensemble `validate_hypotheses` of `experiment.py` |
| `Pipeline` | `pipeline.dfy` | both `run_experiment` functions, and the call-site defect of `experiment.py` |

How the scripts' environment becomes parameters:

- **Randomness.**
  - Each `normal_random(mean, std)` is `mean + std * z`. The standard-normal values `z` arrive as a sequence `draws` and are consumed in the source's order.
  - Each `random.choice` arrives as an index into its fixed list (`Papers.Pick`).
- **Square root.** `math.sqrt` is a parameter `sqrt` that must be exact on non-negative reals (`Statistics.IsSqrt`).
- **Numbers.** The model works over exact reals.

The rating simulators of `experiment.py` (lines 38-87) follow the same steps
as those of `simple_experiment.py`, with numpy in place of the script's own
helpers:
- The noise comes from `np.random.normal(mean, std)` (lines 54, 59, 78 and 82), not `normal_random`. Both are `mean + std * z` for a standard-normal `z`, which is how the model reads every draw.
- The clipping is `np.clip(x, 1, 5)` (lines 55, 61 and 85), not `clip`. On reals both are `Statistics.Clip`.

So the same rating model serves both scripts. `calculate_correlations` of
`experiment.py` differs through its library statistics, listed below.

## Model

| member | source | states |
|---|---|---|
| Dicts.Dict.Put | experiments/llm_human_judge_001/run/simple_experiment.py:67 | Writing `d[k] = v` stores `v` under `k`. A new key goes to the end of the iteration order. An existing key keeps its place. |
| Statistics.Clip | experiments/llm_human_judge_001/run/simple_experiment.py:40-42 | When lo ≤ hi, the result lies in [lo, hi]. A value already in range is returned unchanged. A value below gives lo, a value above gives hi. |
| Statistics.ClipIdempotent | experiments/llm_human_judge_001/run/simple_experiment.py:40-42 | Clipping twice gives the same result as clipping once. |
| Statistics.MeanWithin | experiments/llm_human_judge_001/run/simple_experiment.py:140-141 | The mean of a non-empty list of values in [lo, hi] lies in [lo, hi]. |
| Statistics.MeanAboveIff | experiments/llm_human_judge_001/run/simple_experiment.py:197-199 | A mean exceeds (or falls below) a threshold exactly when the sum exceeds (or falls below) the threshold times the count. |
| Statistics.CauchySchwarz | experiments/llm_human_judge_001/run/simple_experiment.py:104-106 | For the centred sequences, the square of the cross sum `num` is at most `sum_sq_x * sum_sq_y`, and both sums of squares are non-negative. |
| Statistics.PearsonCorrelation | experiments/llm_human_judge_001/run/simple_experiment.py:95-118 | The correlation lies in [-1, 1]. The p-value is 1, 0.05 or 0.1. |
| Statistics.PearsonDegenerateIff | experiments/llm_human_judge_001/run/simple_experiment.py:97-110 | The result is exactly (0, 1) if and only if n = 0 or either sum of squares is zero. |
| Statistics.PearsonConstantInput | experiments/llm_human_judge_001/run/simple_experiment.py:101-110 | A constant `x`, or a constant `y` of the same length, gives exactly (0, 1). |
| Statistics.TStatWellDefined | experiments/llm_human_judge_001/run/simple_experiment.py:108-115 | Past the early returns, n ≥ 2. The divisor `1 - r² + 1e-10` is positive, so the argument of the t-statistic's square root is non-negative. |
| Statistics.ApproxPValue | experiments/llm_human_judge_001/run/simple_experiment.py:115-116 | For a correlation in [-1, 1], the p-value is 0.05 or 0.1. |
| Statistics.ApproxPValueRule | experiments/llm_human_judge_001/run/simple_experiment.py:115-116 | The p-value is 0.05 exactly when r²·(n − 2) > 4·(1 − r² + 1e-10), which is `abs(t_stat) > 2` with the square root removed. |
| Statistics.PearsonPValueRule | experiments/llm_human_judge_001/run/simple_experiment.py:108-118 | For non-degenerate input, the p-value is 0.05 or 0.1. It is 0.05 exactly under the rule above, applied to the computed r and n. |
| Statistics.MeanAbsoluteErrorProperties | experiments/llm_human_judge_001/run/simple_experiment.py:120-122 | The error is ≥ 0. It is 0 exactly when the zipped prefixes agree, and for equal lengths exactly when the sequences are equal. It is ≤ 4 when all scores lie in [1, 5]. |
| Papers.ZeroPad | experiments/llm_human_judge_001/run/simple_experiment.py:23 | A numeral shorter than the width gains leading zeros up to the width and keeps its digits as a suffix. A numeral at least as wide is unchanged. |
| Papers.Decimal | experiments/llm_human_judge_001/run/simple_experiment.py:23-24 | A decimal numeral is a non-empty string of digits. |
| Papers.ParseDecimalOfDecimal | experiments/llm_human_judge_001/run/simple_experiment.py:23-24 | Reading a numeral back gives the number it was formatted from. |
| Papers.ParsePadded | experiments/llm_human_judge_001/run/simple_experiment.py:23 | The zero-padded numeral of `i` is all digits and still denotes `i`. |
| Papers.PaperIdInjective | experiments/llm_human_judge_001/run/simple_experiment.py:21-23 | Two positions with the same id are the same position. |
| Papers.PaperIdShape | experiments/llm_human_judge_001/run/simple_experiment.py:23 | Every id is `paper_` followed by at least three digits. |
| Papers.GeneratePaperMetadata | experiments/llm_human_judge_001/run/simple_experiment.py:15-31 | Returns exactly `n` papers in order. Paper `i` has id `paper_` + `i` padded to three digits, a title naming `i + 1`, and venue, topic and year from the fixed lists. Ids are pairwise distinct. |
| Ratings.BaseQuality | experiments/llm_human_judge_001/run/simple_experiment.py:59-61 | The clipped base quality lies in [1, 5]. |
| Ratings.HumanScore | experiments/llm_human_judge_001/run/simple_experiment.py:63-67 | Every clipped human score lies in [1, 5]. |
| Ratings.DimensionScores | experiments/llm_human_judge_001/run/simple_experiment.py:63-67 | One paper gets five scores. Score `j` is built from the base and the `j`-th noise draw. All five lie in [1, 5]. |
| Ratings.RateDimensions | experiments/llm_human_judge_001/run/simple_experiment.py:63-67 | The inner loop writes the five dimensions in order, each from its own draw. It consumes exactly five draws. |
| Ratings.SimulateHumanExpertRatings | experiments/llm_human_judge_001/run/simple_experiment.py:44-69 | The loop builds exactly the specified table and leaves the draws after the first six per paper: one base draw and five noise draws per paper, in paper order. |
| Ratings.HumanRowScores | experiments/llm_human_judge_001/run/simple_experiment.py:59-67 | A paper's row has exactly the five dimensions, in order. Dimension `j` scores clip(clip(3 + 0.8·z₀) + 0.3·z₁₊ⱼ). |
| Ratings.HumanRowWithin | experiments/llm_human_judge_001/run/simple_experiment.py:59-67 | Every score of a human row lies in [1, 5]. |
| Ratings.HumanRatingsRows | experiments/llm_human_judge_001/run/simple_experiment.py:44-69 | Every row of the human table is a well-formed dictionary with exactly the five dimensions and scores in [1, 5]. |
| Ratings.HumanRatingsProperties | experiments/llm_human_judge_001/run/simple_experiment.py:44-69 | The table's keys are exactly the paper ids. Every row has the five dimensions, with scores in [1, 5]. For distinct ids, the ids appear in paper order and paper `i` holds the row from draws `6i..6i+5`. |
| Ratings.LlmScore | experiments/llm_human_judge_001/run/simple_experiment.py:81-91 | Every clipped LLM score lies in [1, 5]. |
| Ratings.LlmScores | experiments/llm_human_judge_001/run/simple_experiment.py:81-91 | A paper's LLM scores, one per human key in key order. All lie in [1, 5]. |
| Ratings.RateLikeHuman | experiments/llm_human_judge_001/run/simple_experiment.py:81-91 | The inner loop yields the specified LLM row and consumes one draw per human key. |
| Ratings.SimulateLlmRatings | experiments/llm_human_judge_001/run/simple_experiment.py:71-93 | The loop builds exactly the specified table, a function of the human table and the draws only, so the model name has no effect. It consumes one draw per (paper, dimension) and leaves the rest. |
| Ratings.LlmRowKeys | experiments/llm_human_judge_001/run/simple_experiment.py:78-91 | An LLM row keeps the human row's keys in the same order. |
| Ratings.LlmRowScores | experiments/llm_human_judge_001/run/simple_experiment.py:81-91 | Key `j` of the LLM row scores clip(human + σ·z) with its own draw. σ is 0.4 for structured dimensions and 1.2 otherwise. |
| Ratings.LlmRowWithin | experiments/llm_human_judge_001/run/simple_experiment.py:81-91 | Every score of an LLM row lies in [1, 5]. |
| Ratings.LlmRatingsOrder | experiments/llm_human_judge_001/run/simple_experiment.py:78-91 | The LLM table lists the human paper ids in the same order. The `i`-th holds the LLM row made from the `i`-th human row. |
| Ratings.LlmRowAtProperties | experiments/llm_human_judge_001/run/simple_experiment.py:78-91 | The `i`-th LLM row keeps the human row's dimensions, in order, with scores in [1, 5]. |
| Ratings.LlmRatingsProperties | experiments/llm_human_judge_001/run/simple_experiment.py:71-93 | The LLM table keeps the human table's paper ids, in order, and each row's dimension keys. Every score lies in [1, 5]. |
| Correlations.DimensionStats | experiments/llm_human_judge_001/run/simple_experiment.py:129-142 | One dimension's statistics: a correlation in [-1, 1], a p-value of 1, 0.05 or 0.1, and a non-negative error. |
| Correlations.CalculateCorrelations | experiments/llm_human_judge_001/run/simple_experiment.py:124-144 | The loop builds exactly the specified dictionary of the five dimensions' statistics. |
| Correlations.ColumnWithin | experiments/llm_human_judge_001/run/simple_experiment.py:130-131 | A score column of a table with scores in [1, 5] lies in [1, 5]. |
| Correlations.DimensionStatsProperties | experiments/llm_human_judge_001/run/simple_experiment.py:133-142 | The error is 0 exactly when the columns agree at every human position. With scores in [1, 5], both means lie in [1, 5] and the error is at most 4. |
| Correlations.CorrelationTableKeys | experiments/llm_human_judge_001/run/simple_experiment.py:124-144 | The result has exactly the five dimension keys, in order, each with its own statistics. |
| Hypotheses.AppendCorrelations | experiments/llm_human_judge_001/run/simple_experiment.py:194-195 | The inner loop appends one model's correlations on the given dimensions, in order. |
| Hypotheses.CollectCorrelations | experiments/llm_human_judge_001/run/simple_experiment.py:189-195 | The nested loop yields every model's correlations on the given dimensions, model by model. |
| Hypotheses.CollectedBounded | experiments/llm_human_judge_001/run/simple_experiment.py:193-195 | When every correlation lies in [-1, 1], so does every collected one. |
| Hypotheses.ModelAverages | experiments/llm_human_judge_001/run/simple_experiment.py:220-223 | The loop yields each model's mean correlation over its dimensions, in model order. |
| Hypotheses.FirstMaxIndex | experiments/llm_human_judge_001/run/simple_experiment.py:225 | Python's `max` picks a maximum, and the first one: every earlier value is strictly smaller. |
| Hypotheses.ModelAverageBounded | experiments/llm_human_judge_001/run/simple_experiment.py:222 | A mean of correlations in [-1, 1] lies in [-1, 1]. |
| Hypotheses.ValidateStructuredAndSubjective | experiments/llm_human_judge_001/run/simple_experiment.py:189-217 | Computes exactly the specified H1 and H2 entries: the means of the collected correlations against 0.7 and 0.5. |
| Hypotheses.ValidateHypotheses | experiments/llm_human_judge_001/run/simple_experiment.py:185-233 | Computes exactly the specified validation record. It demands at least one model, because the source divides by the number of collected correlations. |
| Hypotheses.H1Rule | experiments/llm_human_judge_001/run/simple_experiment.py:197-202 | H1 is validated if and only if the structured correlations, two per model, sum to more than 1.4 × the number of models. |
| Hypotheses.H2Rule | experiments/llm_human_judge_001/run/simple_experiment.py:212-217 | H2 is validated if and only if the subjective correlations, three per model, sum to less than 1.5 × the number of models. |
| Hypotheses.ValidationBounded | experiments/llm_human_judge_001/run/simple_experiment.py:185-233 | With correlations in [-1, 1], the H1 and H2 means and the best individual performance lie in [-1, 1]. |
| Hypotheses.ComparisonProperties | experiments/llm_human_judge_001/run/simple_experiment.py:219-231 | `model_performances` holds exactly the models, in order, each with its own average. The best individual performance is ≥ every entry and equals one of them. |
| Hypotheses.GenerateSummary | experiments/llm_human_judge_001/run/simple_experiment.py:235-244 | The best model is a key of `model_performances` whose value is maximal. Every model before it has a strictly smaller value. |
| Hypotheses.SummaryProperties | experiments/llm_human_judge_001/run/simple_experiment.py:235-244 | The summary copies the H1 and H2 flags and means. The best model is a model whose average is the best individual performance. |
| Ensemble.HumanWeight | experiments/llm_human_judge_001/run/experiment.py:122-125 | The human weight lies strictly between 0 and 1. |
| Ensemble.EnsembleScore | experiments/llm_human_judge_001/run/experiment.py:127-128 | A blended score lies between the human and the LLM score. |
| Ensemble.EnsembleScoreProperties | experiments/llm_human_judge_001/run/experiment.py:118-128 | Equal scores blend to themselves. Scores in [1, 5] blend into [1, 5]. The blend is 0.7·human + 0.3·llm on structured dimensions and 0.9·human + 0.1·llm otherwise. |
| Ensemble.BlendRow | experiments/llm_human_judge_001/run/experiment.py:117-129 | The inner loop yields exactly the specified blended row. |
| Ensemble.SimulateEnsembleMethod | experiments/llm_human_judge_001/run/experiment.py:111-131 | The loop yields exactly the specified blended table. It demands that every (paper id, dimension) of the human table exists in the LLM table. |
| Ensemble.EnsembleRowKeys | experiments/llm_human_judge_001/run/experiment.py:117-129 | A blended row keeps the human row's keys, in order. Each key holds the blend of its two scores. |
| Ensemble.EnsembleRowWithin | experiments/llm_human_judge_001/run/experiment.py:126-129 | Rows with scores in [1, 5] blend to a row with scores in [1, 5]. |
| Ensemble.EnsembleRowSelf | experiments/llm_human_judge_001/run/experiment.py:126-129 | Blending a row with itself gives the row back. |
| Ensemble.EnsembleRatingsOrder | experiments/llm_human_judge_001/run/experiment.py:114-131 | The ensemble table lists the human paper ids in order. The `i`-th holds the blend of the `i`-th rows. |
| Ensemble.EnsembleRowAtProperties | experiments/llm_human_judge_001/run/experiment.py:117-129 | The `i`-th blended row keeps the human row's keys. It lies in [1, 5] when both tables do. |
| Ensemble.EnsembleRatingsProperties | experiments/llm_human_judge_001/run/experiment.py:111-131 | The ensemble table keeps the human paper ids and each row's dimension keys. It lies in [1, 5] when both inputs do. |
| Ensemble.FloatDivide | experiments/llm_human_judge_001/run/experiment.py:223 | A float64 quotient is finite exactly when the divisor is non-zero, and then it times the divisor gives the dividend. Division by zero gives an infinity or NaN, not an error. |
| Ensemble.H3Verdict | experiments/llm_human_judge_001/run/experiment.py:223-230 | The H3 entry reports the best individual performance and the ensemble mean it was given. |
| Ensemble.H3Rule | experiments/llm_human_judge_001/run/experiment.py:223-230 | With a positive best, H3 holds if and only if ensemble > 1.15·best. With a negative best, if and only if ensemble < 1.15·best. With a best of 0, the improvement is not finite and H3 holds exactly when the ensemble mean is positive. |
| Ensemble.ValidateEnsembleHypotheses | experiments/llm_human_judge_001/run/experiment.py:183-232 | Computes exactly the specified record: H1 and H2 as in `simple_experiment.py`, and H3 from the best model average and the ensemble mean. |
| Ensemble.IndividualBestProperties | experiments/llm_human_judge_001/run/experiment.py:219-220 | `individual_best` is ≥ every model's average and equals one of them. |
| Pipeline.HumanTableShape | experiments/llm_human_judge_001/run/simple_experiment.py:152-153 | The human table of the generated papers has one row per paper, each with exactly the five dimensions in [1, 5]. The LLM simulator consumes 5 draws per paper from it. |
| Pipeline.LlmTableComparable | experiments/llm_human_judge_001/run/simple_experiment.py:160-161 | An LLM table built from such a human table can be passed to `calculate_correlations` and to `simulate_ensemble_method`. Its scores lie in [1, 5]. |
| Pipeline.CorrelationTableComplete | experiments/llm_human_judge_001/run/simple_experiment.py:161 | The statistics of any comparable pair hold every dimension, with correlations in [-1, 1]. |
| Pipeline.GenerateHumanTable | experiments/llm_human_judge_001/run/simple_experiment.py:152-153 | The human table is exactly the specified human ratings of the 50 generated papers. It has 50 rows with all five dimensions in [1, 5]. It consumes the first 300 draws, and the LLM simulator then needs 5 draws per paper. |
| Pipeline.RunModel | experiments/llm_human_judge_001/run/simple_experiment.py:160-162 | One model's LLM table is the specified one. Its statistics are exactly the correlation table of the human and that LLM table, complete and bounded. The draws after it are left. |
| Pipeline.RunNextModel | experiments/llm_human_judge_001/run/simple_experiment.py:159-162 | One iteration takes the loop from `i` to `i + 1` models. It stores model `i`'s statistics, which are those of the LLM table made from its own 250 draws, under its name. The draws after those are left. After the first model, its LLM table is kept as the gpt-4 ratings. |
| Pipeline.RunModels | experiments/llm_human_judge_001/run/simple_experiment.py:156-168 | After the model loop, the results are the three models' statistics written under their names in order. Model `k`'s statistics are those of the LLM table made from the draws starting at 250·k. The kept gpt-4 ratings are the LLM table of the first draws. The draws after the first 750 are left. |
| Pipeline.ModelsRunComplete | experiments/llm_human_judge_001/run/simple_experiment.py:156-163 | After the loop, the results are keyed by exactly the three models in order, complete and bounded. Each model's entry is the statistics of the LLM table made from its own draws. The gpt-4 ratings are the first model's LLM table and cover the human table. Exactly 750 draws are consumed. |
| Pipeline.ValidateAndSummarize | experiments/llm_human_judge_001/run/simple_experiment.py:170-181 | The validation and summary are the specified ones. The best model is one of the models, and the H1/H2 means and the best performance lie in [-1, 1]. |
| Pipeline.RunExperiment | experiments/llm_human_judge_001/run/simple_experiment.py:146-183 | The result reports 50 papers. The human table is the specified one for the generated papers. Each model's stored statistics are those of the LLM table made from its own draws after the human ones, complete and bounded. The validation and summary are the specified ones, with a best model among the three and means in [-1, 1]. |
| Pipeline.DrawStats | experiments/llm_human_judge_001/run/simple_experiment.py:160-161 | The statistics of the LLM table one model makes from a run of draws hold every dimension and are bounded. |
| Pipeline.ModelStats | experiments/llm_human_judge_001/run/simple_experiment.py:159-162 | The statistics stored for model `k` are complete, bounded and keyed by the five dimensions. |
| Pipeline.LoopResults | experiments/llm_human_judge_001/run/simple_experiment.py:156-163 | Statistics stored under distinct names in order give results keyed by exactly those names, each holding its own statistics, complete and bounded. |
| Pipeline.ResultsFromModels | experiments/llm_human_judge_001/run/simple_experiment.py:162 | Writing complete and bounded statistics under distinct names gives complete and bounded results with each name mapped to its own statistics. |
| Papers.PaperList | experiments/llm_human_judge_001/run/simple_experiment.py:15-31 | The list of generated papers for given picks has exactly `n` papers. |
| Pipeline.StatsRecord | experiments/llm_human_judge_001/run/simple_experiment.py:136-142 | One dimension's statistics as the stored dictionary, with exactly the five statistic keys in order. |
| Pipeline.AsTable | experiments/llm_human_judge_001/run/experiment.py:159 | A model's statistics, read as a two-level table, keep their dimension keys. |
| Pipeline.PaperIdNotDimension | experiments/llm_human_judge_001/run/experiment.py:159 | No generated paper id is a dimension name. |
| Pipeline.GptStatisticsDoNotCoverPapers | experiments/llm_human_judge_001/run/experiment.py:159 | The gpt-4 statistics, keyed by dimension, never cover a human table of generated papers. The call as written breaks the precondition of `simulate_ensemble_method`. |
| Pipeline.EnsembleComparable | experiments/llm_human_judge_001/run/experiment.py:162 | A blended table can be passed to `calculate_correlations` together with the human table. |
| Pipeline.RunEnsemble | experiments/llm_human_judge_001/run/experiment.py:157-162 | The ensemble statistics are exactly the correlation table of the human and the blended table, with every dimension. The validation is the ensemble rule on the model and ensemble statistics. |
| Pipeline.RunEnsembleExperiment | experiments/llm_human_judge_001/run/experiment.py:133-181 | Built with the gpt-4 LLM ratings as the intended second argument. The human table is the specified one and the gpt-4 ratings are the first model's LLM table. The result reports 50 papers and each model's statistics as in `Pipeline.RunExperiment`. The ensemble statistics are exactly the correlation table of the human table and the blend of it with the gpt-4 ratings, over the five dimensions. The validation is the specified one. |

## Left out

- **Box–Muller sampler.** `normal_random` (`simple_experiment.py:33-38`) uses floating-point `log`, `cos` and `sqrt`. Its standard-normal outputs are inputs to the model.
- **Seeding and random streams.** `random.seed`, `np.random.seed` and the reproducibility of the pseudorandom stream are not modelled. Every `random.choice` is an index parameter.
- **Library statistics in `experiment.py`.** Its `calculate_correlations` (lines 89-109) calls `scipy.stats.pearsonr`, `sklearn`'s `mean_absolute_error` and `np.mean`. These are foreign library calls, so the model uses the arithmetic of `simple_experiment.py` for both scripts. Known differences:
  - `pearsonr` returns the exact two-sided p-value of the t distribution. The model keeps the 0.05/0.1 step of `simple_experiment.py:116` (`Statistics.ApproxPValue`). So every `p_value` the model gives for `experiment.py`'s per-model and ensemble statistics differs from what that script stores.
  - `pearsonr` returns NaN, not (0, 1), on constant input.
  - `pearsonr` raises an error on fewer than two points, where the model returns (0, 1): with at most one point the sums of squares are zero.
- **Reporting.** Imports of `pandas` and `matplotlib`, console printing, the JSON dump, the hard-coded output paths, the `experiment_id` string and the `datetime.now()` timestamp are not modelled. `ExperimentResults` keeps only the paper count, the results, the validation and the summary.
- **Floating point.** The model works over exact reals, so IEEE-754 rounding is not modelled. The only float special case kept is H3's division by zero (`Ensemble.FloatQuotient`).
- **Square root.** `math.sqrt` is a parameter, required to be the exact non-negative square root on non-negative reals.
- **Distributional claims.** The comments expecting r ≈ 0.75 and r ≈ 0.35, and whether H1 and H2 pass on a given seed, are statistical statements and are not modelled.
- **Empty inputs.** `np.mean` of an empty list gives NaN with a warning, and the plain-Python means raise `ZeroDivisionError`. The model instead requires the inputs non-empty: at least one model (`Hypotheses.Complete`) and at least one paper (`Correlations.Comparable`).
- **Lookup errors.** Where the scripts would raise, the model instead requires the input that avoids the error:
  - `Statistics.PearsonCorrelation` requires `|x| <= |y|`. The script's `y[i]` raises `IndexError` otherwise.
  - `Correlations.Comparable` requires three things:
    - every row of both tables holds the five dimensions, or the lookups at `simple_experiment.py:130-131` raise `KeyError`;
    - the LLM table has at least as many rows as the human table, or `y[i]` at `simple_experiment.py:104-106` raises `IndexError`;
    - the human table has at least one row. The columns are paired by position in each table's own key order, as the script pairs them.
  - `Ensemble.Covers` requires every human paper id, and every dimension of its row, to be a key of the ensemble's LLM table. `llm_ratings[paper_id][dim]` raises `KeyError` otherwise.

## Findings

| source | as written | input that shows it | evidently intended | confidence | as-written member | corrected member |
|---|---|---|---|---|---|---|
| experiments/llm_human_judge_001/run/experiment.py:159 | `simulate_ensemble_method(human_ratings, all_results['gpt-4'])` passes gpt-4's correlation statistics, keyed by dimension name, as the LLM ratings | Any run: the first human key is `paper_000`, which is not a key of the statistics, so `llm_ratings[paper_id]` raises `KeyError` | Blend the human ratings with the gpt-4 LLM rating table, which is keyed by paper id | not executed | Pipeline.GptStatisticsDoNotCoverPapers | Pipeline.RunEnsembleExperiment |
