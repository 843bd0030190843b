/** The rating simulators of simple_experiment.py (duplicated in
    experiment.py): human expert ratings and LLM ratings, each a table from
    paper id to a table from dimension to a score in [1, 5].

    Every `normal_random(mean, std)` call is `mean + std * z` for a
    standard-normal `z`; the `z` values arrive as a sequence consumed in order. */
module Ratings {
  import opened Dicts
  import opened Statistics
  import opened Papers

  const Dimensions: seq<string> := ["methodology", "reproducibility", "novelty", "significance", "impact"]
  const StructuredDims: seq<string> := ["methodology", "reproducibility"]
  const SubjectiveDims: seq<string> := ["novelty", "significance", "impact"]

  /** One paper's scores, by dimension. */
  type Scores = Dict<real>
  /** Scores by paper id. */
  type Table = Dict<Scores>

  lemma DimensionsDistinct()
    ensures Distinct(Dimensions)
  {
  }

  /** The outer and every inner dictionary are well formed. */
  ghost predicate WellFormed(t: Table) {
    t.Valid() && forall k :: k in t.entries ==> t.entries[k].Valid()
  }

  /** Every score of the row lies in [1, 5]. */
  ghost predicate RowWithin(s: Scores) {
    forall d :: d in s.entries ==> 1.0 <= s.entries[d] <= 5.0
  }

  /** Every score in the table lies in [1, 5]. */
  ghost predicate ScoresWithin(t: Table) {
    forall k :: k in t.entries ==> RowWithin(t.entries[k])
  }

  /** `normal_random(mean, std)` for the standard-normal draw `z`. */
  function NormalDraw(mean: real, std: real, z: real): real {
    mean + std * z
  }

  // ---------------------------------------------------------------------------
  // Human expert ratings

  /** `clip(normal_random(3.0, 0.8), 1, 5)`. */
  function BaseQuality(z: real): (r: real)
    ensures 1.0 <= r <= 5.0
  {
    Clip(NormalDraw(3.0, 0.8, z), 1.0, 5.0)
  }

  /** `clip(base_quality + normal_random(0, 0.3), 1, 5)`. */
  function HumanScore(base: real, z: real): (r: real)
    ensures 1.0 <= r <= 5.0
  {
    Clip(base + NormalDraw(0.0, 0.3, z), 1.0, 5.0)
  }

  /** The five dimension scores of one paper with base quality `base`, the
      noise draws starting at `start`. */
  function DimensionScores(base: real, draws: seq<real>, start: nat): (s: seq<real>)
    requires start + 5 <= |draws|
    ensures |s| == |Dimensions|
    ensures forall j :: 0 <= j < 5 ==> s[j] == HumanScore(base, draws[start + j])
    ensures AllWithin(s, 1.0, 5.0)
  {
    seq(5, j requires 0 <= j < 5 => HumanScore(base, draws[start + j]))
  }

  /** One paper's row of `simulate_human_expert_ratings`, its six draws
      starting at `start`: the base first, then one per dimension. */
  function HumanRow(draws: seq<real>, start: nat): Scores
    requires start + 6 <= |draws|
  {
    BuildDict(Dimensions, DimensionScores(BaseQuality(draws[start]), draws, start + 1))
  }

  function PaperIds(papers: seq<Paper>): (ids: seq<string>)
    ensures |ids| == |papers|
    ensures forall i :: 0 <= i < |papers| ==> ids[i] == papers[i].paperId
  {
    seq(|papers|, i requires 0 <= i < |papers| => papers[i].paperId)
  }

  /** The rows, paper by paper, paper `i` from draws `6i .. 6i + 5`. */
  function HumanRows(papers: seq<Paper>, draws: seq<real>): (rows: seq<Scores>)
    requires 6 * |papers| <= |draws|
    ensures |rows| == |papers|
    ensures forall i :: 0 <= i < |papers| ==> rows[i] == HumanRow(draws, 6 * i)
  {
    seq(|papers|, i requires 0 <= i < |papers| => HumanRow(draws, 6 * i))
  }

  /** The table `simulate_human_expert_ratings` builds. */
  function HumanRatings(papers: seq<Paper>, draws: seq<real>): Table
    requires 6 * |papers| <= |draws|
  {
    BuildDict(PaperIds(papers), HumanRows(papers, draws))
  }

  /** The inner loop of `simulate_human_expert_ratings`: one noise draw per
      dimension, from `pos` on. */
  method RateDimensions(baseQuality: real, draws: seq<real>, pos: nat) returns (row: Scores, next: nat)
    requires pos + 5 <= |draws|
    ensures row == BuildDict(Dimensions, DimensionScores(baseQuality, draws, pos))
    ensures next == pos + 5
  {
    ghost var scores := DimensionScores(baseQuality, draws, pos);
    row := Empty();
    next := pos;
    var j := 0;
    while j < |Dimensions|
      invariant 0 <= j <= |Dimensions| && next == pos + j
      invariant row == BuildDict(Dimensions[..j], scores[..j])
    {
      var noise := NormalDraw(0.0, 0.3, draws[next]);
      next := next + 1;
      var rating := baseQuality + noise;
      assert scores[j] == HumanScore(baseQuality, draws[pos + j]);
      BuildDictStep(Dimensions, scores, j);
      row := row.Put(Dimensions[j], Clip(rating, 1.0, 5.0));
      j := j + 1;
    }
    assert Dimensions[..j] == Dimensions && scores[..j] == scores;
  }

  /** `simulate_human_expert_ratings(papers)`: for each paper in order, one
      base-quality draw and then one noise draw per dimension. */
  method SimulateHumanExpertRatings(papers: seq<Paper>, draws: seq<real>) returns (ratings: Table, rest: seq<real>)
    requires 6 * |papers| <= |draws|
    ensures ratings == HumanRatings(papers, draws)
    ensures rest == draws[6 * |papers|..]
  {
    ghost var ids, rows := PaperIds(papers), HumanRows(papers, draws);
    ratings := Empty();
    var pos := 0;
    var i := 0;
    while i < |papers|
      invariant 0 <= i <= |papers| && pos == 6 * i
      invariant ratings == BuildDict(ids[..i], rows[..i])
    {
      HumanStep(papers, draws, i);
      var paperId := papers[i].paperId;
      var baseQuality := Clip(NormalDraw(3.0, 0.8, draws[pos]), 1.0, 5.0);
      pos := pos + 1;
      var row;
      row, pos := RateDimensions(baseQuality, draws, pos);
      ratings := ratings.Put(paperId, row);
      i := i + 1;
    }
    assert ids[..i] == ids;
    assert rows[..i] == rows;
    rest := draws[pos..];
  }

  /** One step of the outer loop of `simulate_human_expert_ratings`. */
  lemma HumanStep(papers: seq<Paper>, draws: seq<real>, i: nat)
    requires 6 * |papers| <= |draws| && i < |papers|
    ensures BuildDict(PaperIds(papers)[..i + 1], HumanRows(papers, draws)[..i + 1])
         == BuildDict(PaperIds(papers)[..i], HumanRows(papers, draws)[..i])
              .Put(papers[i].paperId, BuildDict(Dimensions, DimensionScores(BaseQuality(draws[6 * i]), draws, 6 * i + 1)))
  {
    BuildDictStep(PaperIds(papers), HumanRows(papers, draws), i);
  }

  /** One human row has exactly the five dimensions, in order, each scored
      `clip(clip(base) + noise)`. */
  lemma HumanRowScores(draws: seq<real>, start: nat)
    requires start + 6 <= |draws|
    ensures HumanRow(draws, start).Valid() && HumanRow(draws, start).keys == Dimensions
    ensures forall j :: 0 <= j < 5 ==>
      HumanRow(draws, start).entries[Dimensions[j]]
        == Clip(Clip(3.0 + 0.8 * draws[start], 1.0, 5.0) + 0.3 * draws[start + 1 + j], 1.0, 5.0)
  {
    var scores := DimensionScores(BaseQuality(draws[start]), draws, start + 1);
    DimensionRow(scores);
    forall j | 0 <= j < 5
      ensures HumanRow(draws, start).entries[Dimensions[j]]
        == Clip(Clip(3.0 + 0.8 * draws[start], 1.0, 5.0) + 0.3 * draws[start + 1 + j], 1.0, 5.0)
    {
      HumanScoreValue(draws[start], draws[start + 1 + j]);
    }
  }

  /** Five scores written under the five dimensions, in order. */
  lemma DimensionRow(scores: seq<real>)
    requires |scores| == |Dimensions|
    ensures BuildDict(Dimensions, scores).Valid() && BuildDict(Dimensions, scores).keys == Dimensions
    ensures forall j :: 0 <= j < |Dimensions| ==>
      Dimensions[j] in BuildDict(Dimensions, scores).entries && BuildDict(Dimensions, scores).entries[Dimensions[j]] == scores[j]
  {
    DimensionsDistinct();
    BuildDictDistinct(Dimensions, scores);
  }

  /** A human score written out: the clipped base plus the clipped noise. */
  lemma HumanScoreValue(z0: real, z: real)
    ensures HumanScore(BaseQuality(z0), z) == Clip(Clip(3.0 + 0.8 * z0, 1.0, 5.0) + 0.3 * z, 1.0, 5.0)
  {
    assert NormalDraw(3.0, 0.8, z0) == 3.0 + 0.8 * z0;
    assert NormalDraw(0.0, 0.3, z) == 0.3 * z;
  }

  /** Every score of a human row lies in [1, 5]. */
  lemma HumanRowWithin(draws: seq<real>, start: nat)
    requires start + 6 <= |draws|
    ensures RowWithin(HumanRow(draws, start))
  {
    RowWithinOf(Dimensions, DimensionScores(BaseQuality(draws[start]), draws, start + 1));
  }

  /** Scores in [1, 5] written under any keys make a row within [1, 5]. */
  lemma RowWithinOf(ks: seq<string>, vs: seq<real>)
    requires |ks| == |vs| && AllWithin(vs, 1.0, 5.0)
    ensures RowWithin(BuildDict(ks, vs))
  {
    forall d | d in BuildDict(ks, vs).entries ensures 1.0 <= BuildDict(ks, vs).entries[d] <= 5.0 {
      BuildDictValues(ks, vs, d);
    }
  }

  /** Every row of the human table has exactly the five dimensions, with
      scores in [1, 5]. */
  lemma HumanRatingsRows(papers: seq<Paper>, draws: seq<real>)
    requires 6 * |papers| <= |draws|
    ensures WellFormed(HumanRatings(papers, draws)) && ScoresWithin(HumanRatings(papers, draws))
    ensures forall k :: k in HumanRatings(papers, draws).entries ==>
      HumanRatings(papers, draws).entries[k].keys == Dimensions
  {
    var ids, rows := PaperIds(papers), HumanRows(papers, draws);
    forall i | 0 <= i < |rows|
      ensures rows[i].Valid() && RowWithin(rows[i]) && rows[i].keys == Dimensions
    {
      HumanRowScores(draws, 6 * i);
      HumanRowWithin(draws, 6 * i);
    }
    TableFromRows(ids, rows);
    forall k | k in HumanRatings(papers, draws).entries
      ensures HumanRatings(papers, draws).entries[k].keys == Dimensions
    {
      BuildDictValues(ids, rows, k);
    }
  }

  /** The human table: one row per paper id, every row with exactly the five
      dimensions and scores in [1, 5]; with distinct ids (as generated), the
      ids in paper order, paper `i` holding the row made from draws `6i .. 6i + 5`. */
  lemma HumanRatingsProperties(papers: seq<Paper>, draws: seq<real>)
    requires 6 * |papers| <= |draws|
    ensures WellFormed(HumanRatings(papers, draws)) && ScoresWithin(HumanRatings(papers, draws))
    ensures forall k :: k in HumanRatings(papers, draws).entries <==> k in PaperIds(papers)
    ensures forall k :: k in HumanRatings(papers, draws).entries ==>
      HumanRatings(papers, draws).entries[k].keys == Dimensions
    ensures Distinct(PaperIds(papers)) ==>
      HumanRatings(papers, draws).keys == PaperIds(papers)
      && forall i :: 0 <= i < |papers| ==>
        HumanRatings(papers, draws).entries[papers[i].paperId] == HumanRow(draws, 6 * i)
  {
    HumanRatingsRows(papers, draws);
    BuildDictKeys(PaperIds(papers), HumanRows(papers, draws));
    if Distinct(PaperIds(papers)) {
      BuildDictDistinct(PaperIds(papers), HumanRows(papers, draws));
    }
  }

  // ---------------------------------------------------------------------------
  // LLM ratings

  /** The noise scale: 0.4 on the structured dimensions, 1.2 on every other. */
  function NoiseScale(dim: string): real {
    if dim in StructuredDims then 0.4 else 1.2
  }

  /** `clip(human_score + normal_random(0, scale), 1, 5)`. */
  function LlmScore(dim: string, humanScore: real, z: real): (r: real)
    ensures 1.0 <= r <= 5.0
  {
    Clip(humanScore + NormalDraw(0.0, NoiseScale(dim), z), 1.0, 5.0)
  }

  /** The scores of one LLM row, in the human row's key order, the draw at
      `start + j` for key `j`. */
  function LlmScores(h: Scores, draws: seq<real>, start: nat): (s: seq<real>)
    requires h.Valid() && start + |h.keys| <= |draws|
    ensures |s| == |h.keys| && AllWithin(s, 1.0, 5.0)
  {
    seq(|h.keys|, j requires 0 <= j < |h.keys| => LlmScore(h.keys[j], h.entries[h.keys[j]], draws[start + j]))
  }

  /** One paper's LLM row, for the human row `h`. */
  function LlmRow(h: Scores, draws: seq<real>, start: nat): Scores
    requires h.Valid() && start + |h.keys| <= |draws|
  {
    BuildDict(h.keys, LlmScores(h, draws, start))
  }

  /** The human row of the `i`-th paper id. */
  function RowAt(t: Table, i: nat): Scores
    requires t.Valid() && i < |t.keys|
  {
    t.entries[t.keys[i]]
  }

  /** The number of draws the rows before the `i`-th consume: one per score. */
  function DrawsBefore(t: Table, i: nat): nat
    requires t.Valid() && i <= |t.keys|
  {
    if i == 0 then 0 else DrawsBefore(t, i - 1) + |RowAt(t, i - 1).keys|
  }

  lemma {:induction false} DrawsBeforeMonotone(t: Table, i: nat, j: nat)
    requires t.Valid() && i <= j <= |t.keys|
    ensures DrawsBefore(t, i) <= DrawsBefore(t, j)
    decreases j - i
  {
    if i < j {
      DrawsBeforeMonotone(t, i, j - 1);
    }
  }

  /** The LLM row of the `i`-th paper id. */
  function LlmRowAt(human: Table, draws: seq<real>, i: nat): Scores
    requires WellFormed(human) && i < |human.keys| && DrawsBefore(human, |human.keys|) <= |draws|
  {
    DrawsBeforeMonotone(human, i + 1, |human.keys|);
    LlmRow(RowAt(human, i), draws, DrawsBefore(human, i))
  }

  function LlmRows(human: Table, draws: seq<real>): (rows: seq<Scores>)
    requires WellFormed(human) && DrawsBefore(human, |human.keys|) <= |draws|
    ensures |rows| == |human.keys|
  {
    seq(|human.keys|, i requires 0 <= i < |human.keys| => LlmRowAt(human, draws, i))
  }

  /** The table `simulate_llm_ratings` builds. */
  function LlmRatings(human: Table, draws: seq<real>): Table
    requires WellFormed(human) && DrawsBefore(human, |human.keys|) <= |draws|
  {
    BuildDict(human.keys, LlmRows(human, draws))
  }

  /** The inner loop of `simulate_llm_ratings` for one human row: one draw
      per dimension, from `pos` on. */
  method RateLikeHuman(humanScores: Scores, draws: seq<real>, pos: nat) returns (row: Scores, next: nat)
    requires humanScores.Valid() && pos + |humanScores.keys| <= |draws|
    ensures row == LlmRow(humanScores, draws, pos)
    ensures next == pos + |humanScores.keys|
  {
    ghost var scores := LlmScores(humanScores, draws, pos);
    row := Empty();
    next := pos;
    var j := 0;
    while j < |humanScores.keys|
      invariant 0 <= j <= |humanScores.keys| && next == pos + j
      invariant row == BuildDict(humanScores.keys[..j], scores[..j])
    {
      var dim := humanScores.keys[j];
      var humanScore := humanScores.entries[dim];
      var noise := NormalDraw(0.0, if dim in StructuredDims then 0.4 else 1.2, draws[next]);
      next := next + 1;
      var llmScore := humanScore + noise;
      assert scores[j] == Clip(llmScore, 1.0, 5.0);
      BuildDictStep(humanScores.keys, scores, j);
      row := row.Put(dim, Clip(llmScore, 1.0, 5.0));
      j := j + 1;
    }
    assert humanScores.keys[..j] == humanScores.keys && scores[..j] == scores;
  }

  /** `simulate_llm_ratings(human_ratings, llm_model)`: one draw per
      (paper, dimension) of the human table, in its iteration order. The
      model name is accepted and, as in the source, not used: the result is
      a function of the human table and the draws alone. */
  method SimulateLlmRatings(human: Table, llmModel: string, draws: seq<real>) returns (llm: Table, rest: seq<real>)
    requires WellFormed(human)
    requires DrawsBefore(human, |human.keys|) <= |draws|
    ensures llm == LlmRatings(human, draws)
    ensures rest == draws[DrawsBefore(human, |human.keys|)..]
  {
    ghost var rows := LlmRows(human, draws);
    llm := Empty();
    var pos := 0;
    var i := 0;
    while i < |human.keys|
      invariant 0 <= i <= |human.keys| && pos == DrawsBefore(human, i)
      invariant llm == BuildDict(human.keys[..i], rows[..i])
    {
      LlmStep(human, draws, i);
      var paperId := human.keys[i];
      var row;
      row, pos := RateLikeHuman(human.entries[paperId], draws, pos);
      llm := llm.Put(paperId, row);
      i := i + 1;
    }
    assert human.keys[..i] == human.keys;
    assert rows[..i] == rows;
    rest := draws[pos..];
  }

  /** One step of the outer loop of `simulate_llm_ratings`: the `i`-th row
      fits in the draws and extends the table by one entry. */
  lemma LlmStep(human: Table, draws: seq<real>, i: nat)
    requires WellFormed(human) && i < |human.keys| && DrawsBefore(human, |human.keys|) <= |draws|
    ensures human.keys[i] in human.entries && human.entries[human.keys[i]].Valid()
    ensures DrawsBefore(human, i + 1) == DrawsBefore(human, i) + |human.entries[human.keys[i]].keys| <= |draws|
    ensures BuildDict(human.keys[..i + 1], LlmRows(human, draws)[..i + 1])
         == BuildDict(human.keys[..i], LlmRows(human, draws)[..i])
              .Put(human.keys[i], LlmRow(human.entries[human.keys[i]], draws, DrawsBefore(human, i)))
  {
    DrawsBeforeMonotone(human, i + 1, |human.keys|);
    assert human.keys[i] in human.keys;
    var rows := LlmRows(human, draws);
    assert rows[i] == LlmRowAt(human, draws, i) == LlmRow(RowAt(human, i), draws, DrawsBefore(human, i));
    BuildDictStep(human.keys, rows, i);
  }

  /** One LLM row keeps the human row's keys, in order. */
  lemma LlmRowKeys(h: Scores, draws: seq<real>, start: nat)
    requires h.Valid() && start + |h.keys| <= |draws|
    ensures LlmRow(h, draws, start).Valid() && LlmRow(h, draws, start).keys == h.keys
  {
    BuildDictValid(h.keys, LlmScores(h, draws, start));
    BuildDictOrder(h.keys, LlmScores(h, draws, start));
  }

  /** One LLM row scores key `j` from the human score of that key and the
      draw at `start + j`: every key its own draw, in key order. */
  lemma LlmRowScores(h: Scores, draws: seq<real>, start: nat)
    requires h.Valid() && start + |h.keys| <= |draws|
    ensures forall j :: 0 <= j < |h.keys| ==>
      h.keys[j] in LlmRow(h, draws, start).entries
      && LlmRow(h, draws, start).entries[h.keys[j]]
        == LlmScore(h.keys[j], h.entries[h.keys[j]], draws[start + j])
  {
    var scores := LlmScores(h, draws, start);
    forall j | 0 <= j < |h.keys|
      ensures h.keys[j] in LlmRow(h, draws, start).entries
      ensures LlmRow(h, draws, start).entries[h.keys[j]] == scores[j]
    {
      BuildDictLookup(h.keys, scores, j);
    }
  }

  /** Every score of an LLM row lies in [1, 5]. */
  lemma LlmRowWithin(h: Scores, draws: seq<real>, start: nat)
    requires h.Valid() && start + |h.keys| <= |draws|
    ensures RowWithin(LlmRow(h, draws, start))
  {
    RowWithinOf(h.keys, LlmScores(h, draws, start));
  }

  /** The LLM table lists the human table's paper ids in the same order,
      the `i`-th holding the LLM row made from the `i`-th human row. */
  lemma LlmRatingsOrder(human: Table, draws: seq<real>)
    requires WellFormed(human) && DrawsBefore(human, |human.keys|) <= |draws|
    ensures LlmRatings(human, draws).Valid() && LlmRatings(human, draws).keys == human.keys
    ensures forall i :: 0 <= i < |human.keys| ==>
      LlmRatings(human, draws).entries[human.keys[i]] == LlmRowAt(human, draws, i)
  {
    var rows := LlmRows(human, draws);
    BuildDictDistinct(human.keys, rows);
    forall i | 0 <= i < |human.keys|
      ensures LlmRatings(human, draws).entries[human.keys[i]] == LlmRowAt(human, draws, i)
    {
      assert rows[i] == LlmRowAt(human, draws, i);
    }
  }

  /** The `i`-th LLM row keeps the human row's dimensions, in order, and
      scores each in [1, 5]. */
  lemma LlmRowAtProperties(human: Table, draws: seq<real>, i: nat)
    requires WellFormed(human) && i < |human.keys| && DrawsBefore(human, |human.keys|) <= |draws|
    ensures LlmRowAt(human, draws, i).Valid() && LlmRowAt(human, draws, i).keys == RowAt(human, i).keys
    ensures RowWithin(LlmRowAt(human, draws, i))
  {
    DrawsBeforeMonotone(human, i + 1, |human.keys|);
    assert human.keys[i] in human.keys;
    var h, start := RowAt(human, i), DrawsBefore(human, i);
    assert h.Valid() && start + |h.keys| <= |draws|;
    assert LlmRowAt(human, draws, i) == LlmRow(h, draws, start);
    LlmRowKeys(h, draws, start);
    LlmRowWithin(h, draws, start);
  }

  /** A table written row by row from well-formed rows with scores in
      [1, 5] is itself well formed with scores in [1, 5]. */
  lemma TableFromRows(ks: seq<string>, rows: seq<Scores>)
    requires |ks| == |rows|
    requires forall i :: 0 <= i < |rows| ==> rows[i].Valid() && RowWithin(rows[i])
    ensures WellFormed(BuildDict(ks, rows)) && ScoresWithin(BuildDict(ks, rows))
  {
    BuildDictValid(ks, rows);
    forall k | k in BuildDict(ks, rows).entries
      ensures BuildDict(ks, rows).entries[k].Valid() && RowWithin(BuildDict(ks, rows).entries[k])
    {
      BuildDictValues(ks, rows, k);
    }
  }

  /** The LLM table has the human table's paper ids in the same order; the
      row of each paper keeps the human row's dimensions in the same order;
      every score lies in [1, 5]. */
  lemma LlmRatingsProperties(human: Table, draws: seq<real>)
    requires WellFormed(human) && DrawsBefore(human, |human.keys|) <= |draws|
    ensures WellFormed(LlmRatings(human, draws)) && ScoresWithin(LlmRatings(human, draws))
    ensures LlmRatings(human, draws).keys == human.keys
    ensures forall i :: 0 <= i < |human.keys| ==>
      LlmRatings(human, draws).entries[human.keys[i]].keys == human.entries[human.keys[i]].keys
  {
    var rows := LlmRows(human, draws);
    forall i | 0 <= i < |human.keys|
      ensures rows[i].Valid() && RowWithin(rows[i]) && rows[i].keys == human.entries[human.keys[i]].keys
    {
      assert rows[i] == LlmRowAt(human, draws, i);
      LlmRowAtProperties(human, draws, i);
    }
    TableFromRows(human.keys, rows);
    BuildDictDistinct(human.keys, rows);
  }
}
