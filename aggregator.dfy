/**
 * `calculate_final_score`: the 10-word gate, the five scorers, the weight
 * overwrite from the fixed table, and the normalised overall score.
 */
module Aggregator {
  import opened Numeric
  import opened Text
  import opened Rubric
  import opened Scorers

  /** The `ValueError` raised for a transcript of fewer than 10 words. */
  datatype ScoreError = TranscriptTooShort

  /** The dictionary `calculate_final_score` returns. */
  datatype ScoreReport = ScoreReport(
    overallScore: int,
    wordCount: nat,
    perCriterion: seq<Criterion>,
    totalPossibleWeight: int)

  datatype ScoreResult = Scored(report: ScoreReport) | Rejected(error: ScoreError)

  /** The minimum number of words a transcript needs to be scored (app.py:295). */
  const MinimumWords := 10

  /** The five criteria as the scorers return them, in the order of `all_criteria`. */
  function Criteria(config: Config, transcript: string, similarity: real, issues: seq<Issue>): seq<Criterion> {
    var totalWords := |Words(transcript)|;
    [ KeyContentCriterion(transcript),
      FlowAndOrganization(config, similarity),
      TypeTokenRatio(transcript),
      GrammarScore(config, totalWords, issues),
      FillerWordRate(transcript, totalWords) ]
  }

  /** Every criterion with its weight taken from the table; all other fields as they were. */
  function Reweighted(criteria: seq<Criterion>): (r: seq<Criterion>)
    ensures |r| == |criteria|
    ensures forall i :: 0 <= i < |r| ==>
      && r[i].weight == TargetWeight(criteria[i].name)
      && r[i].name == criteria[i].name
      && r[i].score == criteria[i].score
      && r[i].feedback == criteria[i].feedback
      && r[i].raw == criteria[i].raw
  {
    seq(|criteria|, i requires 0 <= i < |criteria| => criteria[i].(weight := TargetWeight(criteria[i].name)))
  }

  /** `100 * total_raw_score_60`: the sum of score times weight over the criteria. */
  function WeightedPoints(criteria: seq<Criterion>): int {
    if criteria == [] then 0
    else
      var last := criteria[|criteria| - 1];
      WeightedPoints(criteria[..|criteria| - 1]) + last.score * last.weight
  }

  /** `min(100, round((total_raw_score_60 / total_possible_weight) * 100))`. */
  function OverallScore(criteria: seq<Criterion>): int {
    var totalRaw := WeightedPoints(criteria) as real / 100.0;
    var overall :=
      if TotalPossibleWeight > 0 then RoundHalfEven((totalRaw / TotalPossibleWeight as real) * 100.0) else 0;
    MinInt(100, overall)
  }

  /** `calculate_final_score`, given the collaborators' answers for this transcript. */
  method CalculateFinalScore(config: Config, transcript: string, similarity: real, issues: seq<Issue>)
    returns (result: ScoreResult)
    ensures |Words(transcript)| < MinimumWords <==> result == Rejected(TranscriptTooShort)
    ensures result.Scored? ==>
      var criteria := Reweighted(Criteria(config, transcript, similarity, issues));
      && result.report.perCriterion == criteria
      && result.report.overallScore == OverallScore(criteria)
      && result.report.wordCount == |Words(transcript)|
      && result.report.totalPossibleWeight == TotalPossibleWeight
    ensures result.Scored? ==>
      && result.report.perCriterion == Criteria(config, transcript, similarity, issues)
      && 0 <= result.report.overallScore <= 100
      && |result.report.perCriterion| == 5
      && (forall i :: 0 <= i < 5 ==> result.report.perCriterion[i].weight == [30, 5, 10, 10, 5][i])
  {
    var words := Words(transcript);
    var totalWords := |words|;
    if totalWords < MinimumWords {
      return Rejected(TranscriptTooShort);
    }

    var contentScore := KeyContentPresence(transcript);
    var flowScore := FlowAndOrganization(config, similarity);
    var ttrScore := TypeTokenRatio(transcript);
    var grammarScore := GrammarScore(config, totalWords, issues);
    var clarityScore := FillerWordRate(transcript, totalWords);
    var allCriteria := [contentScore, flowScore, ttrScore, grammarScore, clarityScore];
    assert allCriteria == Criteria(config, transcript, similarity, issues);

    var totalPoints;
    allCriteria, totalPoints := ApplyTargetWeights(allCriteria);
    ScorerCriteria(config, transcript, similarity, issues);
    ReweightKeepsScorerWeights(config, transcript, similarity, issues);

    var overallScore :=
      if TotalPossibleWeight > 0
      then RoundHalfEven(((totalPoints as real / 100.0) / TotalPossibleWeight as real) * 100.0)
      else 0;
    OverallOfPoints(allCriteria, totalPoints);
    result := Scored(ScoreReport(MinInt(100, overallScore), totalWords, allCriteria, TotalPossibleWeight));
  }

  /**
   * The weighting loop of `calculate_final_score`: each criterion's weight is
   * overwritten with `target_weights.get(name, 0)` and `score * weight` is added
   * to the running total (kept as an integer, 100 times `total_raw_score_60`).
   */
  method ApplyTargetWeights(criteria: seq<Criterion>) returns (reweighted: seq<Criterion>, totalPoints: int)
    ensures reweighted == Reweighted(criteria)
    ensures totalPoints == WeightedPoints(reweighted)
  {
    reweighted := criteria;
    totalPoints := 0;
    var i := 0;
    while i < |reweighted|
      invariant 0 <= i <= |reweighted| == |criteria|
      invariant forall j :: 0 <= j < i ==> reweighted[j] == criteria[j].(weight := TargetWeight(criteria[j].name))
      invariant forall j :: i <= j < |reweighted| ==> reweighted[j] == criteria[j]
      invariant totalPoints == WeightedPoints(reweighted[..i])
    {
      var weight := TargetWeight(reweighted[i].name);
      var before := reweighted;
      reweighted := reweighted[i := reweighted[i].(weight := weight)];
      assert reweighted[..i + 1] == before[..i] + [reweighted[i]];
      totalPoints := totalPoints + reweighted[i].score * weight;
      i := i + 1;
    }
    assert reweighted[..i] == reweighted;
  }

  /** The overall score, computed from the weighted points. */
  lemma OverallOfPoints(criteria: seq<Criterion>, points: int)
    requires points == WeightedPoints(criteria)
    ensures OverallScore(criteria)
         == MinInt(100, RoundHalfEven(((points as real / 100.0) / TotalPossibleWeight as real) * 100.0))
  {
  }

  /** With scores in 0..100 and weights not negative, the overall score is in 0..100. */
  lemma OverallScoreBounds(criteria: seq<Criterion>)
    requires forall i :: 0 <= i < |criteria| ==> 0 <= criteria[i].score <= 100 && criteria[i].weight >= 0
    ensures 0 <= OverallScore(criteria) <= 100
  {
    WeightedPointsNonNegative(criteria);
    RoundMonotone(0.0, ((WeightedPoints(criteria) as real / 100.0) / 60.0) * 100.0);
    RoundOfInteger(0);
  }

  lemma {:induction false} WeightedPointsNonNegative(criteria: seq<Criterion>)
    requires forall i :: 0 <= i < |criteria| ==> criteria[i].score >= 0 && criteria[i].weight >= 0
    ensures WeightedPoints(criteria) >= 0
  {
    if criteria != [] {
      WeightedPointsNonNegative(criteria[..|criteria| - 1]);
      var last := criteria[|criteria| - 1];
      assert last.score * last.weight >= 0;
    }
  }

  /** The five criteria in the standard order. */
  predicate HasStandardNames(criteria: seq<Criterion>) {
    && |criteria| == 5
    && criteria[0].name == ContentName
    && criteria[1].name == FlowName
    && criteria[2].name == VocabularyName
    && criteria[3].name == GrammarName
    && criteria[4].name == ClarityName
  }

  /** The five named criteria get the weights 30, 5, 10, 10 and 5 from the table. */
  lemma StandardWeights(criteria: seq<Criterion>)
    requires HasStandardNames(criteria)
    ensures forall i :: 0 <= i < 5 ==> Reweighted(criteria)[i].weight == [30, 5, 10, 10, 5][i]
  {
    TargetWeightTable(ContentName);
    TargetWeightTable(FlowName);
    TargetWeightTable(VocabularyName);
    TargetWeightTable(GrammarName);
    TargetWeightTable(ClarityName);
  }

  /** The weighted points of five criteria, written out. */
  lemma WeightedPointsOfFive(r: seq<Criterion>)
    requires |r| == 5
    ensures WeightedPoints(r) == r[0].score * r[0].weight + r[1].score * r[1].weight
      + r[2].score * r[2].weight + r[3].score * r[3].weight + r[4].score * r[4].weight
  {
    assert r[..4][..3] == r[..3] && r[..4][3] == r[3];
    assert r[..3][..2] == r[..2] && r[..3][2] == r[2];
    assert r[..2][..1] == r[..1] && r[..2][1] == r[1];
    assert r[..1][..0] == [] && r[..1][0] == r[0];
    assert WeightedPoints(r[..1]) == r[0].score * r[0].weight;
    assert WeightedPoints(r[..2]) == WeightedPoints(r[..1]) + r[1].score * r[1].weight;
    assert WeightedPoints(r[..3]) == WeightedPoints(r[..2]) + r[2].score * r[2].weight;
    assert WeightedPoints(r[..4]) == WeightedPoints(r[..3]) + r[3].score * r[3].weight;
    assert WeightedPoints(r) == WeightedPoints(r[..4]) + r[4].score * r[4].weight;
  }

  /**
   * After the weights are overwritten, the overall score of the five named criteria
   * is `min(100, round((30 c + 5 f + 10 v + 10 g + 5 k) / 60))`.
   */
  lemma OverallScoreFormula(criteria: seq<Criterion>)
    requires HasStandardNames(criteria)
    ensures OverallScore(Reweighted(criteria))
         == MinInt(100, RoundHalfEven((30 * criteria[0].score + 5 * criteria[1].score + 10 * criteria[2].score
                                       + 10 * criteria[3].score + 5 * criteria[4].score) as real / 60.0))
  {
    var r := Reweighted(criteria);
    StandardWeights(criteria);
    WeightedPointsOfFive(r);
    var points := 30 * r[0].score + 5 * r[1].score + 10 * r[2].score + 10 * r[3].score + 5 * r[4].score;
    assert WeightedPoints(r) == points;
    assert ((points as real / 100.0) / 60.0) * 100.0 == points as real / 60.0;
  }

  /**
   * Five criteria named as the scorers name them, with scores in 0..100: the
   * overwrite gives them the weights 30/5/10/10/5, changes nothing when they
   * already carry those weights, and the overall score lies in 0..100.
   */
  lemma FiveCriteria(a: Criterion, b: Criterion, c: Criterion, d: Criterion, e: Criterion)
    requires HasStandardNames([a, b, c, d, e])
    requires forall i :: 0 <= i < 5 ==> 0 <= [a, b, c, d, e][i].score <= 100
    ensures var r := Reweighted([a, b, c, d, e]);
      && (forall i :: 0 <= i < 5 ==> r[i].weight == [30, 5, 10, 10, 5][i])
      && 0 <= OverallScore(r) <= 100
      && ((forall i :: 0 <= i < 5 ==> [a, b, c, d, e][i].weight == [30, 5, 10, 10, 5][i]) ==> r == [a, b, c, d, e])
  {
    var cs := [a, b, c, d, e];
    StandardWeights(cs);
    OverallScoreFormula(cs);
    var points := 30 * a.score + 5 * b.score + 10 * c.score + 10 * d.score + 5 * e.score;
    RoundBetween(points as real / 60.0, 0, 100);
    var r := Reweighted(cs);
    if forall i :: 0 <= i < 5 ==> cs[i].weight == [30, 5, 10, 10, 5][i] {
      forall i | 0 <= i < 5 ensures r[i] == cs[i] {
        assert r[i].weight == [30, 5, 10, 10, 5][i] == cs[i].weight;
      }
    }
  }

  /** Five criteria carrying the scorers' names and weights, with scores in 0..100, as one list. */
  lemma CriteriaOfFive(a: Criterion, b: Criterion, c: Criterion, d: Criterion, e: Criterion)
    requires a.name == ContentName && b.name == FlowName && c.name == VocabularyName
    requires d.name == GrammarName && e.name == ClarityName
    requires a.weight == 30 && b.weight == 5 && c.weight == 10 && d.weight == 10 && e.weight == 5
    requires 0 <= a.score <= 100 && 0 <= b.score <= 100 && 0 <= c.score <= 100
    requires 0 <= d.score <= 100 && 0 <= e.score <= 100
    ensures HasStandardNames([a, b, c, d, e])
    ensures forall i :: 0 <= i < 5 ==> 0 <= [a, b, c, d, e][i].score <= 100
    ensures forall i :: 0 <= i < 5 ==> [a, b, c, d, e][i].weight == [30, 5, 10, 10, 5][i]
  {
  }

  /** The criteria of every transcript carry the five standard names, their weights, and scores in 0..100. */
  lemma ScorerCriteria(config: Config, transcript: string, similarity: real, issues: seq<Issue>)
    ensures var cs := Criteria(config, transcript, similarity, issues);
      && HasStandardNames(cs)
      && (forall i :: 0 <= i < 5 ==> 0 <= cs[i].score <= 100)
      && (forall i :: 0 <= i < 5 ==> cs[i].weight == [30, 5, 10, 10, 5][i])
  {
    CriteriaOfFive(KeyContentCriterion(transcript), FlowAndOrganization(config, similarity),
                   TypeTokenRatio(transcript), GrammarScore(config, |Words(transcript)|, issues),
                   FillerWordRate(transcript, |Words(transcript)|));
  }

  /** The table overwrite changes nothing for the five scorers' own criteria. */
  lemma ReweightKeepsScorerWeights(config: Config, transcript: string, similarity: real, issues: seq<Issue>)
    ensures var cs := Criteria(config, transcript, similarity, issues);
      Reweighted(cs) == cs && 0 <= OverallScore(cs) <= 100
  {
    var cs := Criteria(config, transcript, similarity, issues);
    ScorerCriteria(config, transcript, similarity, issues);
    FiveCriteria(cs[0], cs[1], cs[2], cs[3], cs[4]);
    assert cs == [cs[0], cs[1], cs[2], cs[3], cs[4]];
  }

  /** All five at 100 gives 100, all at 0 gives 0, and (60, 50, 80, 90, 80) gives 69. */
  lemma OverallScoreExamples(criteria: seq<Criterion>)
    requires HasStandardNames(criteria)
    ensures (forall i :: 0 <= i < 5 ==> criteria[i].score == 100) ==> OverallScore(Reweighted(criteria)) == 100
    ensures (forall i :: 0 <= i < 5 ==> criteria[i].score == 0) ==> OverallScore(Reweighted(criteria)) == 0
    ensures criteria[0].score == 60 && criteria[1].score == 50 && criteria[2].score == 80
         && criteria[3].score == 90 && criteria[4].score == 80
         ==> OverallScore(Reweighted(criteria)) == 69
  {
    OverallScoreFormula(criteria);
    RoundOfInteger(100);
    RoundOfInteger(0);
    RoundUnique(4150.0 / 60.0, 69);
  }
}
