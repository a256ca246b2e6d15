/**
 * The rubric configuration of app.py (process-wide constants) and the values
 * that flow between the scorers and the aggregator.
 */
module Rubric {

  /** The two collaborator availability flags decided once at process start (app.py:10-32). */
  datatype Config = Config(semanticEnabled: bool, grammarEnabled: bool)

  /** One issue flagged by the grammar checker: its context snippet and suggested replacements. */
  datatype Issue = Issue(context: string, replacements: seq<string>)

  /** `REQUIRED_KEYWORDS`, in order (app.py:48-50). */
  const RequiredKeywords: seq<string> := [
    "name", "age", "class", "school", "family", "hobbies", "interests", "goals",
    "unique point", "subject", "cricket", "kind hearted", "soft spoken"
  ]

  /** `FILLER_WORDS` (app.py:53-57). */
  const FillerWords: set<string> := {
    "um", "uh", "like", "you know", "so", "actually", "basically", "right",
    "i mean", "well", "kinda", "sort of", "okay", "hmm", "ah", "and then",
    "at the end of the day", "literally"
  }

  /** The entries of `FILLER_WORDS` that contain a space. */
  const MultiWordFillers: set<string> := {
    "you know", "i mean", "sort of", "and then", "at the end of the day"
  }

  const ContentName := "Key Content Presence"
  const FlowName := "Flow & Organization (Semantic)"
  const VocabularyName := "Vocabulary Richness (TTR)"
  const GrammarName := "Language & Grammar (Error Count)"
  const ClarityName := "Clarity (Filler Word Rate)"

  /** `target_weights` of the aggregator (app.py:316-322). */
  const TargetWeights: map<string, int> := map[
    ContentName := 30, FlowName := 5, VocabularyName := 10, GrammarName := 10, ClarityName := 5
  ]

  /** `total_possible_weight` (app.py:324). */
  const TotalPossibleWeight: int := 60

  datatype CoverageTier = ExcellentCoverage | GoodCoverage | LowCoverage
  datatype FlowTier = ExcellentFlow | GoodFlow | ConfusingFlow
  datatype VocabularyTier =
    ExcellentVocabulary | GoodVocabulary | AverageVocabulary | LimitedVocabulary | VeryLimitedVocabulary
  datatype GrammarTier = ExcellentGrammar | MinorIssues | SignificantIssues
  datatype ClarityTier = ExcellentClarity | GoodClarity | ModerateClarity | LowClarity | VeryLowClarity

  /**
   * The feedback string of a criterion, as the tier it was chosen from and
   * the values it embeds.
   */
  datatype Feedback =
    | Coverage(coverage: CoverageTier, found: nat, required: nat, examples: seq<string>)
    | FlowEstimated
    | Flow(flow: FlowTier, similarity: real)
    | Vocabulary(vocabulary: VocabularyTier, distinct: nat, total: nat)
    | GrammarEstimated
    | GrammarTooShort
    | Grammar(grammar: GrammarTier, errors: nat, words: nat, shown: seq<Issue>)
    | ClarityEmpty
    | Clarity(clarity: ClarityTier, fillers: nat, words: nat)

  /**
   * One criterion dictionary: `name`, `score`, `weight`, `feedback` and the
   * `raw_score_<weight>` entry, here `raw`.
   */
  datatype Criterion = Criterion(name: string, score: int, weight: int, feedback: Feedback, raw: real)

  /** `target_weights.get(name, 0)`. */
  function TargetWeight(name: string): int {
    if name in TargetWeights then TargetWeights[name] else 0
  }

  /** The table gives 30/5/10/10/5 to the five criteria and 0 to every other name. */
  lemma TargetWeightTable(name: string)
    ensures name == ContentName ==> TargetWeight(name) == 30
    ensures name == FlowName ==> TargetWeight(name) == 5
    ensures name == VocabularyName ==> TargetWeight(name) == 10
    ensures name == GrammarName ==> TargetWeight(name) == 10
    ensures name == ClarityName ==> TargetWeight(name) == 5
    ensures name !in {ContentName, FlowName, VocabularyName, GrammarName, ClarityName} ==> TargetWeight(name) == 0
  {
  }

  /** The multi-word fillers are exactly the entries of `FILLER_WORDS` that contain a space. */
  lemma MultiWordFillersHaveSpaces(f: string)
    requires f in FillerWords
    ensures f in MultiWordFillers <==> ' ' in f
  {
  }
}
