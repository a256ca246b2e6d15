/**
 * The five criterion scorers of app.py. Each gives a score from 0 to 100,
 * its criterion's own weight and a feedback tier.
 */
module Scorers {
  import opened Numeric
  import opened Text
  import opened Rubric

  /** Python's `s[:n]`: the first `n` elements, or all of them when there are fewer. */
  function Take<T>(s: seq<T>, n: nat): (r: seq<T>)
    ensures |r| == MinInt(|s|, n)
    ensures r <= s
  {
    if |s| <= n then s else s[..n]
  }

  // ---------------------------------------------------------------------------
  // Key content presence (weight 30)
  // ---------------------------------------------------------------------------

  /** The keywords of `keys`, in order, that occur as substrings of `text`. */
  function Found(text: string, keys: seq<string>): (found: seq<string>)
    ensures |found| <= |keys|
  {
    if keys == [] then []
    else
      var k := keys[|keys| - 1];
      Found(text, keys[..|keys| - 1]) + (if IsSubstring(k, text) then [k] else [])
  }

  /**
   * The criterion built from the count and list of found keywords:
   * the unrounded percentage picks the feedback tier, the rounded one is the score.
   */
  function CoverageResult(foundCount: nat, foundDetails: seq<string>): Criterion {
    var totalRequired := |RequiredKeywords|;
    var scoreRaw := (foundCount as real / totalRequired as real) * 100.0;
    var weight := 30;
    var tier :=
      if scoreRaw >= 90.0 then ExcellentCoverage
      else if scoreRaw >= 60.0 then GoodCoverage
      else LowCoverage;
    var examples := if tier == ExcellentCoverage then Take(foundDetails, 5) else [];
    Criterion(ContentName, RoundHalfEven(scoreRaw), weight,
              Coverage(tier, foundCount, totalRequired, examples), (scoreRaw / 100.0) * weight as real)
  }

  /** What `calculate_key_content_presence` returns for `transcript`. */
  function KeyContentCriterion(transcript: string): (c: Criterion)
    ensures c.name == ContentName && c.weight == 30
    ensures 0 <= c.score <= 100
  {
    var found := Found(Lower(transcript), RequiredKeywords);
    CoverageResultProperties(|found|, found);
    CoverageResult(|found|, found)
  }

  /** `calculate_key_content_presence`: counts the required keywords found in the lower-cased text. */
  method KeyContentPresence(transcript: string) returns (c: Criterion)
    ensures c == KeyContentCriterion(transcript)
    ensures c.feedback.found == |Found(Lower(transcript), RequiredKeywords)| <= 13
  {
    var transcriptLower := Lower(transcript);
    var foundCount := 0;
    var foundDetails: seq<string> := [];
    for i := 0 to |RequiredKeywords|
      invariant foundDetails == Found(transcriptLower, RequiredKeywords[..i])
      invariant foundCount == |foundDetails|
    {
      var keyword := RequiredKeywords[i];
      assert RequiredKeywords[..i + 1][..i] == RequiredKeywords[..i];
      if IsSubstring(keyword, transcriptLower) {
        foundCount := foundCount + 1;
        foundDetails := foundDetails + [keyword];
      }
    }
    assert RequiredKeywords[..|RequiredKeywords|] == RequiredKeywords;
    c := CoverageResult(foundCount, foundDetails);
  }

  /** A keyword is found exactly when it is one of the keys and a substring of the text. */
  lemma {:induction false} FoundIff(text: string, keys: seq<string>, k: string)
    ensures k in Found(text, keys) <==> k in keys && IsSubstring(k, text)
  {
    if keys != [] {
      var init := keys[..|keys| - 1];
      FoundIff(text, init, k);
      assert keys == init + [keys[|keys| - 1]];
    }
  }

  /** When every key is a substring, every key is found, in order. */
  lemma {:induction false} FoundAll(text: string, keys: seq<string>)
    requires forall k :: k in keys ==> IsSubstring(k, text)
    ensures Found(text, keys) == keys
  {
    if keys != [] {
      var init := keys[..|keys| - 1];
      FoundAll(text, init);
      assert keys == init + [keys[|keys| - 1]];
    }
  }

  /** When no key is a substring, nothing is found. */
  lemma {:induction false} FoundNone(text: string, keys: seq<string>)
    requires forall k :: k in keys ==> !IsSubstring(k, text)
    ensures Found(text, keys) == []
  {
    if keys != [] {
      FoundNone(text, keys[..|keys| - 1]);
    }
  }

  /**
   * Score and tier of the coverage criterion: the score is `round(100 * found / 13)`,
   * within 0..100; the tier is Excellent from 12 keywords, Good from 8.
   */
  lemma CoverageResultProperties(foundCount: nat, foundDetails: seq<string>)
    requires foundCount <= 13
    ensures var c := CoverageResult(foundCount, foundDetails);
      && c.score == RoundHalfEven((100 * foundCount) as real / 13.0)
      && 0 <= c.score <= 100
      && (c.feedback.coverage == ExcellentCoverage <==> foundCount >= 12)
      && (c.feedback.coverage == GoodCoverage <==> 8 <= foundCount < 12)
      && c.name == ContentName && c.weight == 30
  {
    var scoreRaw := (foundCount as real / 13.0) * 100.0;
    assert scoreRaw == (100 * foundCount) as real / 13.0;
    RoundBetween(scoreRaw, 0, 100);
  }

  /** A transcript containing every required keyword scores 100 for content. */
  lemma ContentAllKeywords(transcript: string)
    requires forall k :: k in RequiredKeywords ==> IsSubstring(k, Lower(transcript))
    ensures KeyContentCriterion(transcript).score == 100
    ensures KeyContentCriterion(transcript).feedback.coverage == ExcellentCoverage
  {
    FoundAll(Lower(transcript), RequiredKeywords);
    RoundOfInteger(100);
  }

  /** A transcript containing none of the required keywords scores 0 for content. */
  lemma ContentNoKeywords(transcript: string)
    requires forall k :: k in RequiredKeywords ==> !IsSubstring(k, Lower(transcript))
    ensures KeyContentCriterion(transcript).score == 0
    ensures KeyContentCriterion(transcript).feedback.coverage == LowCoverage
  {
    FoundNone(Lower(transcript), RequiredKeywords);
    RoundOfInteger(0);
  }

  // ---------------------------------------------------------------------------
  // Flow and organisation (weight 5)
  // ---------------------------------------------------------------------------

  /**
   * `calculate_flow_and_organization`, given the cosine similarity the embedding
   * model reports between the transcript and the target flow description.
   */
  function FlowAndOrganization(config: Config, similarity: real): (c: Criterion)
    ensures c.name == FlowName && c.weight == 5
    ensures 0 <= c.score <= 100
  {
    var weight := 5;
    if !config.semanticEnabled then
      var score := 50;
      Criterion(FlowName, score, weight, FlowEstimated, (score as real / 100.0) * weight as real)
    else
      var scoreRaw := MaxReal(0.0, similarity * 125.0 - 50.0);
      var score := MinReal(100.0, scoreRaw);
      var tier :=
        if score >= 80.0 then ExcellentFlow
        else if score >= 50.0 then GoodFlow
        else ConfusingFlow;
      RoundBetween(score, 0, 100);
      Criterion(FlowName, RoundHalfEven(score), weight, Flow(tier, similarity), (score / 100.0) * weight as real)
  }

  /** With semantic scoring disabled the flow score is a fixed 50, whatever the similarity. */
  lemma FlowDisabled(config: Config, s1: real, s2: real)
    requires !config.semanticEnabled
    ensures FlowAndOrganization(config, s1) == FlowAndOrganization(config, s2)
    ensures FlowAndOrganization(config, s1).score == 50
    ensures FlowAndOrganization(config, s1).feedback == FlowEstimated
  {
  }

  /** When enabled, the flow score is `round(min(100, max(0, 125 * sim - 50)))`: 0 up to 0.4, 100 from 1.2. */
  lemma FlowClamp(config: Config, similarity: real)
    requires config.semanticEnabled
    ensures similarity <= 0.4 ==> FlowAndOrganization(config, similarity).score == 0
    ensures similarity >= 1.2 ==> FlowAndOrganization(config, similarity).score == 100
    ensures 0.4 <= similarity <= 1.2 ==>
      FlowAndOrganization(config, similarity).score == RoundHalfEven(similarity * 125.0 - 50.0)
  {
    RoundOfInteger(0);
    RoundOfInteger(100);
  }

  /** A higher similarity never gives a lower flow score. */
  lemma FlowMonotone(config: Config, s1: real, s2: real)
    requires s1 <= s2
    ensures FlowAndOrganization(config, s1).score <= FlowAndOrganization(config, s2).score
  {
    if config.semanticEnabled {
      RoundMonotone(MinReal(100.0, MaxReal(0.0, s1 * 125.0 - 50.0)),
                    MinReal(100.0, MaxReal(0.0, s2 * 125.0 - 50.0)));
    }
  }

  // ---------------------------------------------------------------------------
  // Vocabulary richness, type-token ratio (weight 10)
  // ---------------------------------------------------------------------------

  /** `set(words)`. */
  function Distinct(words: seq<string>): set<string> {
    set w | w in words
  }

  /** The type-token ratio as a fraction: `distinct / total`, or `0 / 1` when there are no words. */
  function TtrNumerator(distinct: nat, total: nat): nat { if total == 0 then 0 else distinct }
  function TtrDenominator(distinct: nat, total: nat): nat { if total == 0 then 1 else total }

  /** `ttr >= num / den`, by cross-multiplication. */
  predicate TtrAtLeast(distinct: nat, total: nat, num: nat, den: nat) {
    den * TtrNumerator(distinct, total) >= num * TtrDenominator(distinct, total)
  }

  /** The type-token ratio of the first pair is at most that of the second. */
  predicate TtrAtMost(d1: nat, t1: nat, d2: nat, t2: nat) {
    TtrNumerator(d1, t1) * TtrDenominator(d2, t2) <= TtrNumerator(d2, t2) * TtrDenominator(d1, t1)
  }

  /** The band the type-token ratio falls in, thresholds 0.9, 0.7, 0.5 and 0.3. */
  function VocabularyTierOf(distinct: nat, total: nat): VocabularyTier {
    if TtrAtLeast(distinct, total, 9, 10) then ExcellentVocabulary
    else if TtrAtLeast(distinct, total, 7, 10) then GoodVocabulary
    else if TtrAtLeast(distinct, total, 5, 10) then AverageVocabulary
    else if TtrAtLeast(distinct, total, 3, 10) then LimitedVocabulary
    else VeryLimitedVocabulary
  }

  function VocabularyTierScore(tier: VocabularyTier): int {
    match tier
    case ExcellentVocabulary => 100
    case GoodVocabulary => 80
    case AverageVocabulary => 60
    case LimitedVocabulary => 40
    case VeryLimitedVocabulary => 20
  }

  /** `calculate_type_token_ratio`. */
  function TypeTokenRatio(transcript: string): (c: Criterion)
    ensures c.name == VocabularyName && c.weight == 10
    ensures c.score in {20, 40, 60, 80, 100}
  {
    var weight := 10;
    var words := Words(transcript);
    var totalWords := |words|;
    var distinctWords := |Distinct(words)|;
    var tier := VocabularyTierOf(distinctWords, totalWords);
    var score := VocabularyTierScore(tier);
    Criterion(VocabularyName, score, weight, Vocabulary(tier, distinctWords, totalWords),
              (score as real / 100.0) * weight as real)
  }

  /** There are never more distinct words than words. */
  lemma {:induction false} DistinctAtMostTotal(words: seq<string>)
    ensures |Distinct(words)| <= |words|
  {
    if words != [] {
      var init := words[..|words| - 1];
      DistinctAtMostTotal(init);
      assert words == init + [words[|words| - 1]];
      assert Distinct(words) == Distinct(init) + {words[|words| - 1]};
    }
  }

  /** The ratio lies in [0, 1], and is positive whenever there is a word. */
  lemma TtrInUnitInterval(transcript: string)
    ensures var words := Words(transcript);
      var d, t := |Distinct(words)|, |words|;
      && 0 <= TtrNumerator(d, t) <= TtrDenominator(d, t)
      && (t > 0 ==> TtrNumerator(d, t) > 0)
  {
    var words := Words(transcript);
    DistinctAtMostTotal(words);
    if words != [] {
      assert words[0] in Distinct(words);
    }
  }

  /** A transcript with no words has ratio 0 and so scores 20. */
  lemma TypeTokenRatioEmpty(transcript: string)
    requires Words(transcript) == []
    ensures TypeTokenRatio(transcript).score == 20
    ensures TypeTokenRatio(transcript).feedback.vocabulary == VeryLimitedVocabulary
  {
  }

  /** A ratio at least `p / q` stays at least `p / q` when the ratio grows. */
  lemma ThresholdTransfer(n1: nat, m1: nat, n2: nat, m2: nat, p: nat, q: nat)
    requires m1 > 0 && m2 > 0
    requires n1 * m2 <= n2 * m1
    requires q * n1 >= p * m1
    ensures q * n2 >= p * m2
  {
    calc {
      m1 * (q * n2);
      == q * (n2 * m1);
      >= { MulLeft(q, n1 * m2, n2 * m1); }
      q * (n1 * m2);
      == (q * n1) * m2;
      >= { MulLeft(m2, p * m1, q * n1); }
      m2 * (p * m1);
      == m1 * (p * m2);
    }
    if q * n2 < p * m2 {
      MulStrict(m1, q * n2, p * m2);
    }
  }

  lemma MulLeft(k: nat, a: int, b: int)
    requires a <= b
    ensures k * a <= k * b
  {
  }

  lemma MulStrict(k: nat, a: int, b: int)
    requires k > 0 && a < b
    ensures k * a < k * b
  {
  }

  /** The vocabulary score never decreases as the type-token ratio grows. */
  lemma VocabularyMonotone(d1: nat, t1: nat, d2: nat, t2: nat)
    requires TtrAtMost(d1, t1, d2, t2)
    ensures VocabularyTierScore(VocabularyTierOf(d1, t1)) <= VocabularyTierScore(VocabularyTierOf(d2, t2))
  {
    var n1, m1 := TtrNumerator(d1, t1), TtrDenominator(d1, t1);
    var n2, m2 := TtrNumerator(d2, t2), TtrDenominator(d2, t2);
    forall p | p in {9, 7, 5, 3}
      ensures TtrAtLeast(d1, t1, p, 10) ==> TtrAtLeast(d2, t2, p, 10)
    {
      if TtrAtLeast(d1, t1, p, 10) {
        ThresholdTransfer(n1, m1, n2, m2, p, 10);
      }
    }
  }

  // ---------------------------------------------------------------------------
  // Language and grammar (weight 10)
  // ---------------------------------------------------------------------------

  /**
   * `calculate_grammar_score`, given the issues the grammar tool would report
   * for the transcript; their number is the error count.
   */
  function GrammarScore(config: Config, totalWords: nat, issues: seq<Issue>): (c: Criterion)
    ensures c.name == GrammarName && c.weight == 10
    ensures 0 <= c.score <= 100
  {
    var weight := 10;
    if !config.grammarEnabled then
      var score := 50;
      Criterion(GrammarName, score, weight, GrammarEstimated, (score as real / 100.0) * weight as real)
    else if totalWords < 5 then
      Criterion(GrammarName, 100, weight, GrammarTooShort, weight as real)
    else
      var errorCount := |issues|;
      var errorsPer100 :=
        if totalWords > 0 then (errorCount as real / totalWords as real) * 100.0 else 0.0;
      NonNegativeQuotient(errorCount, totalWords);
      var rubricScore := 1.0 - MinReal(errorsPer100 / 10.0, 1.0);
      RoundBetween(rubricScore * 100.0, 0, 100);
      var score := RoundHalfEven(rubricScore * 100.0);
      var tier :=
        if score >= 90 then ExcellentGrammar
        else if score >= 50 then MinorIssues
        else SignificantIssues;
      var shown := if tier == ExcellentGrammar then [] else Take(issues, 5);
      Criterion(GrammarName, score, weight, Grammar(tier, errorCount, totalWords, shown),
                (score as real / 100.0) * weight as real)
  }

  lemma NonNegativeQuotient(a: nat, b: nat)
    requires b > 0
    ensures a as real / b as real >= 0.0
  {
  }

  /** With the grammar tool disabled the score is a fixed 50, whatever the words and issues. */
  lemma GrammarDisabled(config: Config, w1: nat, w2: nat, i1: seq<Issue>, i2: seq<Issue>)
    requires !config.grammarEnabled
    ensures GrammarScore(config, w1, i1) == GrammarScore(config, w2, i2)
    ensures GrammarScore(config, w1, i1).score == 50
  {
  }

  /** Fewer than five words score 100 and the tool's issues play no part. */
  lemma GrammarShortSample(config: Config, totalWords: nat, i1: seq<Issue>, i2: seq<Issue>)
    requires config.grammarEnabled && totalWords < 5
    ensures GrammarScore(config, totalWords, i1) == GrammarScore(config, totalWords, i2)
    ensures GrammarScore(config, totalWords, i1).score == 100
    ensures GrammarScore(config, totalWords, i1).feedback == GrammarTooShort
  {
  }

  /** The rubric arithmetic of app.py:215-219 is `100 - min(1000 * e / w, 100)`. */
  lemma RubricArithmetic(e: nat, w: nat)
    requires w > 0
    ensures (1.0 - MinReal((e as real / w as real) * 100.0 / 10.0, 1.0)) * 100.0
         == 100.0 - MinReal((1000 * e) as real / w as real, 100.0)
  {
    ScaledQuotient(e, w);
  }

  lemma ScaledQuotient(e: nat, w: nat)
    requires w > 0
    ensures (1000 * e) as real / w as real == 1000.0 * (e as real / w as real)
  {
  }

  /** One error per ten words or more saturates the penalty. */
  lemma SaturatedQuotient(e: nat, w: nat)
    requires w > 0 && 10 * e >= w
    ensures (1000 * e) as real / w as real >= 100.0
  {
    ScaledQuotient(e, w);
    var q := e as real / w as real;
    assert q * w as real == e as real;
    if q < 0.1 {
      MulStrictReal(w as real, q, 0.1);
    }
  }

  /**
   * Otherwise the score is `round(100 - min(1000 * e / w, 100))`:
   * 100 with no error, 0 from one error per ten words.
   */
  lemma GrammarFormula(config: Config, totalWords: nat, issues: seq<Issue>)
    requires config.grammarEnabled && totalWords >= 5
    ensures GrammarScore(config, totalWords, issues).score
         == RoundHalfEven(100.0 - MinReal((1000 * |issues|) as real / totalWords as real, 100.0))
    ensures issues == [] ==> GrammarScore(config, totalWords, issues).score == 100
    ensures 10 * |issues| >= totalWords ==> GrammarScore(config, totalWords, issues).score == 0
  {
    RubricArithmetic(|issues|, totalWords);
    if 10 * |issues| >= totalWords {
      SaturatedQuotient(|issues|, totalWords);
      RoundOfInteger(0);
    }
    RoundOfInteger(100);
  }

  lemma MulStrictReal(k: real, a: real, b: real)
    requires k > 0.0 && a < b
    ensures a * k < b * k
  {
  }

  /** More errors over the same number of words never give a higher grammar score. */
  lemma GrammarMonotone(config: Config, totalWords: nat, i1: seq<Issue>, i2: seq<Issue>)
    requires |i1| <= |i2|
    ensures GrammarScore(config, totalWords, i2).score <= GrammarScore(config, totalWords, i1).score
  {
    if config.grammarEnabled && totalWords >= 5 {
      var w := totalWords as real;
      GrammarFormula(config, totalWords, i1);
      GrammarFormula(config, totalWords, i2);
      QuotientMonotone((1000 * |i1|) as real, (1000 * |i2|) as real, w);
      RoundMonotone(100.0 - MinReal((1000 * |i2|) as real / w, 100.0),
                    100.0 - MinReal((1000 * |i1|) as real / w, 100.0));
    }
  }

  lemma QuotientMonotone(a: real, b: real, w: real)
    requires a <= b && w > 0.0
    ensures a / w <= b / w
  {
  }

  // ---------------------------------------------------------------------------
  // Clarity, filler-word rate (weight 5)
  // ---------------------------------------------------------------------------

  /**
   * `sum(1 for word in words if word in fillers)`: token-exact matches, so a
   * filler entry counts only where a whole token equals it.
   */
  function FillerCount(words: seq<string>, fillers: set<string>): (n: nat)
    ensures n <= |words|
  {
    if words == [] then 0
    else (if words[0] in fillers then 1 else 0) + FillerCount(words[1..], fillers)
  }

  /** The band the filler rate `100 * fillers / words` falls in, thresholds 1, 3, 5 and 10. */
  function ClarityTierOf(fillers: nat, totalWords: nat): ClarityTier {
    if 100 * fillers <= 1 * totalWords then ExcellentClarity
    else if 100 * fillers <= 3 * totalWords then GoodClarity
    else if 100 * fillers <= 5 * totalWords then ModerateClarity
    else if 100 * fillers <= 10 * totalWords then LowClarity
    else VeryLowClarity
  }

  function ClarityTierScore(tier: ClarityTier): int {
    match tier
    case ExcellentClarity => 100
    case GoodClarity => 80
    case ModerateClarity => 60
    case LowClarity => 40
    case VeryLowClarity => 20
  }

  /** `calculate_filler_word_rate`, with the word count the aggregator passes in. */
  function FillerWordRate(transcript: string, totalWords: nat): (c: Criterion)
    ensures c.name == ClarityName && c.weight == 5
    ensures c.score in {20, 40, 60, 80, 100}
  {
    var weight := 5;
    if totalWords == 0 then
      Criterion(ClarityName, 100, weight, ClarityEmpty, weight as real)
    else
      var fillerWordCount := FillerCount(Words(transcript), FillerWords);
      var tier := ClarityTierOf(fillerWordCount, totalWords);
      var score := ClarityTierScore(tier);
      Criterion(ClarityName, score, weight, Clarity(tier, fillerWordCount, totalWords),
                (score as real / 100.0) * weight as real)
  }

  /** Zero words: a perfect 100 without looking at the text. */
  lemma ClarityNoWords(t1: string, t2: string)
    ensures FillerWordRate(t1, 0) == FillerWordRate(t2, 0)
    ensures FillerWordRate(t1, 0).score == 100
  {
  }

  /** More fillers over the same number of words never give a higher clarity score. */
  lemma ClarityAntitone(f1: nat, f2: nat, totalWords: nat)
    requires f1 <= f2
    ensures ClarityTierScore(ClarityTierOf(f2, totalWords)) <= ClarityTierScore(ClarityTierOf(f1, totalWords))
  {
  }

  /** The filler rate lies between 0 and 100 percent of the transcript's words. */
  lemma FillerRateAtMostHundred(transcript: string)
    ensures FillerCount(Words(transcript), FillerWords) <= |Words(transcript)|
  {
  }

  /**
   * With tokens that hold no space, the multi-word entries of `FILLER_WORDS`
   * never match: counting against the full set and against its one-word
   * entries gives the same number.
   */
  lemma {:induction false} MultiWordFillersNeverMatch(words: seq<string>)
    requires forall t :: t in words ==> ' ' !in t
    ensures FillerCount(words, FillerWords) == FillerCount(words, FillerWords - MultiWordFillers)
    decreases |words|
  {
    if words != [] {
      MultiWordFillersNeverMatch(words[1..]);
      if words[0] in FillerWords {
        MultiWordFillersHaveSpaces(words[0]);
      }
    }
  }

  /** Every token of a transcript is a single word, so the multi-word fillers never count. */
  lemma TranscriptFillersAreSingleWords(transcript: string)
    ensures FillerCount(Words(transcript), FillerWords)
         == FillerCount(Words(transcript), FillerWords - MultiWordFillers)
  {
    var words := Words(transcript);
    forall t | t in words ensures ' ' !in t {
      TokensHaveNoSpace(Lower(transcript), t);
    }
    MultiWordFillersNeverMatch(words);
  }
}
