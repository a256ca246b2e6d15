# Self-introduction scoring engine, in Dafny

This project models the scoring engine of `app.py`, a small web service that
grades a spoken self-introduction from its transcript. The engine turns a
transcript into five criterion scores from 0 to 100 and combines them into one
weighted overall score out of 100. The five criteria are:

- key content presence (weight 30);
- flow and organisation (weight 5);
- vocabulary richness by type-token ratio (weight 10);
- language and grammar by error count (weight 10);
- clarity by filler-word rate (weight 5).

Modules:

- `Numeric` (numeric.dfy): Python's `round` (half to even) on exact rationals, with `min` and `max`.
- `Text` (text.dfy): `str.lower()`, the word tokenizer `re.findall(r'\b\w+\b', ...)` and the substring test `k in s`.
- `Rubric` (rubric.dfy): the keyword list, the filler set, the criterion names, the weight table, and the
  criterion record with its feedback tier.
- `Scorers` (scorers.dfy): the five scorers.
  - `KeyContentPresence` is a method with the source's loop, proved against the function `KeyContentCriterion`.
  - The other four scorers are functions, as they are in the source.
- `Aggregator` (aggregator.dfy): `calculate_final_score`, a method.
  - It applies the 10-word gate and runs the five scorers.
  - Its weighting loop (`ApplyTargetWeights`) overwrites each weight from the table and accumulates the weighted points.

The engine's collaborators are inputs of the model:

- the two availability flags decided at start-up form a `Config`;
- the cosine similarity of the transcript to the target flow description is a `real`;
- the grammar tool's matches are a sequence of `Issue`, whose length is the error count.

"The tool is not called" is stated as independence: on those paths the result is the same for
any `issues` (or any `similarity`).

Python floats are modelled as exact rationals (`real`). Ratio thresholds (type-token ratio, filler
rate) are compared by integer cross-multiplication: `ttr >= 0.9` is `10 * distinct >= 9 * total`,
and `filler_rate <= 1.0` is `100 * count <= total`. The aggregator keeps its running total as the
integer `Σ score * weight`, which is 100 times the source's `total_raw_score_60`.

The keyword list in `app.py` has 13 entries. Some descriptions of the project say 14 keywords. The
model follows the code, so the coverage denominator is 13.

## Model

| member | source | states |
|---|---|---|
| `Numeric.RoundHalfEven` | app.py:219 | the result is an integer within 0.5 of the argument, and the even one on a tie (Python's `round`) |
| `Numeric.RoundUnique` | app.py:331 | any integer meeting the rounding rule is the one `RoundHalfEven` returns, so rounding is well defined |
| `Numeric.RoundBetween` | app.py:92 | a value between two integers rounds to an integer between them |
| `Text.RunLength` | app.py:149 | the length of the longest word-character prefix: every character before it is a word character, the one at it is not |
| `Text.Tokenize` | app.py:149 | every token is a non-empty run of word characters |
| `Text.TokenizeSeparator` | app.py:292 | a non-word character splits the text: the tokens of `a + [c] + b` are those of `a` followed by those of `b` |
| `Text.TokenizeRun` | app.py:292 | a single run of word characters is exactly one token |
| `Text.TokenizeNoWordChars` | app.py:292-293 | a text without word characters, such as an empty or blank one, has zero tokens |
| `Text.TokensHaveNoSpace` | app.py:255 | no token contains a space |
| `Text.SubstringIff` | app.py:72 | `k in s` holds exactly when `k` occurs in `s` at some index |
| `Rubric.TargetWeightTable` | app.py:316-322 | `target_weights.get(name, 0)` is 30/5/10/10/5 for the five criterion names and 0 for every other name |
| `Rubric.MultiWordFillersHaveSpaces` | app.py:53-57 | the multi-word entries of `FILLER_WORDS` are exactly the ones containing a space |
| `Scorers.KeyContentPresence` | app.py:61-96 | the loop over the keywords returns the content criterion of the lower-cased transcript; the found count is the number of keywords found, at most 13 |
| `Scorers.KeyContentCriterion` | app.py:90-96 | the content criterion is named "Key Content Presence", has weight 30 and a score in 0..100 |
| `Scorers.Found` | app.py:71-74 | never more keywords are found than there are keywords |
| `Scorers.FoundIff` | app.py:71-74 | a keyword is found exactly when it is in the list and occurs as a substring of the text |
| `Scorers.FoundAll` | app.py:71-74 | when every keyword occurs, all of them are found, in list order |
| `Scorers.FoundNone` | app.py:71-74 | when no keyword occurs, nothing is found |
| `Scorers.CoverageResultProperties` | app.py:77-93 | the score is `round(100 * found / 13)` in 0..100; the tier, chosen on the unrounded percentage, is Excellent exactly from 12 keywords and Good exactly from 8 to 11 |
| `Scorers.ContentAllKeywords` | app.py:71-92 | a transcript containing every keyword scores 100 with the Excellent tier |
| `Scorers.ContentNoKeywords` | app.py:71-92 | a transcript containing no keyword scores 0 with the Low tier |
| `Scorers.FlowAndOrganization` | app.py:98-139 | the flow criterion has its name, weight 5 and a score in 0..100 on both paths |
| `Scorers.FlowDisabled` | app.py:104-114 | with semantic scoring disabled the score is 50 with the estimated feedback, and the similarity plays no part |
| `Scorers.FlowClamp` | app.py:123-124 | enabled, the score is 0 for similarity up to 0.4, 100 from 1.2, and `round(125 * sim - 50)` in between |
| `Scorers.FlowMonotone` | app.py:123-135 | a higher similarity never gives a lower flow score |
| `Scorers.TypeTokenRatio` | app.py:141-181 | the vocabulary criterion has its name, weight 10 and a score in {20, 40, 60, 80, 100} |
| `Scorers.DistinctAtMostTotal` | app.py:150-151 | there are never more distinct words than words |
| `Scorers.TtrInUnitInterval` | app.py:153-156 | the type-token ratio lies in [0, 1], and is positive when there is a word |
| `Scorers.TypeTokenRatioEmpty` | app.py:153-173 | a transcript with no words has ratio 0 and scores 20 in the lowest tier |
| `Scorers.VocabularyMonotone` | app.py:159-173 | the band score never decreases as the ratio grows, across the thresholds 0.9, 0.7, 0.5 and 0.3 |
| `Scorers.GrammarScore` | app.py:183-237 | the grammar criterion has its name, weight 10 and a score in 0..100 on all three paths |
| `Scorers.GrammarDisabled` | app.py:190-199 | with the tool disabled the score is 50, whatever the word count and the issues |
| `Scorers.GrammarShortSample` | app.py:201-208 | fewer than five words score 100 with the too-short feedback, and the issues play no part |
| `Scorers.GrammarFormula` | app.py:211-219 | otherwise the score is `round(100 - min(1000 * e / w, 100))`; no error gives 100 and one error per ten words or more gives 0 |
| `Scorers.GrammarMonotone` | app.py:212-219 | more errors over the same number of words never give a higher grammar score |
| `Scorers.FillerCount` | app.py:257 | the filler count never exceeds the number of words |
| `Scorers.FillerWordRate` | app.py:239-285 | the clarity criterion has its name, weight 5 and a score in {20, 40, 60, 80, 100} |
| `Scorers.ClarityNoWords` | app.py:246-253 | zero words give 100, whatever the text |
| `Scorers.ClarityAntitone` | app.py:259-277 | more fillers over the same number of words never give a higher clarity score, across the thresholds 1, 3, 5 and 10 percent |
| `Scorers.FillerRateAtMostHundred` | app.py:255-259 | a transcript has no more fillers than words |
| `Scorers.MultiWordFillersNeverMatch` | app.py:257 | over tokens without spaces, counting against `FILLER_WORDS` equals counting against its one-word entries only |
| `Scorers.TranscriptFillersAreSingleWords` | app.py:255-257 | for every transcript the multi-word fillers such as "you know" never count |
| `Aggregator.CalculateFinalScore` | app.py:287-338 | rejected with the too-short error exactly when there are fewer than 10 words; otherwise the report holds the five scorers' criteria reweighted from the table (which leaves them as they are), the overall score computed from them in 0..100, the word count, the weights 30/5/10/10/5 and the total possible weight 60 |
| `Aggregator.ApplyTargetWeights` | app.py:326-329 | the loop gives each criterion its table weight and keeps its other fields; the accumulated total is the weighted sum over the reweighted list |
| `Aggregator.Reweighted` | app.py:326-328 | each criterion's weight becomes `target_weights.get(name, 0)`; its name, score, feedback and raw score do not change |
| `Aggregator.ScorerCriteria` | app.py:300-313 | the five scorers' criteria come in the order content, flow, vocabulary, grammar, clarity, with weights 30/5/10/10/5 and scores in 0..100 |
| `Aggregator.ReweightKeepsScorerWeights` | app.py:316-329 | overwriting the weights from the table changes none of the scorers' criteria, and their overall score lies in 0..100 |
| `Aggregator.FiveCriteria` | app.py:316-334 | five criteria with the standard names and scores in 0..100 get the table weights, and their overall score lies in 0..100 |
| `Aggregator.OverallScoreBounds` | app.py:331-334 | scores in 0..100 and weights that are not negative give an overall score in 0..100 |
| `Aggregator.OverallScoreFormula` | app.py:323-334 | after reweighting, the overall score is `min(100, round((30 c + 5 f + 10 v + 10 g + 5 k) / 60))` |
| `Aggregator.OverallScoreExamples` | app.py:323-334 | all scores 100 give 100, all 0 give 0, and the scores (60, 50, 80, 90, 80) give `round(4150 / 60) = 69` |

## Left out

- Flask application, routes and HTTP error mapping (app.py:35, app.py:341-371): web I/O. The route's empty-transcript check is part of that layer.
- Loading of the embedding model and the grammar tool, with their `print` logging (app.py:8-32): start-up code calling foreign libraries. Only the two availability flags that result are modelled, as `Rubric.Config`.
- The embedding and cosine similarity (app.py:117-120): a foreign floating-point computation. The similarity is an input.
- `grammar_tool.check` and the match objects (app.py:211, app.py:222): a foreign call. Its matches are an input sequence of `Issue`, whose length is the error count.
- Feedback wording and the `:.2f` number formatting (for example app.py:84-88 and app.py:161-173): presentation. Feedback is the tier it was chosen from, plus the counts or the similarity it embeds and the first five found keywords or issues it lists.
- The `raw_score_<weight>` key names: each criterion's raw score is the field `raw`.
- `TARGET_FLOW_DESCRIPTION` (app.py:40-45): it only feeds the embedding, which is an input.
- Text.Words: `\w` and `str.lower()` are taken on ASCII only, so non-ASCII letters and digits are not word characters here, and non-ASCII upper-case letters are not lowered.
- Numeric.RoundHalfEven: rounds exact rationals. The binary floating-point results of `score / 100 * weight`, `error_count / total_words * 100` and similar are not modelled bit for bit, so a value that a float computation pushes just across a tie or a threshold can round differently in the source.
