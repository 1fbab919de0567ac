# Rule-based "Am I the Asshole?" judgment classifier

This project models the judgment engine of a small web service that judges
user-described interpersonal situations. Each judgment has three parts: a verdict,
either `YTA` ("you're the asshole") or `NTA` ("not the asshole"); a severity score
from 1 to 10; and a reasoning sentence.

The core is `analyzeWithRules`, the rule-based classifier. It is a fixed cascade of
ten tiers, and the first tier that matches wins:

- Each tier's predicate is a boolean combination of raw substring tests on the
  lower-cased text.
- Each tier has a fixed verdict and a fixed score.
- Each tier draws its reasoning from its own constant pool, using one `Math.random()`
  draw.

Around the classifier, the project models these pure parts of `analyzeSituation`:

- the follow-up merge and lower-casing;
- the fallback to the rules when there is no AI provider or the AI call fails;
- the verdict, score and reasoning normalisation applied to an AI answer;
- the score sanitiser that the follow-up route applies before it stores a judgment.

Modules:

- `Wrappers`: `Option`.
- `Text`: `Contains`, which models JavaScript `includes`; neighbouring character pairs;
  ASCII `ToLower`/`ToUpper`; blank strings.
- `Rules`: the tiers, the cascade `Classify`, the pools, `PickIndex` and
  `AnalyzeWithRules`.
- `RuleProperties`: consequences of the cascade order and of raw substring matching.
- `Orchestrator`: `MergeContext`, AI normalisation, `AnalyzeSituation`, and `StoredScore`.

The random draw is a parameter `draw` with `0.0 <= draw < 1.0`, which is what
`Math.random()` returns. The reasoning index is `Floor(draw * n)`, and it is proved to be
below the pool size.

## Model

| member | source | states |
|---|---|---|
| `Text.ContainsIffOccurs` | server.js:152-161 | `includes` is raw substring containment: true exactly when the phrase occurs at some index of the text |
| `Text.ContainsTransitive` | server.js:152-161 | a phrase inside a phrase found in the text is found in the text |
| `Text.ContainsInPrefix` | server.js:15-19 | appending text never removes a phrase already present |
| `Text.ContainsInSuffix` | server.js:15-19 | prepending text never removes a phrase already present |
| `Text.ToLowerAppend` | server.js:19 | lower-casing the merged text lower-cases each of its parts |
| `Text.ContainedPairsWithin` | server.js:15-19 | a phrase found in a text has no pair of neighbouring characters that the text lacks |
| `Text.ToUpperOfLower` | server.js:76 | upper-casing ignores any earlier lower-casing |
| `Rules.Classify` | server.js:151-330 | the branch that runs is the first tier, in severity order, whose predicate holds on the text |
| `Rules.FirstMatchUnique` | server.js:151-330 | exactly one tier is the first match, so the cascade's choice is determined by the text |
| `Rules.MostSevereWins` | server.js:151-330 | a text matching tier j is classified at j or at a more severe tier, and at j exactly when no earlier tier matches |
| `Rules.VerdictMatchesScore` | server.js:146-332 | every tier score is in [1,10], and a tier's verdict is YTA exactly when its score is at least 6 |
| `Rules.PoolShape` | server.js:164-329 | the pools have 4 or 6 entries (6 for the conciliatory and honest-mistake tiers), and none is empty |
| `Rules.PickIndex` | server.js:170 | `Math.floor(Math.random() * n)` is a valid index of an n-entry pool |
| `Rules.EveryIndexDrawable` | server.js:170 | every entry of a pool can be selected by some draw |
| `Rules.AnalyzeWithRules` | server.js:146-333 | the verdict and score are those of the first-match tier, and the reasoning is the entry of that tier's pool at index `Floor(draw * n)`; the score is one of 10, 9, 8, 7, 6, 2, 3, 5 and lies in [1,10]; the verdict is YTA exactly when the score is at least 6 |
| `Rules.EveryResponseReachable` | server.js:164-171 | every entry of the fired tier's pool is the reasoning given for some draw in [0,1) |
| `RuleProperties.MisconductOutranksExcuses` | server.js:151-298 | if any YTA tier matches, the verdict is YTA with at least that tier's score, whatever excuses the text contains |
| `RuleProperties.YelledAtDespiteSorry` | server.js:262-298 | "yelled at" together with "sorry" gives YTA with a score of at least 6, never the NTA/2 tier; the score is exactly 6 when no more severe tier matches |
| `RuleProperties.ViolenceOnVulnerableIsWorst` | server.js:152-171 | any violence verb plus any vulnerable target gives YTA/10 with a reasoning from the first pool, even with "sorry" or "accident" in the text |
| `RuleProperties.TierNeedsItsPhrase` | server.js:152-306 | a tier other than the catch-all fires only when the text contains one of that tier's phrases |
| `RuleProperties.NoPhraseIsNeutral` | server.js:320-330 | a text with none of the listed phrases falls through to the catch-all: NTA, 5, and a reasoning from the neutral pool |
| `RuleProperties.PhrasesMatchInsideWords` | server.js:152-224 | matching ignores word boundaries: "hit" is in "white", "pet" in "compete", "kid" in "kidding", "lied" in "replied" |
| `RuleProperties.WhiteKiddingIsViolenceOnChild` | server.js:152-171 | as a result, any text containing "white" and "kidding" is judged YTA/10 |
| `Orchestrator.MergeContext` | server.js:15-17 | with a non-empty follow-up, the merged text is the situation, then exactly the separator `"\n\nAdditional context: "`, then the follow-up; with no follow-up or an empty one, it is the situation unchanged |
| `Orchestrator.SeparatorHasNoTierPhrase` | server.js:15-19 | the lower-cased separator contains no phrase of any tier, so the merge adds no wording of its own that a tier reacts to |
| `Orchestrator.FollowUpPhraseReachesRules` | server.js:15-19 | any phrase in the lower-cased follow-up is present in the text the classifier sees |
| `Orchestrator.SituationPhraseReachesRules` | server.js:15-19 | any phrase in the lower-cased situation is present in the text the classifier sees, whatever the follow-up |
| `Orchestrator.PurposefulForgettingIsNoMistake` | server.js:306 | "on purpose" in the follow-up, in any letter case, stops the "forgot" clause from firing on the merged text; the honest-mistake tier can then fire only through its other phrases |
| `Orchestrator.AiVerdict` | server.js:79-83 | an AI answer is YTA exactly when one of the markers "YTA", "YOU'RE THE ASSHOLE", "YOU ARE THE ASSHOLE" occurs at some index of its upper-cased text |
| `Orchestrator.AiVerdictIgnoresCase` | server.js:76-79 | the AI verdict does not depend on the letter case of the answer |
| `Orchestrator.NegatedYtaReadsAsYta` | server.js:79 | an answer containing "not YTA" is read as YTA |
| `Orchestrator.ClampScore` | server.js:89-91 | the clamped score is in [1,10], equals the input when the input is in range, and is otherwise the nearest value in range |
| `Orchestrator.AiScore` | server.js:86-95 | a parsed score is clamped into [1,10]; with no match, the score is 7 for YTA and 3 for NTA |
| `Orchestrator.AiReasoning` | server.js:120-125 | a blank reasoning is replaced by the verdict's default sentence, and any other reasoning is kept; the result is never empty |
| `Orchestrator.AnalyzeSituation` | server.js:13-143 | the score is in [1,10] and the reasoning is non-empty; `aiUsed` holds exactly when the AI answered; without an answer, the judgment is exactly `AnalyzeWithRules` on the lower-cased merged text; with an answer, it is the normalised AI verdict, score and reasoning and the provider is reported; otherwise no provider is reported; `aiError` is the failure's message exactly when the AI call failed |
| `Orchestrator.AnalyzeSituationAsWritten` | server.js:129-136 | as written, the call rejects exactly when the AI call failed; otherwise it resolves with the intended analysis |
| `Orchestrator.AiFailureIsRejected` | server.js:130-135 | on an AI failure, the code as written rejects, while the intended fallback resolves with the rules judgment |
| `Orchestrator.FallbackIsRules` | server.js:134-141 | with no API key or after an AI failure: `aiUsed` is false, the verdict is YTA exactly when the score is at least 6, the score is a tier score, and the reasoning comes from the fired tier's pool |
| `Orchestrator.StoredScore` | server.js:765 | the sanitised score, `parseInt(score)` with NaN and 0 replaced by 5 and then clamped, lies in [1,10]; NaN and 0 give 5; in-range scores are kept |
| `Orchestrator.FollowUpStoresAnalysedScore` | server.js:761-765 | the follow-up route stores exactly the score that `analyzeSituation` produced |

## Findings

| source | as written | input that shows it | evidently intended | confidence | as-written member | corrected member |
|---|---|---|---|---|---|---|
| server.js:131 | The `catch` block reads `apiProvider`. That variable is declared with `let` inside the `try` block (line 35), so it is out of scope in the `catch` block. Reading it throws a ReferenceError, so lines 132-135 never run and `analyzeSituation` rejects. | `OPENAI_API_KEY` is set and the completion call throws, for example on a network error. | Log the error, then return the rules judgment with `aiUsed: false` and `aiError`, as the comments at lines 132-133 say. | high; not executed | `Orchestrator.AiFailureIsRejected` | `Orchestrator.AnalyzeSituation` |

Because of this finding, the model differs from the code in one place. The rest of the
model uses the corrected `AnalyzeSituation`, in which an AI failure falls back to the
rules. `AnalyzeSituationAsWritten` shows what the code actually does: the call rejects,
and the submission and follow-up routes turn that into a 500 response.

## Left out

- Express routing, CORS, sessions, `requireAuth`/`requireAdmin`, the SQLite schema and
  queries, bcrypt, and the admin statistics: HTTP plumbing, database I/O and foreign
  library calls.
- The OpenAI client call, provider selection from environment variables, and logging:
  network I/O and process environment. The provider outcome is the parameter
  `AiOutcome`, which carries the provider name.
- The regular expressions behind the AI score and reasoning (server.js:86, 98-118):
  - the score match is abstracted as `Option<nat>`;
  - the extracted reasoning is a parameter;
  - only the final blank-reasoning guard (server.js:120-125) is modelled.
- `Rules.PickIndex`: `Math.random() * n` is a floating-point product, modelled here as an exact
  real product. Rounding is not modelled; for pools of 4 and 6 entries and a draw below 1 the
  floored index is below n either way.
- `Math.random` itself: it is the parameter `draw`. Uniformity of the choice is not
  modelled; `Rules.EveryIndexDrawable` shows only that every entry can be drawn.
- `toLowerCase`/`toUpperCase` are modelled on ASCII letters only. JavaScript also maps
  non-ASCII letters, and `toUpperCase` can change a string's length (for example "ß"
  becomes "SS").
- `trim` is modelled through `IsBlank`, using ASCII whitespace only. The trimming of the
  stored judgment, reasoning and follow-up strings (server.js:764, 766-767) is not
  modelled; for the `YTA`/`NTA` verdicts it changes nothing.
- `StoredScore`: its input is the value of `parseInt(score)`. Float and precision
  effects of JavaScript numbers are not modelled, and the scores that reach it are
  small integers.
- `AiScore` takes the captured digits as an unbounded natural number. `parseInt` of a
  very long digit string, which would lose precision, is not modelled.
- The unused second parameter `fullContext` of `analyzeWithRules` is dropped.
- Whole-sentence examples, such as the park sentence or "I forgot the meeting" with the
  follow-up "I forgot on purpose", are covered by the general lemmas
  `RuleProperties.NoPhraseIsNeutral` and `Orchestrator.PurposefulForgettingIsNoMistake`.
  No lemma is stated about those literal sentences.
