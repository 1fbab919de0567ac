/** `analyzeSituation` (server.js:13-143) around the rule classifier: merging the follow-up
    into the situation, normalising an AI answer, and falling back to the rules; plus the
    score sanitiser applied before a follow-up judgment is stored (server.js:765). */
module Orchestrator {
  import opened Wrappers
  import opened Text
  import opened Rules
  import opened RuleProperties

  /** The label put between the situation and its follow-up. */
  const Separator: string := "\n\nAdditional context: "

  /** The merged context: the follow-up, when it is present and not the empty string (both
      `null` and `""` are falsy in JavaScript), is appended after the separator. */
  function MergeContext(situation: string, followUp: Option<string>): (full: string)
    ensures followUp.None? || followUp.value == [] ==> full == situation
    ensures followUp.Some? && followUp.value != [] ==>
              |full| == |situation| + |Separator| + |followUp.value|
              && StartsWith(full, situation)
              && full[|situation|..|situation| + |Separator|] == Separator
              && full[|full| - |followUp.value|..] == followUp.value
  {
    if followUp.Some? && followUp.value != [] then situation + Separator + followUp.value
    else situation
  }

  /** The pairs of neighbouring characters in the lower-cased separator. */
  const SeparatorNeighbours: set<(char, char)> :=
    {('\n', '\n'), ('\n', 'a'), ('a', 'd'), ('d', 'd'), ('d', 'i'), ('i', 't'), ('t', 'i'),
     ('i', 'o'), ('o', 'n'), ('n', 'a'), ('a', 'l'), ('l', ' '), (' ', 'c'), ('c', 'o'),
     ('n', 't'), ('t', 'e'), ('e', 'x'), ('x', 't'), ('t', ':'), (':', ' ')}

  lemma SeparatorPairs()
    ensures PairsWithin(ToLower(Separator), SeparatorNeighbours)
  {
    assert Separator == ['\n', '\n', 'A', 'd', 'd', 'i', 't', 'i', 'o', 'n', 'a', 'l', ' ', 'c', 'o', 'n',
                         't', 'e', 'x', 't', ':', ' '];
    LowerPairsWithin(Separator, SeparatorNeighbours);
  }

  /** `p` has, among its first three characters, a neighbouring pair the separator lacks. */
  predicate OpensForeign(p: string) {
    |p| >= 3 && ((p[0], p[1]) !in SeparatorNeighbours || (p[1], p[2]) !in SeparatorNeighbours)
  }

  // One lemma per tier keeps each proof over literal phrases small.
  lemma OpeningHarmToVulnerable()
    ensures forall p :: p in TierPhrases(HarmToVulnerable) ==> OpensForeign(p)
  {
  }

  lemma OpeningSexualOrPrivacyCrime()
    ensures forall p :: p in TierPhrases(SexualOrPrivacyCrime) ==> OpensForeign(p)
  {
  }

  lemma OpeningPhysicalViolence()
    ensures forall p :: p in TierPhrases(PhysicalViolence) ==> OpensForeign(p)
  {
  }

  lemma OpeningBigotry()
    ensures forall p :: p in TierPhrases(Bigotry) ==> OpensForeign(p)
  {
  }

  lemma OpeningSeriousWrongdoing()
    ensures forall p :: p in TierPhrases(SeriousWrongdoing) ==> OpensForeign(p)
  {
  }

  lemma OpeningInconsiderate()
    ensures forall p :: p in TierPhrases(Inconsiderate) ==> OpensForeign(p)
  {
  }

  lemma OpeningVerbalAggression()
    ensures forall p :: p in TierPhrases(VerbalAggression) ==> OpensForeign(p)
  {
  }

  lemma OpeningConciliatory()
    ensures forall p :: p in TierPhrases(Conciliatory) ==> OpensForeign(p)
  {
  }

  lemma OpeningHonestMistake()
    ensures forall p :: p in TierPhrases(HonestMistake) ==> OpensForeign(p)
  {
  }

  lemma Openings(k: Tier)
    ensures forall p :: p in TierPhrases(k) ==> OpensForeign(p)
  {
    match k
    case HarmToVulnerable => OpeningHarmToVulnerable();
    case SexualOrPrivacyCrime => OpeningSexualOrPrivacyCrime();
    case PhysicalViolence => OpeningPhysicalViolence();
    case Bigotry => OpeningBigotry();
    case SeriousWrongdoing => OpeningSeriousWrongdoing();
    case Inconsiderate => OpeningInconsiderate();
    case VerbalAggression => OpeningVerbalAggression();
    case Conciliatory => OpeningConciliatory();
    case HonestMistake => OpeningHonestMistake();
    case Neutral =>
  }

  /** The separator the merge inserts contains, once lower-cased, no phrase of any tier: the
      merge adds no wording of its own that the classifier could react to. */
  lemma SeparatorHasNoTierPhrase(k: Tier, p: string)
    requires p in TierPhrases(k)
    ensures !Contains(ToLower(Separator), p)
  {
    Openings(k);
    SeparatorPairs();
    ContainedPairsWithin(ToLower(Separator), p, SeparatorNeighbours);
  }

  /** Any phrase found in the lower-cased follow-up is seen by the classifier. */
  lemma FollowUpPhraseReachesRules(situation: string, followUp: string, p: string)
    requires Contains(ToLower(followUp), p)
    ensures Contains(ToLower(MergeContext(situation, Some(followUp))), p)
  {
    ContainsNeedsRoom(ToLower(followUp), p);
    if followUp != [] {
      LowerContainsInSuffix(situation + Separator, followUp, p);
    }
  }

  /** Any phrase found in the lower-cased situation is seen by the classifier, whatever the
      follow-up. */
  lemma SituationPhraseReachesRules(situation: string, followUp: Option<string>, p: string)
    requires Contains(ToLower(situation), p)
    ensures Contains(ToLower(MergeContext(situation, followUp)), p)
  {
    if followUp.Some? && followUp.value != [] {
      ToLowerAppend(situation, Separator + followUp.value);
      ContainsInPrefix(ToLower(situation), ToLower(Separator + followUp.value), p);
      assert situation + Separator + followUp.value == situation + (Separator + followUp.value);
    }
  }

  /** "on purpose" in the follow-up, in any letter case, keeps the "forgot" clause of the
      honest-mistake tier from firing on the merged text: that tier can then only be reached
      through its other phrases. */
  lemma PurposefulForgettingIsNoMistake(situation: string, followUp: string)
    requires Contains(ToLower(followUp), "on purpose")
    ensures !ForgotInnocently(ToLower(MergeContext(situation, Some(followUp))))
    ensures Classify(ToLower(MergeContext(situation, Some(followUp)))) == HonestMistake ==>
              MistakeWording(ToLower(MergeContext(situation, Some(followUp))))
  {
    FollowUpPhraseReachesRules(situation, followUp, "on purpose");
  }

  // ---------------------------------------------------------------------------
  // Normalising an AI answer (server.js:76-125).
  // ---------------------------------------------------------------------------

  /** The markers whose presence in the upper-cased answer makes it a YTA verdict. */
  const YtaMarkers: set<string> := {"YTA", "YOU'RE THE ASSHOLE", "YOU ARE THE ASSHOLE"}

  /** The verdict read from an AI answer: YTA exactly when one of the markers occurs in its
      upper-cased text, NTA otherwise. */
  function AiVerdict(response: string): (v: Verdict)
    ensures v == YTA <==> exists m, i :: m in YtaMarkers && OccursAt(ToUpper(response), m, i)
  {
    var upper := ToUpper(response);
    ContainsIffOccurs(upper, "YTA");
    ContainsIffOccurs(upper, "YOU'RE THE ASSHOLE");
    ContainsIffOccurs(upper, "YOU ARE THE ASSHOLE");
    assert "YTA" in YtaMarkers && "YOU'RE THE ASSHOLE" in YtaMarkers && "YOU ARE THE ASSHOLE" in YtaMarkers;
    if Contains(upper, "YTA") || Contains(upper, "YOU'RE THE ASSHOLE") || Contains(upper, "YOU ARE THE ASSHOLE")
    then YTA
    else NTA
  }

  /** The AI verdict does not depend on the letter case of the answer. */
  lemma AiVerdictIgnoresCase(response: string)
    ensures AiVerdict(ToLower(response)) == AiVerdict(response)
  {
    ToUpperOfLower(response);
  }

  /** The marker is found as a raw substring, so an answer that says "not YTA" reads as YTA. */
  lemma NegatedYtaReadsAsYta(response: string)
    requires Contains(ToUpper(response), "NOT YTA")
    ensures AiVerdict(response) == YTA
  {
    OccurrenceGivesContains("NOT YTA", "YTA", 4);
    ContainsTransitive(ToUpper(response), "NOT YTA", "YTA");
  }

  function Distance(a: int, b: int): nat {
    if a < b then b - a else a - b
  }

  /** `if (score < 1) score = 1; if (score > 10) score = 10;` and likewise
      `Math.max(1, Math.min(10, x))`: the value of [1,10] nearest to `x`. */
  function ClampScore(x: int): (s: int)
    ensures 1 <= s <= 10
    ensures 1 <= x <= 10 ==> s == x
    ensures forall y :: 1 <= y <= 10 ==> Distance(s, x) <= Distance(y, x)
  {
    if x < 1 then 1 else if x > 10 then 10 else x
  }

  /** The score of an AI answer. `scoreMatch` is the number the first matching pattern
      ("N/10", "score: N", a standalone 1-10) captured, `None` when none matched. */
  function AiScore(scoreMatch: Option<nat>, v: Verdict): (s: int)
    ensures 1 <= s <= 10
    ensures scoreMatch.Some? && 1 <= scoreMatch.value <= 10 ==> s == scoreMatch.value
    ensures scoreMatch.Some? && scoreMatch.value == 0 ==> s == 1
    ensures scoreMatch.Some? && scoreMatch.value > 10 ==> s == 10
    ensures scoreMatch.None? ==> s == (if v == YTA then 7 else 3)
  {
    match scoreMatch
    case Some(n) => ClampScore(n)
    case None => if v == YTA then 7 else 3
  }

  const DefaultYtaReasoning: string :=
    "Based on the situation described, your actions were inappropriate and harmful to others."
  const DefaultNtaReasoning: string :=
    "Based on the situation described, your actions were reasonable and justified."

  /** The final guard on an AI reasoning: a blank reasoning is replaced by the verdict's
      default sentence. `extracted` is the reasoning the regex extraction produced. */
  function AiReasoning(extracted: string, v: Verdict): (r: string)
    ensures |r| > 0
    ensures !IsBlank(extracted) ==> r == extracted
    ensures IsBlank(extracted) ==> r == (if v == YTA then DefaultYtaReasoning else DefaultNtaReasoning)
  {
    if IsBlank(extracted) then (if v == YTA then DefaultYtaReasoning else DefaultNtaReasoning)
    else extracted
  }

  // ---------------------------------------------------------------------------
  // `analyzeSituation`.
  // ---------------------------------------------------------------------------

  /** What the AI provider did. With no API key it is not called; otherwise it either
      throws (`message` is the error's message) or answers, and the answer is described by
      its raw text, the abstracted score match and the extracted reasoning. */
  datatype AiOutcome =
    | NoApiKey
    | AiFailed(provider: string, message: string)
    | AiAnswered(provider: string, response: string, scoreMatch: Option<nat>, extracted: string)

  /** The object `analyzeSituation` resolves to. */
  datatype Analysis = Analysis(
    judgment: Judgment, aiUsed: bool, aiProvider: Option<string>, aiError: Option<string>)

  /** `analyzeSituation(situation, followUpContext)` with the fallback the `catch` block is
      written to perform: on an AI failure, the rules judge the merged, lower-cased text. */
  function AnalyzeSituation(situation: string, followUp: Option<string>, ai: AiOutcome, draw: real)
    : (a: Analysis)
    requires 0.0 <= draw < 1.0
    ensures 1 <= a.judgment.score <= 10 && |a.judgment.reasoning| > 0
    ensures a.aiUsed <==> ai.AiAnswered?
    ensures !ai.AiAnswered? ==>
              a.judgment == AnalyzeWithRules(ToLower(MergeContext(situation, followUp)), draw)
    ensures ai.AiAnswered? ==>
              && a.judgment.verdict == AiVerdict(ai.response)
              && a.judgment.score == AiScore(ai.scoreMatch, a.judgment.verdict)
              && a.aiProvider == Some(ai.provider)
    ensures ai.AiAnswered? ==> a.judgment.reasoning == AiReasoning(ai.extracted, a.judgment.verdict)
    ensures a.aiError == (if ai.AiFailed? then Some(ai.message) else None)
    ensures !ai.AiAnswered? ==> a.aiProvider == None
  {
    var lower := ToLower(MergeContext(situation, followUp));
    match ai
    case NoApiKey =>
      Analysis(AnalyzeWithRules(lower, draw), false, None, None)
    case AiFailed(_, message) =>
      Analysis(AnalyzeWithRules(lower, draw), false, None, Some(message))
    case AiAnswered(provider, response, scoreMatch, extracted) =>
      var v := AiVerdict(response);
      Analysis(Judgment(v, AiScore(scoreMatch, v), AiReasoning(extracted, v)), true, Some(provider), None)
  }

  /** How the call settles: resolved with an analysis, or rejected with an error message. */
  datatype Settled = Resolved(analysis: Analysis) | Rejected(error: string)

  /** `analyzeSituation` as written: `apiProvider` is declared with `let` inside the `try`
      block, so the `catch` block's first statement, which reads it, throws a ReferenceError
      and the fallback after it never runs. */
  function AnalyzeSituationAsWritten(situation: string, followUp: Option<string>, ai: AiOutcome, draw: real)
    : (o: Settled)
    requires 0.0 <= draw < 1.0
    ensures o.Rejected? <==> ai.AiFailed?
    ensures o.Resolved? ==> o.analysis == AnalyzeSituation(situation, followUp, ai, draw)
  {
    if ai.AiFailed? then Rejected("apiProvider is not defined")
    else Resolved(AnalyzeSituation(situation, followUp, ai, draw))
  }

  /** As written, an AI failure never yields the rules judgment: the call rejects, while the
      intended fallback would have resolved with the rules' verdict, score and reasoning. */
  lemma AiFailureIsRejected(situation: string, followUp: Option<string>, provider: string, message: string, draw: real)
    requires 0.0 <= draw < 1.0
    ensures AnalyzeSituationAsWritten(situation, followUp, AiFailed(provider, message), draw).Rejected?
    ensures AnalyzeSituation(situation, followUp, AiFailed(provider, message), draw).judgment
         == AnalyzeWithRules(ToLower(MergeContext(situation, followUp)), draw)
  {
  }

  /** Without an API key, or when the AI call fails, the result is the rules judgment of
      the merged lower-cased text, with `aiUsed` false: YTA exactly when the score is at
      least 6, and a score among the tier scores. */
  lemma FallbackIsRules(situation: string, followUp: Option<string>, ai: AiOutcome, draw: real)
    requires 0.0 <= draw < 1.0
    requires !ai.AiAnswered?
    ensures !AnalyzeSituation(situation, followUp, ai, draw).aiUsed
    ensures AnalyzeSituation(situation, followUp, ai, draw).judgment.verdict == YTA
        <==> AnalyzeSituation(situation, followUp, ai, draw).judgment.score >= 6
    ensures AnalyzeSituation(situation, followUp, ai, draw).judgment.score in {10, 9, 8, 7, 6, 2, 3, 5}
    ensures AnalyzeSituation(situation, followUp, ai, draw).judgment.reasoning
         in Responses(Classify(ToLower(MergeContext(situation, followUp))))
  {
  }

  // ---------------------------------------------------------------------------
  // The follow-up route's sanitiser (server.js:765).
  // ---------------------------------------------------------------------------

  /** `Math.max(1, Math.min(10, parseInt(score) || 5))`. `parsed` is the value of
      `parseInt(score)`, `None` for NaN; NaN and 0 are falsy and become 5. */
  function StoredScore(parsed: Option<int>): (s: int)
    ensures 1 <= s <= 10
    ensures parsed.None? || parsed.value == 0 ==> s == 5
    ensures parsed.Some? && 1 <= parsed.value <= 10 ==> s == parsed.value
    ensures parsed.Some? && parsed.value < 0 ==> s == 1
    ensures parsed.Some? && parsed.value > 10 ==> s == 10
  {
    var x := if parsed.None? || parsed.value == 0 then 5 else parsed.value;
    ClampScore(x)
  }

  /** The sanitiser never changes a score `analyzeSituation` produced: the follow-up route
      stores exactly the analysed score. */
  lemma FollowUpStoresAnalysedScore(situation: string, followUp: string, ai: AiOutcome, draw: real)
    requires 0.0 <= draw < 1.0
    ensures StoredScore(Some(AnalyzeSituation(situation, Some(followUp), ai, draw).judgment.score))
         == AnalyzeSituation(situation, Some(followUp), ai, draw).judgment.score
  {
  }
}
