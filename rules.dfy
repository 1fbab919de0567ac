/** The rule-based judgment classifier (`analyzeWithRules`, server.js:146-333): a fixed,
    first-match-wins cascade of ten severity tiers over the lower-cased text. Each tier
    is a boolean combination of substring tests, has a fixed verdict and score, and
    draws its reasoning from its own constant pool using one `Math.random()` draw. */
module Rules {
  import opened Text

  /** `'YTA'` ("you're the asshole") or `'NTA'` ("not the asshole"). */
  datatype Verdict = YTA | NTA

  /** The tiers, most severe first. */
  datatype Tier =
    | HarmToVulnerable      // violence verb and a vulnerable target
    | SexualOrPrivacyCrime  // sexual assault, intimate images, doxxing
    | PhysicalViolence
    | Bigotry
    | SeriousWrongdoing     // cheating, lying, stealing, stalking, threats
    | Inconsiderate         // selfishness, humiliation, ruining an event
    | VerbalAggression
    | Conciliatory          // apologising, boundaries, protecting someone
    | HonestMistake
    | Neutral               // the catch-all

  /** The result of one evaluation: `{ judgment, score, reasoning }`. */
  datatype Judgment = Judgment(verdict: Verdict, score: int, reasoning: string)

  /** Position of a tier in the cascade, 1 being tested first. */
  function Rank(k: Tier): nat {
    match k
    case HarmToVulnerable => 1
    case SexualOrPrivacyCrime => 2
    case PhysicalViolence => 3
    case Bigotry => 4
    case SeriousWrongdoing => 5
    case Inconsiderate => 6
    case VerbalAggression => 7
    case Conciliatory => 8
    case HonestMistake => 9
    case Neutral => 10
  }

  // ---------------------------------------------------------------------------
  // Tier predicates. JavaScript's `&&` binds tighter than `||`; the parentheses
  // below make that grouping explicit.
  // ---------------------------------------------------------------------------

  /** The violence verbs of the first tier (server.js:152-155). */
  predicate ViolenceVerb(t: string) {
    || Contains(t, "kicked") || Contains(t, "hit")
    || Contains(t, "punched") || Contains(t, "slapped")
    || Contains(t, "pushed") || Contains(t, "shoved")
    || Contains(t, "beat") || Contains(t, "abused")
  }

  /** The vulnerable targets of the first tier (server.js:156-161). */
  predicate VulnerableTarget(t: string) {
    || Contains(t, "kid") || Contains(t, "child")
    || Contains(t, "baby") || Contains(t, "toddler")
    || Contains(t, "minor") || Contains(t, "elderly")
    || Contains(t, "old person") || Contains(t, "disabled")
    || Contains(t, "animal") || Contains(t, "pet")
    || Contains(t, "dog") || Contains(t, "cat")
  }

  predicate HarmsVulnerable(t: string) {
    ViolenceVerb(t) && VulnerableTarget(t)
  }

  predicate SexualOrPrivacyCrimeWording(t: string) {
    || Contains(t, "sexual assault") || Contains(t, "raped")
    || Contains(t, "revenge porn")
    || (Contains(t, "nude") && Contains(t, "shared"))
    || Contains(t, "doxxed") || Contains(t, "doxxing")
    || (Contains(t, "leaked") && (Contains(t, "address") || Contains(t, "phone") || Contains(t, "personal")))
  }

  predicate ViolenceWording(t: string) {
    || Contains(t, "kicked") || Contains(t, "hit")
    || Contains(t, "punched") || Contains(t, "violence")
    || Contains(t, "slapped") || Contains(t, "beat")
    || Contains(t, "assaulted") || Contains(t, "attacked")
    || (Contains(t, "threw") && Contains(t, "at"))
    || Contains(t, "choked") || Contains(t, "strangled")
  }

  predicate BigotryWording(t: string) {
    || Contains(t, "racist") || Contains(t, "racism")
    || Contains(t, "homophobic") || Contains(t, "homophobia")
    || Contains(t, "transphobic") || Contains(t, "transphobia")
    || Contains(t, "ableist") || Contains(t, "ableism")
    || Contains(t, "fat shamed") || Contains(t, "fat shaming")
    || Contains(t, "body shamed") || Contains(t, "body shaming")
    || Contains(t, "slur") || Contains(t, "n-word")
    || Contains(t, "f slur") || Contains(t, "r-word")
  }

  predicate WrongdoingWording(t: string) {
    || Contains(t, "cheated") || Contains(t, "lied")
    || Contains(t, "stole") || Contains(t, "betrayed")
    || Contains(t, "abused") || Contains(t, "manipulated")
    || Contains(t, "gaslighted") || Contains(t, "gaslighting")
    || Contains(t, "stalked") || Contains(t, "stalking")
    || Contains(t, "threatened") || Contains(t, "threat")
    || Contains(t, "blackmailed") || Contains(t, "blackmail")
  }

  predicate InconsiderateWording(t: string) {
    || Contains(t, "selfish") || Contains(t, "only thinking about myself")
    || Contains(t, "ignored") || Contains(t, "dismissed")
    || Contains(t, "refused to help") || Contains(t, "ghosted")
    || Contains(t, "ghosting") || Contains(t, "publicly humiliated")
    || (Contains(t, "embarrassed") && Contains(t, "public"))
    || Contains(t, "made fun of") || Contains(t, "mocked")
    || Contains(t, "laughed at") || Contains(t, "ridiculed")
    || (Contains(t, "canceled") && Contains(t, "birthday"))
    || (Contains(t, "ruined") && (Contains(t, "wedding") || Contains(t, "party") || Contains(t, "event")))
  }

  predicate VerbalAggressionWording(t: string) {
    || Contains(t, "yelled at") || Contains(t, "screamed at")
    || Contains(t, "cussed out") || Contains(t, "cursed at")
    || Contains(t, "insulted") || Contains(t, "name called")
    || (Contains(t, "called") && (Contains(t, "stupid") || Contains(t, "idiot") || Contains(t, "dumb")))
  }

  predicate ConciliatoryWording(t: string) {
    || Contains(t, "sorry") || Contains(t, "apologize")
    || Contains(t, "tried to help") || Contains(t, "did my best")
    || Contains(t, "boundary") || Contains(t, "respect")
    || (Contains(t, "stood up") && (Contains(t, "bully") || Contains(t, "abuse")))
    || Contains(t, "protected") || Contains(t, "defended")
    || (Contains(t, "reported") && (Contains(t, "abuse") || Contains(t, "harassment") || Contains(t, "crime")))
    || Contains(t, "said no")
    || (Contains(t, "refused") && Contains(t, "uncomfortable"))
    || Contains(t, "walked away")
    || (Contains(t, "left") && Contains(t, "toxic"))
    || (Contains(t, "cut off") && Contains(t, "toxic"))
    || (Contains(t, "stopped") && Contains(t, "abuse"))
  }

  /** The honest-mistake phrases other than "forgot" (server.js:300-305). */
  predicate MistakeWording(t: string) {
    || Contains(t, "misunderstanding") || Contains(t, "accident")
    || Contains(t, "didn't mean to") || Contains(t, "unintentional")
    || Contains(t, "honest mistake") || Contains(t, "genuine mistake")
    || Contains(t, "miscommunication") || Contains(t, "misheard")
    || Contains(t, "misunderstood") || Contains(t, "wasn't aware")
    || Contains(t, "didn't know") || Contains(t, "wasn't informed")
  }

  /** "forgot", unless the same text says it was "on purpose" (server.js:306). */
  predicate ForgotInnocently(t: string) {
    Contains(t, "forgot") && !Contains(t, "on purpose")
  }

  predicate HonestMistakeWording(t: string) {
    MistakeWording(t) || ForgotInnocently(t)
  }

  /** Whether tier `k`'s predicate holds of the lower-cased text `t`. */
  predicate Triggers(k: Tier, t: string) {
    match k
    case HarmToVulnerable => HarmsVulnerable(t)
    case SexualOrPrivacyCrime => SexualOrPrivacyCrimeWording(t)
    case PhysicalViolence => ViolenceWording(t)
    case Bigotry => BigotryWording(t)
    case SeriousWrongdoing => WrongdoingWording(t)
    case Inconsiderate => InconsiderateWording(t)
    case VerbalAggression => VerbalAggressionWording(t)
    case Conciliatory => ConciliatoryWording(t)
    case HonestMistake => HonestMistakeWording(t)
    case Neutral => true
  }

  /** `k` is the tier that first-match-wins selects: its predicate holds and the
      predicate of every tier tested before it does not. */
  ghost predicate FirstMatch(k: Tier, t: string) {
    Triggers(k, t) && forall j :: Rank(j) < Rank(k) ==> !Triggers(j, t)
  }

  /** The if/else-if cascade of `analyzeWithRules`: the tier whose branch runs. */
  function Classify(t: string): (k: Tier)
    ensures FirstMatch(k, t)
  {
    if HarmsVulnerable(t) then HarmToVulnerable
    else if SexualOrPrivacyCrimeWording(t) then SexualOrPrivacyCrime
    else if ViolenceWording(t) then PhysicalViolence
    else if BigotryWording(t) then Bigotry
    else if WrongdoingWording(t) then SeriousWrongdoing
    else if InconsiderateWording(t) then Inconsiderate
    else if VerbalAggressionWording(t) then VerbalAggression
    else if ConciliatoryWording(t) then Conciliatory
    else if HonestMistakeWording(t) then HonestMistake
    else Neutral
  }

  /** Exactly one tier is the first match: the cascade's choice is determined by the text. */
  lemma FirstMatchUnique(t: string, k: Tier)
    requires FirstMatch(k, t)
    ensures k == Classify(t)
  {
  }

  /** Severity order: a text that triggers tier `j` is classified at `j` or at a more severe tier. */
  lemma MostSevereWins(t: string, j: Tier)
    requires Triggers(j, t)
    ensures Rank(Classify(t)) <= Rank(j)
    ensures Classify(t) == j <==> forall i :: Rank(i) < Rank(j) ==> !Triggers(i, t)
  {
    if forall i :: Rank(i) < Rank(j) ==> !Triggers(i, t) {
      FirstMatchUnique(t, j);
    }
  }

  // ---------------------------------------------------------------------------
  // The fixed outcome of each tier.
  // ---------------------------------------------------------------------------

  function VerdictOf(k: Tier): Verdict {
    match k
    case HarmToVulnerable | SexualOrPrivacyCrime | PhysicalViolence | Bigotry
       | SeriousWrongdoing | Inconsiderate | VerbalAggression => YTA
    case Conciliatory | HonestMistake | Neutral => NTA
  }

  function ScoreOf(k: Tier): int {
    match k
    case HarmToVulnerable => 10
    case SexualOrPrivacyCrime => 10
    case PhysicalViolence => 9
    case Bigotry => 9
    case SeriousWrongdoing => 8
    case Inconsiderate => 7
    case VerbalAggression => 6
    case Conciliatory => 2
    case HonestMistake => 3
    case Neutral => 5
  }

  /** Each tier's verdict and score agree: the verdict is YTA exactly when the score is at least 6,
      and every score lies in [1,10]. */
  lemma VerdictMatchesScore(k: Tier)
    ensures 1 <= ScoreOf(k) <= 10
    ensures VerdictOf(k) == YTA <==> ScoreOf(k) >= 6
  {
  }

  /** Reasoning pool of this tier (server.js:164-169). */
  const HarmToVulnerableResponses: seq<string> := [
    "Violence against a child is absolutely unacceptable. This is clearly wrong and you are the asshole.",
    "Physical harm to a child is not just asshole behavior - it's potentially criminal. You are clearly in the wrong here.",
    "You physically harmed a child. This is absolutely unacceptable and wrong. You are clearly the asshole here.",
    "Violence against a vulnerable person, especially a child, is never acceptable. You are definitely the asshole."
  ]

  /** Reasoning pool of this tier (server.js:179-184). */
  const SexualOrPrivacyCrimeResponses: seq<string> := [
    "This is literally illegal and you're asking if you're wrong? YES. You're not just an asshole, you're a criminal.",
    "Bro this is giving \"I committed a crime and want validation\" energy. No. Absolutely not. You're 100% the asshole.",
    "This is beyond asshole behavior. This is \"call the police\" behavior. What is wrong with you?",
    "You did WHAT? And you think there's any scenario where you're NOT the asshole? Delusional."
  ]

  /** Reasoning pool of this tier (server.js:196-201). */
  const PhysicalViolenceResponses: seq<string> := [
    "Bro, you literally did something that would make a villain in a kids movie look like a saint. This is WILD.",
    "Okay so you're out here doing crimes and asking if you're the asshole? Yes. Obviously. The audacity is astronomical.",
    "This is giving \"I know I messed up but maybe if I ask nicely people will say it's fine\" energy. It's not fine. You're absolutely the asshole here.",
    "You did WHAT? And you're asking if YOU'RE the problem? The math ain't mathing, my friend."
  ]

  /** Reasoning pool of this tier (server.js:215-220). */
  const BigotryResponses: seq<string> := [
    "Discrimination and bigotry are never acceptable. You are clearly the asshole here.",
    "Prejudiced behavior is wrong regardless of context. You are the asshole.",
    "Discrimination is never okay. You are clearly in the wrong here.",
    "This type of discriminatory behavior is unacceptable. You are the asshole."
  ]

  /** Reasoning pool of this tier (server.js:233-238). */
  const SeriousWrongdoingResponses: seq<string> := [
    "This behavior is clearly wrong and harmful. You are the asshole here.",
    "These actions are unacceptable and harmful to others. You are in the wrong.",
    "This type of behavior is not acceptable. You are the asshole.",
    "What you did was wrong and harmful. You are clearly the asshole in this situation."
  ]

  /** Reasoning pool of this tier (server.js:253-258). */
  const InconsiderateResponses: seq<string> := [
    "This behavior shows a lack of consideration for others. You are the asshole here.",
    "Being this self-centered and ignoring others' feelings is wrong. You are the asshole.",
    "This demonstrates a lack of empathy and consideration for others. You are in the wrong.",
    "Putting your own needs above others without consideration makes you the asshole."
  ]

  /** Reasoning pool of this tier (server.js:268-273). */
  const VerbalAggressionResponses: seq<string> := [
    "Verbal aggression is not acceptable behavior. You are the asshole here.",
    "Losing your temper and being verbally aggressive is wrong, even when frustrated. You are the asshole.",
    "Verbal attacks are harmful and unacceptable. You are in the wrong here.",
    "Being verbally aggressive toward someone is not acceptable. You are the asshole."
  ]

  /** Reasoning pool of this tier (server.js:289-296). */
  const ConciliatoryResponses: seq<string> := [
    "You're out here being a decent human being and someone is mad about it? That's their problem, not yours.",
    "You did nothing wrong and honestly, whoever is making you feel bad about this needs to touch grass.",
    "This is giving \"I'm being gaslit\" energy. You're fine, they're the problem.",
    "You're literally just existing and being reasonable. If someone has an issue with that, that's a them problem.",
    "You stood up for what's right and someone is mad? Good. They should be mad. You're absolutely NTA.",
    "You protected someone or yourself? That's not asshole behavior, that's being a decent person. NTA all the way."
  ]

  /** Reasoning pool of this tier (server.js:309-316). */
  const HonestMistakeResponses: seq<string> := [
    "This sounds like a classic case of \"oops, my bad\" and honestly? Accidents happen. You're good.",
    "You didn't mean to cause drama and it shows. This is just life being messy, not you being an asshole.",
    "This is giving \"I made a mistake but I'm human\" vibes. We all mess up sometimes, you're fine.",
    "Honestly? This seems like a genuine mistake. Unless you're secretly a supervillain, you're probably fine.",
    "You made an honest mistake and you're being reasonable about it? That's not asshole behavior, that's being human.",
    "This is just a misunderstanding. You're fine, don't stress about it."
  ]

  /** Reasoning pool of this tier (server.js:323-328). */
  const NeutralResponses: seq<string> := [
    "This is giving \"I have no idea what's happening but I'm trying my best\" energy. You're probably fine?",
    "The situation is messy but you seem reasonable enough. Could go either way honestly.",
    "This is peak \"life is complicated\" content. You're probably not the asshole, but who knows anymore?",
    "Honestly? This is giving neutral vibes. You're probably fine, but maybe think about it a bit more."
  ]

  /** The reasoning pool of each tier. */
  function Responses(k: Tier): seq<string> {
    match k
    case HarmToVulnerable => HarmToVulnerableResponses
    case SexualOrPrivacyCrime => SexualOrPrivacyCrimeResponses
    case PhysicalViolence => PhysicalViolenceResponses
    case Bigotry => BigotryResponses
    case SeriousWrongdoing => SeriousWrongdoingResponses
    case Inconsiderate => InconsiderateResponses
    case VerbalAggression => VerbalAggressionResponses
    case Conciliatory => ConciliatoryResponses
    case HonestMistake => HonestMistakeResponses
    case Neutral => NeutralResponses
  }

  /** Every pool has four entries, except the two that have six, and no entry is empty. */
  lemma PoolShape(k: Tier)
    ensures |Responses(k)| == if k == Conciliatory || k == HonestMistake then 6 else 4
    ensures forall i :: 0 <= i < |Responses(k)| ==> |Responses(k)[i]| > 0
  {
  }

  // ---------------------------------------------------------------------------
  // Response selection: `responses[Math.floor(Math.random() * responses.length)]`.
  // ---------------------------------------------------------------------------

  /** `Math.floor(draw * n)` for a draw of `Math.random()`, which lies in [0, 1). */
  function PickIndex(draw: real, n: nat): (i: nat)
    requires 0.0 <= draw < 1.0 && n > 0
    ensures i < n
  {
    ScaledDrawBounds(draw, n);
    (draw * n as real).Floor
  }

  lemma ScaledDrawBounds(draw: real, n: nat)
    requires 0.0 <= draw < 1.0 && n > 0
    ensures 0.0 <= draw * n as real < n as real
  {
  }

  /** Every index of a pool can be drawn: the draw `i / n` selects entry `i`. */
  lemma EveryIndexDrawable(n: nat, i: nat)
    requires i < n
    ensures 0.0 <= i as real / n as real < 1.0
    ensures PickIndex(i as real / n as real, n) == i
  {
  }

  /** `analyzeWithRules(situationLower, fullContext)`; its unused second parameter is dropped, and
      the call to `Math.random()` is the caller-supplied `draw`. */
  function AnalyzeWithRules(lower: string, draw: real): (j: Judgment)
    requires 0.0 <= draw < 1.0
    ensures j.verdict == VerdictOf(Classify(lower)) && j.score == ScoreOf(Classify(lower))
    ensures j.reasoning in Responses(Classify(lower)) && |j.reasoning| > 0
    ensures j.reasoning == Responses(Classify(lower))[PickIndex(draw, |Responses(Classify(lower))|)]
    ensures j.score in {10, 9, 8, 7, 6, 2, 3, 5} && 1 <= j.score <= 10
    ensures j.verdict == YTA <==> j.score >= 6
  {
    var k := Classify(lower);
    var pool := Responses(k);
    PoolShape(k);
    Judgment(VerdictOf(k), ScoreOf(k), pool[PickIndex(draw, |pool|)])
  }

  /** Every entry of the fired tier's pool is the reasoning given for some draw. */
  lemma EveryResponseReachable(t: string, i: nat)
    requires i < |Responses(Classify(t))|
    ensures exists draw :: 0.0 <= draw < 1.0 && AnalyzeWithRules(t, draw).reasoning == Responses(Classify(t))[i]
  {
    var n := |Responses(Classify(t))|;
    EveryIndexDrawable(n, i);
    var draw := i as real / n as real;
    assert AnalyzeWithRules(t, draw).reasoning == Responses(Classify(t))[i];
  }
}

/** Consequences of the cascade order and of its raw substring tests. */
module RuleProperties {
  import opened Text
  import opened Rules

  /** If any YTA tier's predicate holds, the verdict is YTA and the score is at least that
      tier's score, whatever conciliatory or accidental wording the text also contains. */
  lemma MisconductOutranksExcuses(t: string, j: Tier, draw: real)
    requires 0.0 <= draw < 1.0
    requires Triggers(j, t) && VerdictOf(j) == YTA
    ensures AnalyzeWithRules(t, draw).verdict == YTA
    ensures AnalyzeWithRules(t, draw).score >= ScoreOf(j)
  {
    MostSevereWins(t, j);
  }

  /** "yelled at" together with "sorry" is judged YTA with score at least 6 (exactly 6 when no
      more severe tier applies), never the conciliatory NTA/2: tier 7 is tested before tier 8. */
  lemma YelledAtDespiteSorry(t: string, draw: real)
    requires 0.0 <= draw < 1.0
    requires Contains(t, "yelled at") && Contains(t, "sorry")
    ensures Classify(t) != Conciliatory
    ensures AnalyzeWithRules(t, draw).verdict == YTA && AnalyzeWithRules(t, draw).score >= 6
    ensures (forall i :: Rank(i) < Rank(VerbalAggression) ==> !Triggers(i, t)) ==>
              AnalyzeWithRules(t, draw).score == 6
  {
    MisconductOutranksExcuses(t, VerbalAggression, draw);
    MostSevereWins(t, VerbalAggression);
  }

  const ViolenceVerbs: set<string> :=
    {"kicked", "hit", "punched", "slapped", "pushed", "shoved", "beat", "abused"}

  const VulnerableTargets: set<string> :=
    {"kid", "child", "baby", "toddler", "minor", "elderly", "old person", "disabled",
     "animal", "pet", "dog", "cat"}

  /** A violence verb plus a vulnerable target (e.g. "kicked" and "dog") is YTA/10 with a
      reasoning from the first tier's pool, even if "sorry" or "accident" also appear. */
  lemma ViolenceOnVulnerableIsWorst(t: string, verb: string, target: string, draw: real)
    requires 0.0 <= draw < 1.0
    requires verb in ViolenceVerbs && Contains(t, verb)
    requires target in VulnerableTargets && Contains(t, target)
    ensures Classify(t) == HarmToVulnerable
    ensures AnalyzeWithRules(t, draw).verdict == YTA && AnalyzeWithRules(t, draw).score == 10
    ensures AnalyzeWithRules(t, draw).reasoning in HarmToVulnerableResponses
  {
    assert ViolenceVerb(t);
    assert VulnerableTarget(t);
  }

  /** The phrases whose presence can make each tier's predicate hold ("on purpose" only ever
      blocks a tier, so it is not among them). */
  function TierPhrases(k: Tier): set<string> {
    match k
    case HarmToVulnerable => ViolenceVerbs + VulnerableTargets
    case SexualOrPrivacyCrime =>
      {"sexual assault", "raped", "revenge porn", "nude", "doxxed", "doxxing", "leaked"}
    case PhysicalViolence =>
      {"kicked", "hit", "punched", "violence", "slapped", "beat", "assaulted", "attacked",
       "threw", "choked", "strangled"}
    case Bigotry =>
      {"racist", "racism", "homophobic", "homophobia", "transphobic", "transphobia",
       "ableist", "ableism", "fat shamed", "fat shaming", "body shamed", "body shaming",
       "slur", "n-word", "f slur", "r-word"}
    case SeriousWrongdoing =>
      {"cheated", "lied", "stole", "betrayed", "abused", "manipulated", "gaslighted",
       "gaslighting", "stalked", "stalking", "threatened", "threat", "blackmailed", "blackmail"}
    case Inconsiderate =>
      {"selfish", "only thinking about myself", "ignored", "dismissed", "refused to help",
       "ghosted", "ghosting", "publicly humiliated", "embarrassed", "made fun of", "mocked",
       "laughed at", "ridiculed", "canceled", "ruined"}
    case VerbalAggression =>
      {"yelled at", "screamed at", "cussed out", "cursed at", "insulted", "name called", "called"}
    case Conciliatory =>
      {"sorry", "apologize", "tried to help", "did my best", "boundary", "respect", "stood up",
       "protected", "defended", "reported", "said no", "refused", "walked away", "left",
       "cut off", "stopped"}
    case HonestMistake =>
      {"misunderstanding", "accident", "didn't mean to", "unintentional", "honest mistake",
       "genuine mistake", "miscommunication", "misheard", "misunderstood", "wasn't aware",
       "didn't know", "wasn't informed", "forgot"}
    case Neutral => {}
  }

  /** A tier other than the catch-all fires only when the text contains one of its phrases. */
  lemma TierNeedsItsPhrase(t: string, k: Tier)
    requires k != Neutral
    requires forall p :: p in TierPhrases(k) ==> !Contains(t, p)
    ensures !Triggers(k, t)
  {
  }

  /** A text containing none of the listed phrases falls through to the catch-all: NTA, 5. */
  lemma NoPhraseIsNeutral(t: string, draw: real)
    requires 0.0 <= draw < 1.0
    requires forall k, p :: p in TierPhrases(k) ==> !Contains(t, p)
    ensures Classify(t) == Neutral
    ensures AnalyzeWithRules(t, draw).verdict == NTA && AnalyzeWithRules(t, draw).score == 5
    ensures AnalyzeWithRules(t, draw).reasoning in NeutralResponses
  {
    forall k | k != Neutral
      ensures !Triggers(k, t)
    {
      TierNeedsItsPhrase(t, k);
    }
  }

  /** Tests are on raw substrings, not words: each phrase below is found inside another word. */
  lemma PhrasesMatchInsideWords()
    ensures Contains("white", "hit")
    ensures Contains("compete", "pet")
    ensures Contains("kidding", "kid")
    ensures Contains("replied", "lied")
  {
    OccurrenceGivesContains("white", "hit", 1);
    OccurrenceGivesContains("compete", "pet", 3);
    OccurrenceGivesContains("kidding", "kid", 0);
    OccurrenceGivesContains("replied", "lied", 3);
  }

  /** Consequently any text mentioning "white" and "kidding" lands in the most severe tier. */
  lemma WhiteKiddingIsViolenceOnChild(t: string, draw: real)
    requires 0.0 <= draw < 1.0
    requires Contains(t, "white") && Contains(t, "kidding")
    ensures AnalyzeWithRules(t, draw).verdict == YTA && AnalyzeWithRules(t, draw).score == 10
  {
    PhrasesMatchInsideWords();
    ContainsTransitive(t, "white", "hit");
    ContainsTransitive(t, "kidding", "kid");
    ViolenceOnVulnerableIsWorst(t, "hit", "kid", draw);
  }
}
