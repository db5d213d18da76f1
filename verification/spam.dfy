/**
 * Spam-risk scoring of a subject and body: the rule-based fallback, the
 * clamping applied to a language-model reply, and the dispatch between them.
 */
module SpamScoring {
  import opened Basics
  import opened Text
  import Plans

  datatype RiskLevel = Low | Medium | High | CriticalRisk

  /** `< 20` low, `< 50` medium, `< 75` high, otherwise critical. */
  function Band(score: int): (level: RiskLevel)
    ensures level == Low <==> score < 20
    ensures level == Medium <==> 20 <= score < 50
    ensures level == High <==> 50 <= score < 75
    ensures level == CriticalRisk <==> 75 <= score
  {
    if score < 20 then Low else if score < 50 then Medium else if score < 75 then High else CriticalRisk
  }

  function BandRank(level: RiskLevel): nat {
    match level
    case Low => 0
    case Medium => 1
    case High => 2
    case CriticalRisk => 3
  }

  /** A higher score never lands in a lower band. */
  lemma BandMonotone(s1: int, s2: int)
    requires s1 <= s2
    ensures BandRank(Band(s1)) <= BandRank(Band(s2))
  {
  }

  /** The rule-based findings, one constructor per rule. */
  datatype RiskFactor =
    | SubjectTooLong
    | SpamWordsInSubject
    | AllCapsSubject
    | TooManyLinks(count: nat)
    | SpamWordsInBody
    | TooShort

  datatype Details =
    | RuleDetails(factors: seq<RiskFactor>)
    | ModelDetails(riskFactors: seq<string>, positiveFactors: seq<string>)

  datatype SpamReport = SpamReport(
    score: int,
    riskLevel: RiskLevel,
    recommendations: seq<string>,
    predictedInboxRate: int,
    details: Details)

  const SpamWords: seq<string> :=
    ["free", "guarantee", "no obligation", "winner", "cash", "prize", "urgent", "act now", "limited time"]

  const MaxSubjectLength: nat := 60
  const MinBodyLength: nat := 50
  const MaxLinks: nat := 3

  const KeepSubjectShort: string := "Keep subject under 60 characters"
  const RemoveSpamWords: string := "Remove spam trigger words"
  const UseSentenceCase: string := "Use sentence case"
  const ReduceLinks: string := "Reduce links to 1-2 for cold outreach"
  const AddContext: string := "Add more context (aim for 100-200 words)"
  const PersonalizationNote: string := "Good: Using personalization tokens"
  const LooksGood: string := "Your email looks good overall"

  /** Python's `any(word in text.lower() for word in spam_words)`. */
  predicate HasSpamWord(text: string) {
    exists w | w in SpamWords :: Contains(Lower(text), w)
  }

  /** `body.count('http://') + body.count('https://')`. */
  function LinkCount(body: string): nat {
    CountOccurrences(body, "http://") + CountOccurrences(body, "https://")
  }

  /** What each rule of the fallback sees in a message. */
  datatype Signals = Signals(
    longSubject: bool,
    spamWordInSubject: bool,
    capsSubject: bool,
    links: nat,
    spamWordInBody: bool,
    shortBody: bool,
    personalized: bool,
    mode: string)

  function Detect(subject: string, body: string, mode: string): (sig: Signals)
    ensures sig.longSubject <==> |subject| > MaxSubjectLength
    ensures sig.shortBody <==> |body| < MinBodyLength
    ensures sig.personalized <==> Contains(body, "{{") || Contains(body, "{%")
    ensures sig.spamWordInSubject <==> HasSpamWord(subject)
    ensures sig.capsSubject <==> IsUpperCase(subject)
    ensures sig.spamWordInBody <==> HasSpamWord(body)
    ensures sig.links == LinkCount(body) && sig.mode == mode
  {
    Signals(|subject| > MaxSubjectLength, HasSpamWord(subject), IsUpperCase(subject), LinkCount(body),
            HasSpamWord(body), |body| < MinBodyLength, Contains(body, "{{") || Contains(body, "{%"), mode)
  }

  predicate ManyLinks(sig: Signals) { sig.links > MaxLinks }

  /** The cold-outreach bonus for a message with at most one link. */
  predicate FewLinksColdOutreach(sig: Signals) { sig.mode == Plans.ColdOutreach && sig.links <= 1 }

  function Weight(on: bool, w: int): int { if on then w else 0 }

  /** The score before clamping. */
  function RawScore(sig: Signals): int {
    Weight(sig.longSubject, 10) + Weight(sig.spamWordInSubject, 15) + Weight(sig.capsSubject, 20)
    + Weight(ManyLinks(sig), 15) + Weight(sig.spamWordInBody, 10) + Weight(sig.shortBody, 10)
    - Weight(sig.personalized, 10) - Weight(FewLinksColdOutreach(sig), 5)
  }

  function Include<T>(on: bool, x: T): seq<T> { if on then [x] else [] }

  /** The advice of each rule, in rule order; a body spam word gives none. */
  function Advice(sig: Signals): seq<string> {
    Include(sig.longSubject, KeepSubjectShort) + Include(sig.spamWordInSubject, RemoveSpamWords)
    + Include(sig.capsSubject, UseSentenceCase) + Include(ManyLinks(sig), ReduceLinks)
    + Include(sig.shortBody, AddContext) + Include(sig.personalized, PersonalizationNote)
  }

  function Factors(sig: Signals): seq<RiskFactor> {
    Include(sig.longSubject, SubjectTooLong) + Include(sig.spamWordInSubject, SpamWordsInSubject)
    + Include(sig.capsSubject, AllCapsSubject) + Include(ManyLinks(sig), TooManyLinks(sig.links))
    + Include(sig.spamWordInBody, SpamWordsInBody) + Include(sig.shortBody, TooShort)
  }

  /** A message triggers advice exactly when one of the advising rules fires. */
  predicate Advised(sig: Signals) {
    sig.longSubject || sig.spamWordInSubject || sig.capsSubject || ManyLinks(sig) || sig.shortBody || sig.personalized
  }

  lemma AdviceEmptyIff(sig: Signals)
    ensures Advice(sig) == [] <==> !Advised(sig)
  {
  }

  /** `_basic_spam_heuristics`. */
  function Heuristics(subject: string, body: string, mode: string): (r: SpamReport)
    ensures var sig := Detect(subject, body, mode);
      && 0 <= r.score <= 80
      && r.score == Clamp(RawScore(sig), 0, 100)
      && r.score == Max(0, RawScore(sig))
      && r.riskLevel == Band(r.score)
      && r.predictedInboxRate == Max(30, 100 - r.score)
      && 30 <= r.predictedInboxRate <= 100
      && |r.recommendations| > 0
      && (Advised(sig) ==> r.recommendations == Advice(sig))
      && (!Advised(sig) ==> r.recommendations == [LooksGood])
      && (KeepSubjectShort in r.recommendations <==> |subject| > MaxSubjectLength)
      && (AddContext in r.recommendations <==> |body| < MinBodyLength)
      && r.details == RuleDetails(Factors(sig))
  {
    var sig := Detect(subject, body, mode);
    var score := Clamp(RawScore(sig), 0, 100);
    var advice := Advice(sig);
    AdviceEmptyIff(sig);
    SpamReport(score, Band(score), if advice == [] then [LooksGood] else advice,
               Max(30, 100 - score), RuleDetails(Factors(sig)))
  }

  /**
   * The fallback rates a message critical exactly when all six penalties
   * fire and it carries no personalization token.
   */
  lemma CriticalIffEveryPenalty(subject: string, body: string, mode: string)
    ensures var sig := Detect(subject, body, mode);
      Heuristics(subject, body, mode).riskLevel == CriticalRisk <==>
        sig.longSubject && sig.spamWordInSubject && sig.capsSubject && ManyLinks(sig)
        && sig.spamWordInBody && sig.shortBody && !sig.personalized
  {
  }

  /**
   * A spam word in the body raises the score by 10 and records a risk factor,
   * but adds no recommendation.
   */
  lemma BodySpamWordAddsNoAdvice(sig: Signals)
    ensures Advice(sig.(spamWordInBody := true)) == Advice(sig.(spamWordInBody := false))
    ensures RawScore(sig.(spamWordInBody := true)) == RawScore(sig.(spamWordInBody := false)) + 10
    ensures SpamWordsInBody in Factors(sig.(spamWordInBody := true))
    ensures SpamWordsInBody !in Factors(sig.(spamWordInBody := false))
  {
  }

  /** Personalization tokens never raise the score. */
  lemma PersonalizationNeverRaisesScore(sig: Signals)
    ensures Clamp(RawScore(sig.(personalized := true)), 0, 100) <= Clamp(RawScore(sig.(personalized := false)), 0, 100)
  {
  }

  /** The parsed JSON of a language-model reply; absent keys are `None`. */
  datatype ModelAnalysis = ModelAnalysis(
    spamScore: Option<int>,
    recommendations: Option<seq<string>>,
    predictedInboxRate: Option<int>,
    riskFactors: Option<seq<string>>,
    positiveFactors: Option<seq<string>>)

  /** The outcome of asking the model: no key or failure, a reply that is not JSON, or parsed JSON. */
  datatype ModelReply = NoModel | Unparseable | Parsed(analysis: ModelAnalysis)

  const DefaultModelScore: int := 50
  const DefaultModelInboxRate: int := 70
  const MaxModelRecommendations: nat := 5

  /** The report built from a parsed reply: clamped numbers, at most five recommendations. */
  function FromModel(m: ModelAnalysis): (r: SpamReport)
    ensures 0 <= r.score <= 100 && 0 <= r.predictedInboxRate <= 100
    ensures r.riskLevel == Band(r.score)
    ensures m.spamScore.None? ==> r.score == DefaultModelScore
    ensures m.spamScore.Some? && 0 <= m.spamScore.value <= 100 ==> r.score == m.spamScore.value
    ensures m.spamScore.Some? && m.spamScore.value > 100 ==> r.score == 100
    ensures m.spamScore.Some? && m.spamScore.value < 0 ==> r.score == 0
    ensures m.predictedInboxRate.None? ==> r.predictedInboxRate == DefaultModelInboxRate
    ensures m.predictedInboxRate.Some? && 0 <= m.predictedInboxRate.value <= 100 ==>
      r.predictedInboxRate == m.predictedInboxRate.value
    ensures m.predictedInboxRate.Some? && m.predictedInboxRate.value > 100 ==> r.predictedInboxRate == 100
    ensures m.predictedInboxRate.Some? && m.predictedInboxRate.value < 0 ==> r.predictedInboxRate == 0
    ensures r.details == ModelDetails(m.riskFactors.GetOr([]), m.positiveFactors.GetOr([]))
    ensures var given := m.recommendations.GetOr([]);
      |r.recommendations| == Min(MaxModelRecommendations, |given|)
      && r.recommendations == given[..|r.recommendations|]
  {
    var score := Clamp(m.spamScore.GetOr(DefaultModelScore), 0, 100);
    var recs := m.recommendations.GetOr([]);
    SpamReport(score, Band(score), recs[..Min(MaxModelRecommendations, |recs|)],
               Clamp(m.predictedInboxRate.GetOr(DefaultModelInboxRate), 0, 100),
               ModelDetails(m.riskFactors.GetOr([]), m.positiveFactors.GetOr([])))
  }

  /** `analyze_spam_score`: the model's reply when it parses, the fallback otherwise. */
  function AnalyzeSpamScore(subject: string, body: string, mode: string, reply: ModelReply): (r: SpamReport)
    ensures 0 <= r.score <= 100 && 0 <= r.predictedInboxRate <= 100
    ensures r.riskLevel == Band(r.score)
    ensures !reply.Parsed? ==> r.details.RuleDetails? && |r.recommendations| > 0 && r.score <= 80
    ensures reply.Parsed? ==> r.details.ModelDetails? && |r.recommendations| <= MaxModelRecommendations
    ensures reply.Parsed? ==> r == FromModel(reply.analysis)
    ensures !reply.Parsed? ==> r == Heuristics(subject, body, mode)
  {
    match reply
    case Parsed(m) => FromModel(m)
    case _ => Heuristics(subject, body, mode)
  }

  /** The reply a report would be if the model had answered with it. */
  function AsAnalysis(r: SpamReport): ModelAnalysis
    requires r.details.ModelDetails?
  {
    ModelAnalysis(Some(r.score), Some(r.recommendations), Some(r.predictedInboxRate),
                  Some(r.details.riskFactors), Some(r.details.positiveFactors))
  }

  /**
   * Reading a reply is a normalisation: a report built from a model reply,
   * fed back as the reply, comes out unchanged.
   */
  lemma FromModelIdempotent(m: ModelAnalysis)
    ensures FromModel(AsAnalysis(FromModel(m))) == FromModel(m)
  {
    var r := FromModel(m);
    var recs := r.recommendations;
    assert recs[..Min(MaxModelRecommendations, |recs|)] == recs;
  }

  /** Unlike the fallback, a parsed reply without recommendations yields none. */
  lemma ModelMayGiveNoAdvice(subject: string, body: string, mode: string)
    ensures AnalyzeSpamScore(subject, body, mode, Parsed(ModelAnalysis(None, None, None, None, None))).recommendations == []
    ensures AnalyzeSpamScore(subject, body, mode, NoModel).recommendations != []
  {
  }
}
