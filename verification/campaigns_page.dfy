/**
 * The campaigns page of the web client: parsing the recipient box, the guard
 * before asking for a spam score, and how a score is displayed.
 */
module CampaignsPage {
  import opened Basics
  import opened Text
  import Plans
  import SpamScoring

  /** `.map(f)`. */
  function MapAll(xs: seq<string>, f: string -> string): (r: seq<string>)
    ensures |r| == |xs|
    ensures forall i :: 0 <= i < |xs| ==> r[i] == f(xs[i])
  {
    if |xs| == 0 then [] else [f(xs[0])] + MapAll(xs[1..], f)
  }

  predicate Filled(x: string) { x != [] }

  /** `.filter(email => email)`: drops the empty strings, keeping order. */
  function NonEmpty(xs: seq<string>): (r: seq<string>)
    ensures |r| <= |xs|
    ensures forall x :: x in r <==> x in xs && x != []
  {
    Filter(xs, Filled)
  }

  lemma MapAllAppend(xs: seq<string>, ys: seq<string>, f: string -> string)
    ensures MapAll(xs + ys, f) == MapAll(xs, f) + MapAll(ys, f)
  {
    var l, r := MapAll(xs + ys, f), MapAll(xs, f) + MapAll(ys, f);
    forall i | 0 <= i < |l|
      ensures l[i] == r[i]
    {
      if i < |xs| {
        assert (xs + ys)[i] == xs[i];
      } else {
        assert (xs + ys)[i] == ys[i - |xs|];
      }
    }
  }

  lemma NonEmptyAppend(xs: seq<string>, ys: seq<string>)
    ensures NonEmpty(xs + ys) == NonEmpty(xs) + NonEmpty(ys)
  {
    FilterAppend(xs, ys, Filled);
  }

  /** A recipient as the box can hold it: non-empty, no comma, no surrounding blanks. */
  predicate CleanRecipient(x: string) {
    x != [] && ',' !in x && !IsSpace(x[0]) && !IsSpace(x[|x| - 1])
  }

  /** The recipient box: split on commas, trim each piece, drop the empty ones. */
  function ParseRecipients(box: string): (r: seq<string>)
    ensures |r| <= CountChar(box, ',') + 1
    ensures forall i :: 0 <= i < |r| ==> CleanRecipient(r[i])
  {
    SplitCount(box, ',');
    PiecesClean(Split(box, ','));
    NonEmpty(MapAll(Split(box, ','), Trim))
  }

  /** Comma-free pieces, trimmed and filtered, are clean recipients. */
  lemma PiecesClean(pieces: seq<string>)
    requires forall k :: 0 <= k < |pieces| ==> ',' !in pieces[k]
    ensures forall i :: 0 <= i < |NonEmpty(MapAll(pieces, Trim))| ==> CleanRecipient(NonEmpty(MapAll(pieces, Trim))[i])
  {
    var trimmed := MapAll(pieces, Trim);
    var r := NonEmpty(trimmed);
    forall i | 0 <= i < |r|
      ensures CleanRecipient(r[i])
    {
      assert r[i] in trimmed;
      var k :| 0 <= k < |trimmed| && trimmed[k] == r[i];
      TrimmedPieceClean(pieces[k], r[i]);
    }
  }

  lemma TrimmedPieceClean(piece: string, x: string)
    requires ',' !in piece && x == Trim(piece) && x != []
    ensures CleanRecipient(x)
  {
  }

  /** Parsing respects order: the recipients before a comma come before those after it. */
  lemma ParseRecipientsAppend(a: string, b: string)
    ensures ParseRecipients(a + [','] + b) == ParseRecipients(a) + ParseRecipients(b)
  {
    SplitAppend(a, b, ',');
    MapAllAppend(Split(a, ','), Split(b, ','), Trim);
    NonEmptyAppend(MapAll(Split(a, ','), Trim), MapAll(Split(b, ','), Trim));
  }

  /**
   * A box with no comma holds at most one recipient: the trimmed text, unless
   * it is blank. With `ParseRecipientsAppend` this fixes the result on every box.
   */
  lemma ParseOnePiece(p: string)
    requires ',' !in p
    ensures ParseRecipients(p) == (if Trim(p) == [] then [] else [Trim(p)])
  {
  }

  /** Writing clean recipients comma-separated and parsing the box gives them back. */
  lemma ParseJoinRoundTrip(rs: seq<string>)
    requires |rs| > 0
    requires forall i :: 0 <= i < |rs| ==> CleanRecipient(rs[i])
    ensures ParseRecipients(Join(rs, ',')) == rs
  {
    SplitJoin(rs, ',');
    assert MapAll(rs, Trim) == rs;
    NonEmptyKeepsClean(rs);
  }

  lemma NonEmptyKeepsClean(xs: seq<string>)
    requires forall i :: 0 <= i < |xs| ==> xs[i] != []
    ensures NonEmpty(xs) == xs
  {
    FilterKeepsAll(xs, Filled);
  }

  /** `analyzeSpamScore` sends a request only when both subject and body are filled in. */
  predicate ShouldAnalyze(subject: string, body: string) {
    subject != [] && body != []
  }

  /** The mode sent along: the chosen domain's mode, or cold outreach. */
  function AnalysisMode(domainMode: Option<string>): (m: string)
    ensures domainMode.Some? && domainMode.value != [] ==> m == domainMode.value
    ensures domainMode.None? || domainMode.value == [] ==> m == Plans.ColdOutreach
  {
    if domainMode.Some? && domainMode.value != [] then domainMode.value else Plans.ColdOutreach
  }

  /** The request the page sends, if any. */
  function SpamRequest(subject: string, body: string, domainMode: Option<string>): (r: Option<(string, string, string)>)
    ensures r.None? <==> subject == [] || body == []
    ensures r.Some? ==> r.value.0 == subject && r.value.1 == body && r.value.2 == AnalysisMode(domainMode)
  {
    if ShouldAnalyze(subject, body) then Some((subject, body, AnalysisMode(domainMode))) else None
  }

  /**
   * A message for a domain with no mode set is scored as cold outreach, so
   * the rule-based score grants it the few-links bonus when it has at most
   * one link.
   */
  lemma ModelessRequestGetsColdOutreachBonus(subject: string, body: string)
    requires subject != [] && body != [] && SpamScoring.LinkCount(body) <= 1
    ensures SpamRequest(subject, body, None).Some?
    ensures SpamScoring.FewLinksColdOutreach(SpamScoring.Detect(subject, body, SpamRequest(subject, body, None).value.2))
  {
  }

  /** The wire name of a risk level. */
  function LevelName(level: SpamScoring.RiskLevel): string {
    match level
    case Low => "low"
    case Medium => "medium"
    case High => "high"
    case CriticalRisk => "critical"
  }

  const MediumLabel: string := "Medium Risk"

  /** `getRiskBadge`'s label; an unknown level is shown as medium. */
  function RiskBadgeLabel(level: string): (caption: string)
    ensures level !in ["low", "medium", "high", "critical"] ==> caption == MediumLabel
  {
    if level == "low" then "Low Risk"
    else if level == "high" then "High Risk"
    else if level == "critical" then "Critical Risk"
    else MediumLabel
  }

  /** Every level the server sends gets its own label; only medium shows as medium. */
  lemma BadgeDistinguishesServerLevels(l1: SpamScoring.RiskLevel, l2: SpamScoring.RiskLevel)
    ensures RiskBadgeLabel(LevelName(l1)) == RiskBadgeLabel(LevelName(l2)) <==> l1 == l2
    ensures RiskBadgeLabel(LevelName(l1)) == MediumLabel <==> l1 == SpamScoring.Medium
  {
  }

  const ShownRecommendations: nat := 3

  /** The recommendations listed: the first three. */
  function Shown(recs: seq<string>): (r: seq<string>)
    ensures |r| == Min(ShownRecommendations, |recs|)
    ensures r == recs[..|r|]
  {
    recs[..Min(ShownRecommendations, |recs|)]
  }

  /** The critical-risk warning. */
  predicate ShowsCriticalWarning(levelName: string) { levelName == "critical" }

  /**
   * For a score computed by the rules the list is never empty, and the warning
   * appears exactly when the server rated the message critical.
   */
  lemma RuleScoreDisplay(subject: string, body: string, mode: string)
    ensures var rep := SpamScoring.Heuristics(subject, body, mode);
      && 1 <= |Shown(rep.recommendations)| <= ShownRecommendations
      && (ShowsCriticalWarning(LevelName(rep.riskLevel)) <==> rep.riskLevel == SpamScoring.CriticalRisk)
  {
  }
}
