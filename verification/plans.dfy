/**
 * The plan-entitlement table of the backend: who is a founder, and what each
 * plan allows (domain count, per-domain daily volume, sending modes).
 */
module Plans {
  import opened Basics
  import opened Text

  /** A user document; `role` is `founder`, `admin`, `user` or unset. */
  datatype User = User(id: string, email: string, plan: string, role: Option<string>)

  const FounderEmails: seq<string> := ["deeip.temp@gmail.com", "buradkaraditya08@gmail.com"]

  const ColdOutreach: string := "cold_outreach"
  const FounderOutbound: string := "founder_outbound"
  const Newsletter: string := "newsletter"

  const AllModes: seq<string> := [ColdOutreach, FounderOutbound, Newsletter]

  /** The plans the table names; anything else is looked up as `free`. */
  const KnownPlans: seq<string> := ["free", "premium", "pro", "enterprise", "enterprise_internal"]

  datatype PlanLimits = PlanLimits(
    maxDomains: nat,
    dailyLimitPerDomain: nat,
    warmupRequired: bool,
    modes: seq<string>,
    allFeaturesUnlocked: bool)

  /** The founder list with every entry lower-cased, as the check builds it. */
  function LoweredFounders(): (r: seq<string>)
    ensures |r| == |FounderEmails|
    ensures forall i :: 0 <= i < |r| ==> r[i] == Lower(FounderEmails[i])
  {
    [Lower(FounderEmails[0]), Lower(FounderEmails[1])]
  }

  /** `email.lower()` is one of the founder addresses, lower-cased. */
  predicate IsFounderEmail(email: string) {
    Lower(email) in LoweredFounders()
  }

  /** The check is a case-insensitive match against the founder list. */
  lemma FounderEmailCaseInsensitive(email: string)
    ensures IsFounderEmail(email) <==> exists f :: f in FounderEmails && Lower(f) == Lower(email)
  {
    if IsFounderEmail(email) {
      var i :| 0 <= i < |LoweredFounders()| && LoweredFounders()[i] == Lower(email);
      assert FounderEmails[i] in FounderEmails;
    }
  }

  /** Two addresses that differ only in letter case are both founders or neither. */
  lemma FounderEmailIgnoresCase(a: string, b: string)
    requires Lower(a) == Lower(b)
    ensures IsFounderEmail(a) == IsFounderEmail(b)
  {
  }

  const FounderLimits: PlanLimits := PlanLimits(999, 10000, true, AllModes, true)
  const FreeLimits: PlanLimits := PlanLimits(1, 20, true, [ColdOutreach], false)

  /** The per-plan dictionary, with `free` as the fallback for an unknown plan. */
  function PlanTable(plan: string): (r: PlanLimits)
    ensures plan !in KnownPlans ==> r == FreeLimits
  {
    if plan == "premium" then PlanLimits(3, 150, true, [ColdOutreach, FounderOutbound], false)
    else if plan == "pro" then PlanLimits(10, 300, true, AllModes, false)
    else if plan == "enterprise" then PlanLimits(50, 1000, true, AllModes, false)
    else if plan == "enterprise_internal" then PlanLimits(999, 10000, true, AllModes, true)
    else FreeLimits
  }

  /** `get_plan_limits(plan, email)`: a founder address overrides the plan. */
  function GetPlanLimits(plan: string, email: string): (r: PlanLimits)
    ensures IsFounderEmail(email) ==>
      r.maxDomains == 999 && r.dailyLimitPerDomain == 10000 && r.allFeaturesUnlocked
      && forall m :: m in AllModes ==> m in r.modes
    ensures !IsFounderEmail(email) && plan !in KnownPlans ==> r == FreeLimits
    ensures ColdOutreach in r.modes && r.warmupRequired && r.maxDomains >= 1
    ensures forall m :: m in r.modes ==> m in AllModes
  {
    if IsFounderEmail(email) then FounderLimits else PlanTable(plan)
  }

  /** Rank of a plan in the upgrade order free < premium < pro < enterprise. */
  function Rank(plan: string): nat {
    if plan == "premium" then 1 else if plan == "pro" then 2 else if plan == "enterprise" then 3 else 0
  }

  /** Upgrading never takes anything away: every limit and mode set grows with the plan. */
  lemma PlanTableMonotone(p: string, q: string)
    requires p in ["free", "premium", "pro", "enterprise"] && q in ["free", "premium", "pro", "enterprise"]
    requires Rank(p) <= Rank(q)
    ensures PlanTable(p).maxDomains <= PlanTable(q).maxDomains
    ensures PlanTable(p).dailyLimitPerDomain <= PlanTable(q).dailyLimitPerDomain
    ensures forall m :: m in PlanTable(p).modes ==> m in PlanTable(q).modes
  {
  }

  /** The internal plan grants exactly what a founder address grants. */
  lemma InternalPlanIsFounderGrade(email: string)
    ensures GetPlanLimits("enterprise_internal", email) == FounderLimits
  {
  }
}
