/**
 * The domains page of the web client: its own copy of the plan limits, the
 * sending modes it offers, and the warm-up bar.
 */
module DomainsPage {
  import opened Basics
  import opened Plans
  import Domains

  datatype UiLimits = UiLimits(max: nat, daily: nat)

  const PublicPlans: seq<string> := ["free", "premium", "pro", "enterprise"]

  /** `getPlanLimits`: four plans, and the free limits for anything else. */
  function UiPlanLimits(plan: string): (r: UiLimits)
    ensures plan !in PublicPlans ==> r == UiLimits(1, 20)
    ensures r.max >= 1 && r.daily >= 20
  {
    if plan == "premium" then UiLimits(3, 150)
    else if plan == "pro" then UiLimits(10, 300)
    else if plan == "enterprise" then UiLimits(50, 1000)
    else UiLimits(1, 20)
  }

  /** For the four public plans the page shows what the server enforces. */
  lemma UiLimitsMatchServer(plan: string)
    requires plan in PublicPlans
    ensures UiPlanLimits(plan).max == PlanTable(plan).maxDomains
    ensures UiPlanLimits(plan).daily == PlanTable(plan).dailyLimitPerDomain
  {
  }

  /** The sending modes the add-domain form offers, in display order. */
  function ModeOptions(plan: string): (r: seq<string>)
    ensures |r| > 0 && r[0] == ColdOutreach
    ensures FounderOutbound in r <==> plan in ["premium", "pro", "enterprise"]
    ensures Newsletter in r <==> plan in ["pro", "enterprise"]
    ensures forall m :: m in r ==> m in AllModes
  {
    [ColdOutreach]
    + (if plan == "premium" || plan == "pro" || plan == "enterprise" then [FounderOutbound] else [])
    + (if plan == "pro" || plan == "enterprise" then [Newsletter] else [])
  }

  /** For the four public plans the form offers exactly the modes the server accepts. */
  lemma ModeOptionsMatchServer(plan: string, m: string)
    requires plan in PublicPlans
    ensures m in ModeOptions(plan) <==> m in PlanTable(plan).modes
  {
  }

  /**
   * The page knows neither the internal plan nor founder addresses: it shows
   * the free limits and offers cold outreach only, where the server allows
   * 999 domains and every mode.
   */
  lemma PageUnderstatesPrivilegedUsers(plan: string, email: string)
    requires plan == "enterprise_internal" || (plan == "free" && IsFounderEmail(email))
    ensures UiPlanLimits(plan) == UiLimits(1, 20)
    ensures ModeOptions(plan) == [ColdOutreach]
    ensures GetPlanLimits(plan, email).maxDomains == 999
    ensures Newsletter in GetPlanLimits(plan, email).modes
  {
  }

  /** Width of the warm-up bar in fifteenths of a percent: `min(day / 15 * 100, 100)`. */
  function BarWidthFifteenths(warmupDay: nat): (w: nat)
    ensures w <= 100 * Domains.WarmupDays
    ensures w == 100 * Domains.WarmupDays <==> warmupDay >= Domains.WarmupDays
    ensures warmupDay < Domains.WarmupDays ==> w == 100 * warmupDay
  {
    Min(warmupDay * 100, 100 * Domains.WarmupDays)
  }

  /** The bar grows with the day and is full from the day the server marks warm-up complete. */
  lemma BarTracksWarmup(d: Domains.Domain, owner: Option<User>)
    ensures BarWidthFifteenths(d.warmupDay) <= BarWidthFifteenths(Domains.ProgressWarmup(d, owner).0.warmupDay)
    ensures Domains.ProgressWarmup(d, owner).0.warmupCompleted <==>
      BarWidthFifteenths(Domains.ProgressWarmup(d, owner).0.warmupDay) == 100 * Domains.WarmupDays
  {
  }
}
