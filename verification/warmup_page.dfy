/**
 * The warm-up page of the web client: a status per domain, the forecast of
 * tomorrow's limit, and the split into domains in warm-up and completed ones.
 */
module WarmupPage {
  import opened Basics
  import opened Plans
  import opened Domains

  datatype UiStatus = UiActive | UiPaused | UiCompleted

  /** `getWarmupStatus`: completed before paused before active. */
  function WarmupStatus(d: Domain): (s: UiStatus)
    ensures s == UiCompleted <==> d.warmupCompleted
    ensures s == UiPaused <==> !d.warmupCompleted && d.isPaused
    ensures s == UiActive <==> !d.warmupCompleted && !d.isPaused
  {
    if d.warmupCompleted then UiCompleted else if d.isPaused then UiPaused else UiActive
  }

  /** `calculateDailyIncrease`; the page shows it for `warmup_day + 1` as tomorrow's limit. */
  function DailyIncrease(day: int): int {
    StartLimit + day * RampStep
  }

  /** During the ramp the page's forecast is the limit the nightly job sets. */
  lemma ForecastMatchesJob(d: Domain, owner: Option<User>)
    requires d.warmupDay + 1 <= WarmupDays
    ensures DailyIncrease(d.warmupDay + 1) == ProgressWarmup(d, owner).0.dailyLimit
  {
  }

  /** Past the ramp the forecast keeps climbing while an ownerless domain drops to 20. */
  lemma ForecastDivergesAfterRamp(d: Domain)
    requires d.warmupDay == WarmupDays
    ensures DailyIncrease(d.warmupDay + 1) == 90
    ensures ProgressWarmup(d, None).0.dailyLimit == OwnerlessLimit
  {
  }

  predicate StillWarming(d: Domain) { !d.warmupCompleted }

  predicate DoneWarming(d: Domain) { d.warmupCompleted }

  function InWarmup(ds: seq<Domain>): (r: seq<Domain>)
    ensures forall d :: d in r <==> d in ds && !d.warmupCompleted
  {
    Filter(ds, StillWarming)
  }

  function CompletedDomains(ds: seq<Domain>): (r: seq<Domain>)
    ensures forall d :: d in r <==> d in ds && d.warmupCompleted
  {
    Filter(ds, DoneWarming)
  }

  /** The two lists split the domains: every domain lands in exactly one. */
  lemma SplitIsPartition(ds: seq<Domain>)
    ensures |InWarmup(ds)| + |CompletedDomains(ds)| == |ds|
    ensures multiset(InWarmup(ds)) + multiset(CompletedDomains(ds)) == multiset(ds)
  {
    FilterPartition(ds, StillWarming, DoneWarming);
  }

  function DaysRemaining(d: Domain): int { WarmupDays - d.warmupDay }

  /** Progress in fifteenths of a percent, `warmup_day / 15 * 100`, not clamped. */
  function ProgressFifteenths(d: Domain): nat { d.warmupDay * 100 }

  /** The "Great progress" note. */
  predicate ShowsGreatProgress(d: Domain) { d.warmupDay >= 10 && !d.isPaused }

  /** The server keeps the completed flag in step with the day. */
  predicate InStep(d: Domain) { d.warmupCompleted <==> d.warmupDay >= WarmupDays }

  /** A domain the job has stepped is in step, and stays so under further steps. */
  lemma JobKeepsInStep(d: Domain, owner: Option<User>)
    ensures InStep(ProgressWarmup(d, owner).0)
    ensures InStep(d) ==> InStep(JobStep(d, owner))
  {
  }

  /**
   * For an in-step domain still in warm-up the unclamped numbers stay sane:
   * at least one day remains and progress is under 100%; the note appears
   * only in the last five days.
   */
  lemma InWarmupFiguresBounded(d: Domain)
    requires InStep(d) && !d.warmupCompleted
    ensures 1 <= DaysRemaining(d) <= WarmupDays
    ensures ProgressFifteenths(d) < 100 * WarmupDays
    ensures ShowsGreatProgress(d) ==> DaysRemaining(d) <= 5
    ensures WarmupStatus(d) != UiCompleted
  {
  }

  /** Unclamped, a domain past day 15 that is not marked complete shows negative days and over 100%. */
  lemma OutOfStepOverflows(d: Domain)
    requires d.warmupDay == WarmupDays + 1 && !d.warmupCompleted
    ensures d in InWarmup([d])
    ensures DaysRemaining(d) == -1
    ensures ProgressFifteenths(d) > 100 * WarmupDays
  {
  }
}
