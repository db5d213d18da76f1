/**
 * Sending domains: admission of a new domain against the owner's plan, the
 * daily warm-up ramp, and the automatic pause on bad bounce or complaint rates.
 */
module Domains {
  import opened Basics
  import opened Plans

  /** Why the health check paused a domain, with the counts that tripped it. */
  datatype PauseReason =
    | HighBounceRate(bounced: nat, sent: nat)
    | HighSpamRate(spam: nat, sent: nat)

  datatype Domain = Domain(
    id: string,
    userId: string,
    name: string,
    mode: string,
    healthScore: nat,
    warmupDay: nat,
    warmupCompleted: bool,
    dailyLimit: nat,
    sentToday: nat,
    isPaused: bool,
    pauseReason: Option<PauseReason>)

  /** One row of the domain warm-up log written by the daily job. */
  datatype WarmupLog = WarmupLog(domainId: string, day: nat, sent: nat, delivered: nat, bounced: nat)

  datatype DomainError =
    | PlanLimitReached(limit: nat)
    | ModeNotAvailable(mode: string)
    | DomainAlreadyAdded

  const WarmupDays: nat := 15
  const StartLimit: nat := 10
  const RampStep: nat := 5
  const OwnerlessLimit: nat := 20
  const InitialHealth: nat := 100
  const HealthPenalty: nat := 20

  /** Number of domains the user owns (`count_documents({"user_id": ...})`). */
  function OwnedCount(domains: map<string, Domain>, userId: string): nat {
    |set id | id in domains && domains[id].userId == userId|
  }

  predicate AlreadyAdded(domains: map<string, Domain>, userId: string, name: string) {
    exists id | id in domains :: domains[id].userId == userId && domains[id].name == name
  }

  function NewDomain(id: string, userId: string, name: string, mode: string): Domain {
    Domain(id, userId, name, mode, InitialHealth, 0, false, StartLimit, 0, false, None)
  }

  /**
   * `POST /domains`: the plan's domain count is checked first, then the mode,
   * then the duplicate name; an admitted domain is stored under a fresh id.
   */
  function CreateDomain(domains: map<string, Domain>, user: User, name: string, mode: string, newId: string)
    : (r: Result<map<string, Domain>, DomainError>)
    requires newId !in domains
    ensures var limits := GetPlanLimits(user.plan, user.email);
      && (OwnedCount(domains, user.id) >= limits.maxDomains <==> r == Err(PlanLimitReached(limits.maxDomains)))
      && (r == Err(ModeNotAvailable(mode)) <==>
            OwnedCount(domains, user.id) < limits.maxDomains && mode !in limits.modes)
      && (r == Err(DomainAlreadyAdded) <==>
            OwnedCount(domains, user.id) < limits.maxDomains && mode in limits.modes
            && AlreadyAdded(domains, user.id, name))
    ensures var limits := GetPlanLimits(user.plan, user.email);
      r.Ok? <==> OwnedCount(domains, user.id) < limits.maxDomains && mode in limits.modes
                 && !AlreadyAdded(domains, user.id, name)
    ensures r.Ok? ==>
      && r.value == domains[newId := NewDomain(newId, user.id, name, mode)]
      && OwnedCount(r.value, user.id) == OwnedCount(domains, user.id) + 1
      && OwnedCount(r.value, user.id) <= GetPlanLimits(user.plan, user.email).maxDomains
  {
    var limits := GetPlanLimits(user.plan, user.email);
    if OwnedCount(domains, user.id) >= limits.maxDomains then Err(PlanLimitReached(limits.maxDomains))
    else if mode !in limits.modes then Err(ModeNotAvailable(mode))
    else if AlreadyAdded(domains, user.id, name) then Err(DomainAlreadyAdded)
    else
      var d := NewDomain(newId, user.id, name, mode);
      var updated := domains[newId := d];
      assert (set id | id in updated && updated[id].userId == user.id)
          == (set id | id in domains && domains[id].userId == user.id) + {newId};
      Ok(updated)
  }

  /** A free-plan user who already owns a domain is refused a second one. */
  lemma FreePlanSecondDomainRejected(domains: map<string, Domain>, user: User, name: string, mode: string, newId: string)
    requires newId !in domains && user.plan == "free" && !IsFounderEmail(user.email)
    requires exists id | id in domains :: domains[id].userId == user.id
    ensures CreateDomain(domains, user, name, mode, newId) == Err(PlanLimitReached(1))
  {
    var id :| id in domains && domains[id].userId == user.id;
    var owned := set i | i in domains && domains[i].userId == user.id;
    assert id in owned;
    assert |owned| >= 1 by {
      assert owned == {id} + (owned - {id});
    }
    assert GetPlanLimits(user.plan, user.email) == FreeLimits;
  }

  /** The daily volume a domain gets on warm-up day `newDay`. */
  function RampLimit(newDay: nat, owner: Option<User>): (r: nat)
    ensures newDay <= WarmupDays ==> StartLimit <= r <= StartLimit + RampStep * WarmupDays
  {
    if newDay <= WarmupDays then StartLimit + newDay * RampStep
    else match owner
      case Some(u) => GetPlanLimits(u.plan, u.email).dailyLimitPerDomain
      case None => OwnerlessLimit
  }

  /** One domain's step of the midnight `progress_warmup` job. */
  function ProgressWarmup(d: Domain, owner: Option<User>): (r: (Domain, WarmupLog))
    ensures r.0.warmupDay == d.warmupDay + 1
    ensures r.0.sentToday == 0
    ensures r.0.warmupCompleted <==> d.warmupDay + 1 >= WarmupDays
    ensures d.warmupDay + 1 <= WarmupDays ==> r.0.dailyLimit == StartLimit + RampStep * (d.warmupDay + 1)
    ensures d.warmupDay + 1 > WarmupDays && owner.None? ==> r.0.dailyLimit == OwnerlessLimit
    ensures d.warmupDay + 1 > WarmupDays && owner.Some? ==>
      r.0.dailyLimit == GetPlanLimits(owner.value.plan, owner.value.email).dailyLimitPerDomain
    ensures r.0.(warmupDay := d.warmupDay, warmupCompleted := d.warmupCompleted,
                 dailyLimit := d.dailyLimit, sentToday := d.sentToday) == d
    ensures r.1 == WarmupLog(d.id, d.warmupDay + 1, d.sentToday, d.sentToday, 0)
  {
    var newDay := d.warmupDay + 1;
    var stepped := d.(warmupDay := newDay, warmupCompleted := newDay >= WarmupDays,
                      dailyLimit := RampLimit(newDay, owner), sentToday := 0);
    (stepped, WarmupLog(d.id, newDay, d.sentToday, d.sentToday, 0))
  }

  /** The job only visits domains whose warm-up is not completed. */
  function JobStep(d: Domain, owner: Option<User>): Domain {
    if d.warmupCompleted then d else ProgressWarmup(d, owner).0
  }

  function Owner(users: map<string, User>, userId: string): Option<User> {
    if userId in users then Some(users[userId]) else None
  }

  /** `progress_warmup` over every stored domain. */
  function ProgressWarmupJob(domains: map<string, Domain>, users: map<string, User>): (r: map<string, Domain>)
    ensures r.Keys == domains.Keys
    ensures forall id :: id in domains && domains[id].warmupCompleted ==> r[id] == domains[id]
    ensures forall id :: id in domains && !domains[id].warmupCompleted ==>
      r[id].warmupDay == domains[id].warmupDay + 1 && r[id].sentToday == 0
    ensures forall id :: id in domains && !domains[id].warmupCompleted ==>
      r[id] == ProgressWarmup(domains[id], Owner(users, domains[id].userId)).0
  {
    map id | id in domains :: JobStep(domains[id], Owner(users, domains[id].userId))
  }

  /** The job applied on `n` consecutive nights, the owner's plan held fixed. */
  function RunJob(d: Domain, owner: Option<User>, n: nat): Domain {
    if n == 0 then d else JobStep(RunJob(d, owner, n - 1), owner)
  }

  /**
   * A new domain climbs 15, 20, ..., 85 and stops: completion is set on day 15
   * and the job skips completed domains, so the plan-limit branch of the ramp
   * is never reached and the limit stays at 85 whatever the plan.
   */
  lemma {:induction false} FreshDomainRamp(d: Domain, owner: Option<User>, n: nat)
    requires d.warmupDay == 0 && !d.warmupCompleted && d.dailyLimit == StartLimit
    ensures RunJob(d, owner, n).warmupDay == Min(n, WarmupDays)
    ensures RunJob(d, owner, n).warmupCompleted <==> n >= WarmupDays
    ensures RunJob(d, owner, n).dailyLimit == StartLimit + RampStep * Min(n, WarmupDays)
    ensures RunJob(d, owner, n).dailyLimit <= StartLimit + RampStep * WarmupDays
  {
    if n > 0 {
      FreshDomainRamp(d, owner, n - 1);
    }
  }

  /** Bounce rate above 4%: `bounced / sent * 100 > 4.0`, cross-multiplied. */
  predicate BounceRateTooHigh(bounced: nat, sent: nat) { bounced * 100 > 4 * sent }

  /** Complaint rate above 0.2%: `spam / sent * 100 > 0.2`, cross-multiplied. */
  predicate SpamRateTooHigh(spam: nat, sent: nat) { spam * 500 > sent }

  /** `check_domain_health` given the domain's campaign totals. */
  function CheckDomainHealth(d: Domain, sent: nat, bounced: nat, spam: nat): (r: Domain)
    ensures sent == 0 ==> r == d
    ensures r.isPaused <==> d.isPaused || (sent > 0 && (BounceRateTooHigh(bounced, sent) || SpamRateTooHigh(spam, sent)))
    ensures sent > 0 && BounceRateTooHigh(bounced, sent) ==>
      r.pauseReason == Some(HighBounceRate(bounced, sent))
    ensures sent > 0 && !BounceRateTooHigh(bounced, sent) && SpamRateTooHigh(spam, sent) ==>
      r.pauseReason == Some(HighSpamRate(spam, sent))
    ensures sent > 0 && (BounceRateTooHigh(bounced, sent) || SpamRateTooHigh(spam, sent)) ==>
      r.healthScore == Max(0, d.healthScore - HealthPenalty)
    ensures !(BounceRateTooHigh(bounced, sent) || SpamRateTooHigh(spam, sent)) ==> r == d
    ensures r.healthScore <= d.healthScore
    ensures r.(isPaused := d.isPaused, pauseReason := d.pauseReason, healthScore := d.healthScore) == d
  {
    if sent == 0 then d
    else if BounceRateTooHigh(bounced, sent) then
      d.(isPaused := true, pauseReason := Some(HighBounceRate(bounced, sent)),
         healthScore := Max(0, d.healthScore - HealthPenalty))
    else if SpamRateTooHigh(spam, sent) then
      d.(isPaused := true, pauseReason := Some(HighSpamRate(spam, sent)),
         healthScore := Max(0, d.healthScore - HealthPenalty))
    else d
  }

  /** Exactly 4% bounces is not over the threshold; 5 in 100 is. */
  lemma BounceThresholdIsStrict(d: Domain)
    ensures !CheckDomainHealth(d, 100, 4, 0).isPaused || d.isPaused
    ensures CheckDomainHealth(d, 100, 5, 0).isPaused
    ensures CheckDomainHealth(d, 100, 5, 0).pauseReason == Some(HighBounceRate(5, 100))
  {
  }
}
