/**
 * Sending accounts: the pause / resume / warm-up state machine, the partial
 * update, the three-way health rating with its auto-pause, and the daily
 * warm-up step. Stored float rates are integer hundredths of a percent.
 */
module SendingAccounts {
  import opened Basics

  datatype WarmupStatus = Inactive | Active | Paused | Completed

  datatype Health = Healthy | Risky | Critical

  /** A pause written by an operator, or by the health check with the rates that tripped it. */
  datatype PauseReason = Manual(text: string) | CriticalMetrics(bounceRate: int, spamRate: int)

  /** The per-account warm-up settings; delays, weekend flag and spam threshold are stored but never read. */
  datatype WarmupSettings = WarmupSettings(
    dailyVolume: int,
    rampUp: int,
    replyRate: int,
    randomDelayMin: int,
    randomDelayMax: int,
    weekendSending: bool,
    autoPauseBounceRate: int,
    autoPauseSpamThreshold: int)

  datatype Account = Account(
    id: string,
    userId: string,
    email: string,
    provider: string,
    smtpHost: Option<string>,
    smtpPort: Option<int>,
    smtpUsername: Option<string>,
    smtpPasswordEncrypted: Option<string>,
    smtpUseTls: bool,
    dailySendLimit: int,
    reputationScore: int,
    healthStatus: Health,
    warmupEnabled: bool,
    warmupDay: nat,
    warmupCompleted: bool,
    warmupStatus: WarmupStatus,
    bounceRate: int,
    spamRate: int,
    emailsSentToday: int,
    totalEmailsSent: int,
    totalReplies: int,
    totalOpens: int,
    isVerified: bool,
    isPaused: bool,
    pauseReason: Option<PauseReason>,
    settings: WarmupSettings)

  datatype AccountError = AccountNotFound | NotVerified | AccountIsPaused

  const DefaultPauseText: string := "Manually paused"

  /** Python's `reason or "Manually paused"`: a missing or empty reason gets the default text. */
  function PauseText(reason: Option<string>): (t: string)
    ensures t != ""
    ensures reason.Some? && reason.value != "" ==> t == reason.value
  {
    if reason.Some? && reason.value != "" then reason.value else DefaultPauseText
  }

  /** `POST /sending-accounts/{id}/pause`. */
  function Pause(found: Option<Account>, reason: Option<string>): (r: Result<Account, AccountError>)
    ensures found.None? <==> r == Err(AccountNotFound)
    ensures found.Some? ==>
      && r.Ok?
      && r.value.isPaused
      && r.value.pauseReason == Some(Manual(PauseText(reason)))
      && (found.value.warmupEnabled ==> r.value.warmupStatus == Paused)
      && (!found.value.warmupEnabled ==> r.value.warmupStatus == found.value.warmupStatus)
      && r.value.(isPaused := false, pauseReason := None, warmupStatus := Inactive)
         == found.value.(isPaused := false, pauseReason := None, warmupStatus := Inactive)
  {
    match found
    case None => Err(AccountNotFound)
    case Some(a) =>
      Ok(a.(isPaused := true, pauseReason := Some(Manual(PauseText(reason))),
            warmupStatus := if a.warmupEnabled then Paused else a.warmupStatus))
  }

  /** The warm-up status an unpaused account settles in. */
  function SettledStatus(warmupEnabled: bool, warmupCompleted: bool): WarmupStatus {
    if !warmupEnabled then Inactive else if warmupCompleted then Completed else Active
  }

  /** Unpaused, no reason on record, warm-up status in agreement with the two flags. */
  predicate Settled(a: Account) {
    !a.isPaused && a.pauseReason.None? && a.warmupStatus == SettledStatus(a.warmupEnabled, a.warmupCompleted)
  }

  /** `POST /sending-accounts/{id}/resume`: always allowed, with no look at the rates. */
  function Resume(found: Option<Account>): (r: Result<Account, AccountError>)
    ensures found.None? <==> r == Err(AccountNotFound)
    ensures found.Some? ==> r.Ok? && Settled(r.value)
    ensures found.Some? ==>
      && (r.value.warmupStatus == Completed <==> found.value.warmupEnabled && found.value.warmupCompleted)
      && (r.value.warmupStatus == Active <==> found.value.warmupEnabled && !found.value.warmupCompleted)
      && (r.value.warmupStatus == Inactive <==> !found.value.warmupEnabled)
      && r.value.(isPaused := false, pauseReason := None, warmupStatus := Inactive)
         == found.value.(isPaused := false, pauseReason := None, warmupStatus := Inactive)
  {
    match found
    case None => Err(AccountNotFound)
    case Some(a) =>
      Ok(a.(isPaused := false, pauseReason := None,
            warmupStatus := SettledStatus(a.warmupEnabled, a.warmupCompleted)))
  }

  /** Resume undoes a pause: a settled account paused and resumed is the account it was. */
  lemma PauseResumeRoundTrip(a: Account, reason: Option<string>)
    requires Settled(a)
    ensures Pause(Some(a), reason).Ok?
    ensures Resume(Some(Pause(Some(a), reason).value)) == Ok(a)
  {
  }

  /** Resuming twice is resuming once. */
  lemma ResumeIdempotent(a: Account)
    ensures Resume(Some(Resume(Some(a)).value)) == Resume(Some(a))
  {
  }

  /** `POST /sending-accounts/{id}/warmup/start`: verified first, then unpaused; the day is kept. */
  function StartWarmup(found: Option<Account>): (r: Result<Account, AccountError>)
    ensures found.None? <==> r == Err(AccountNotFound)
    ensures r == Err(NotVerified) <==> found.Some? && !found.value.isVerified
    ensures r == Err(AccountIsPaused) <==> found.Some? && found.value.isVerified && found.value.isPaused
    ensures r.Ok? <==> found.Some? && found.value.isVerified && !found.value.isPaused
    ensures r.Ok? ==>
      && r.value.warmupEnabled && r.value.warmupStatus == Active
      && r.value.warmupDay == found.value.warmupDay
      && r.value.(warmupEnabled := false, warmupStatus := Inactive)
         == found.value.(warmupEnabled := false, warmupStatus := Inactive)
  {
    match found
    case None => Err(AccountNotFound)
    case Some(a) =>
      if !a.isVerified then Err(NotVerified)
      else if a.isPaused then Err(AccountIsPaused)
      else Ok(a.(warmupEnabled := true, warmupStatus := Active))
  }

  /** `POST /sending-accounts/{id}/warmup/pause`: only the warm-up status changes; the account still sends. */
  function PauseWarmup(found: Option<Account>): (r: Result<Account, AccountError>)
    ensures found.None? <==> r == Err(AccountNotFound)
    ensures found.Some? ==>
      && r.Ok? && r.value.warmupStatus == Paused
      && r.value.isPaused == found.value.isPaused
      && r.value.(warmupStatus := Inactive) == found.value.(warmupStatus := Inactive)
  {
    match found
    case None => Err(AccountNotFound)
    case Some(a) => Ok(a.(warmupStatus := Paused))
  }

  /**
   * Defaults of a new account and of the settings form: 5 a day, +2 a day,
   * a 30% reply rate, 4% auto-pause (both rates in hundredths of a percent).
   */
  const DefaultSettings: WarmupSettings := WarmupSettings(5, 2, 3000, 60, 300, false, 400, 3)

  /** `PATCH /sending-accounts/{id}/warmup/settings`: all eight settings are replaced at once. */
  function UpdateWarmupSettings(found: Option<Account>, s: WarmupSettings): (r: Result<Account, AccountError>)
    ensures found.None? <==> r == Err(AccountNotFound)
    ensures found.Some? ==>
      && r.Ok?
      && r.value.settings == s
      && r.value.(settings := DefaultSettings) == found.value.(settings := DefaultSettings)
  {
    match found
    case None => Err(AccountNotFound)
    case Some(a) => Ok(a.(settings := s))
  }

  /** Replacing the settings twice keeps only the second. */
  lemma SettingsLastWriteWins(a: Account, s1: WarmupSettings, s2: WarmupSettings)
    ensures UpdateWarmupSettings(Some(UpdateWarmupSettings(Some(a), s1).value), s2) == UpdateWarmupSettings(Some(a), s2)
  {
  }

  /** The body of `PATCH /sending-accounts/{id}`: every field left unset or null keeps its value. */
  datatype AccountUpdate = AccountUpdate(
    dailySendLimit: Option<int>,
    warmupEnabled: Option<bool>,
    isPaused: Option<bool>,
    smtpHost: Option<string>,
    smtpPort: Option<int>,
    smtpUsername: Option<string>,
    smtpPassword: Option<string>,
    smtpUseTls: Option<bool>,
    warmupDailyVolume: Option<int>,
    warmupRampUp: Option<int>,
    warmupReplyRate: Option<int>,
    warmupRandomDelayMin: Option<int>,
    warmupRandomDelayMax: Option<int>,
    warmupWeekendSending: Option<bool>,
    warmupAutoPauseBounceRate: Option<int>,
    warmupAutoPauseSpamThreshold: Option<int>)

  const NoChange: AccountUpdate :=
    AccountUpdate(None, None, None, None, None, None, None, None, None, None, None, None, None, None, None, None)

  /** A password takes effect only when it is non-empty (Python truthiness). */
  predicate SetsPassword(u: AccountUpdate) { u.smtpPassword.Some? && u.smtpPassword.value != "" }

  /** `later` if it is set, else `earlier`. */
  function Override<T>(later: Option<T>, earlier: Option<T>): Option<T> {
    if later.Some? then later else earlier
  }

  /** The warm-up settings after a patch: each field that is set replaces the stored one. */
  function MergeSettings(s: WarmupSettings, u: AccountUpdate): WarmupSettings {
    WarmupSettings(
      u.warmupDailyVolume.GetOr(s.dailyVolume),
      u.warmupRampUp.GetOr(s.rampUp),
      u.warmupReplyRate.GetOr(s.replyRate),
      u.warmupRandomDelayMin.GetOr(s.randomDelayMin),
      u.warmupRandomDelayMax.GetOr(s.randomDelayMax),
      u.warmupWeekendSending.GetOr(s.weekendSending),
      u.warmupAutoPauseBounceRate.GetOr(s.autoPauseBounceRate),
      u.warmupAutoPauseSpamThreshold.GetOr(s.autoPauseSpamThreshold))
  }

  /** Each warm-up setting in `t` is the patched value when the patch sets it and the stored one in `s` otherwise. */
  predicate SettingsPatched(s: WarmupSettings, u: AccountUpdate, t: WarmupSettings) {
    && t.dailyVolume == (if u.warmupDailyVolume.Some? then u.warmupDailyVolume.value else s.dailyVolume)
    && t.rampUp == (if u.warmupRampUp.Some? then u.warmupRampUp.value else s.rampUp)
    && t.replyRate == (if u.warmupReplyRate.Some? then u.warmupReplyRate.value else s.replyRate)
    && t.randomDelayMin == (if u.warmupRandomDelayMin.Some? then u.warmupRandomDelayMin.value else s.randomDelayMin)
    && t.randomDelayMax == (if u.warmupRandomDelayMax.Some? then u.warmupRandomDelayMax.value else s.randomDelayMax)
    && t.weekendSending == (if u.warmupWeekendSending.Some? then u.warmupWeekendSending.value else s.weekendSending)
    && t.autoPauseBounceRate ==
       (if u.warmupAutoPauseBounceRate.Some? then u.warmupAutoPauseBounceRate.value else s.autoPauseBounceRate)
    && t.autoPauseSpamThreshold ==
       (if u.warmupAutoPauseSpamThreshold.Some? then u.warmupAutoPauseSpamThreshold.value else s.autoPauseSpamThreshold)
  }

  /** The stored encrypted password after a patch. */
  function MergePassword(stored: Option<string>, u: AccountUpdate, encrypt: string -> string): Option<string> {
    if SetsPassword(u) then Some(encrypt(u.smtpPassword.value)) else stored
  }

  /** Merge of a patch into an account; `encrypt` stands for the Fernet cipher. */
  function Merge(a: Account, u: AccountUpdate, encrypt: string -> string): Account {
    a.(
      dailySendLimit := u.dailySendLimit.GetOr(a.dailySendLimit),
      warmupEnabled := u.warmupEnabled.GetOr(a.warmupEnabled),
      isPaused := u.isPaused.GetOr(a.isPaused),
      smtpHost := Override(u.smtpHost, a.smtpHost),
      smtpPort := Override(u.smtpPort, a.smtpPort),
      smtpUsername := Override(u.smtpUsername, a.smtpUsername),
      smtpPasswordEncrypted := MergePassword(a.smtpPasswordEncrypted, u, encrypt),
      smtpUseTls := u.smtpUseTls.GetOr(a.smtpUseTls),
      settings := MergeSettings(a.settings, u))
  }

  /** `PATCH /sending-accounts/{id}`. */
  function UpdateAccount(found: Option<Account>, u: AccountUpdate, encrypt: string -> string): (r: Result<Account, AccountError>)
    ensures found.None? <==> r == Err(AccountNotFound)
    ensures found.Some? ==>
      var a := found.value;
      && r.Ok?
      && r.value.isPaused == (if u.isPaused.Some? then u.isPaused.value else a.isPaused)
      && r.value.warmupEnabled == (if u.warmupEnabled.Some? then u.warmupEnabled.value else a.warmupEnabled)
      && r.value.dailySendLimit == (if u.dailySendLimit.Some? then u.dailySendLimit.value else a.dailySendLimit)
      && r.value.smtpHost == (if u.smtpHost.Some? then u.smtpHost else a.smtpHost)
      && r.value.smtpPort == (if u.smtpPort.Some? then u.smtpPort else a.smtpPort)
      && r.value.smtpUsername == (if u.smtpUsername.Some? then u.smtpUsername else a.smtpUsername)
      && r.value.smtpUseTls == (if u.smtpUseTls.Some? then u.smtpUseTls.value else a.smtpUseTls)
      && (SetsPassword(u) ==> r.value.smtpPasswordEncrypted == Some(encrypt(u.smtpPassword.value)))
      && (!SetsPassword(u) ==> r.value.smtpPasswordEncrypted == a.smtpPasswordEncrypted)
      && SettingsPatched(a.settings, u, r.value.settings)
      // every field the patch body cannot name keeps its value
      && r.value.(dailySendLimit := 0, warmupEnabled := false, isPaused := false, smtpHost := None,
                  smtpPort := None, smtpUsername := None, smtpPasswordEncrypted := None,
                  smtpUseTls := false, settings := DefaultSettings)
         == a.(dailySendLimit := 0, warmupEnabled := false, isPaused := false, smtpHost := None,
               smtpPort := None, smtpUsername := None, smtpPasswordEncrypted := None,
               smtpUseTls := false, settings := DefaultSettings)
  {
    match found
    case None => Err(AccountNotFound)
    case Some(a) => Ok(Merge(a, u, encrypt))
  }

  /** The empty patch changes nothing. */
  lemma EmptyUpdateIsIdentity(a: Account, encrypt: string -> string)
    ensures UpdateAccount(Some(a), NoChange, encrypt) == Ok(a)
  {
  }

  /** The single patch equivalent to applying `u1` and then `u2`. */
  function Combine(u2: AccountUpdate, u1: AccountUpdate): AccountUpdate {
    AccountUpdate(
      Override(u2.dailySendLimit, u1.dailySendLimit),
      Override(u2.warmupEnabled, u1.warmupEnabled),
      Override(u2.isPaused, u1.isPaused),
      Override(u2.smtpHost, u1.smtpHost),
      Override(u2.smtpPort, u1.smtpPort),
      Override(u2.smtpUsername, u1.smtpUsername),
      if SetsPassword(u2) then u2.smtpPassword else u1.smtpPassword,
      Override(u2.smtpUseTls, u1.smtpUseTls),
      Override(u2.warmupDailyVolume, u1.warmupDailyVolume),
      Override(u2.warmupRampUp, u1.warmupRampUp),
      Override(u2.warmupReplyRate, u1.warmupReplyRate),
      Override(u2.warmupRandomDelayMin, u1.warmupRandomDelayMin),
      Override(u2.warmupRandomDelayMax, u1.warmupRandomDelayMax),
      Override(u2.warmupWeekendSending, u1.warmupWeekendSending),
      Override(u2.warmupAutoPauseBounceRate, u1.warmupAutoPauseBounceRate),
      Override(u2.warmupAutoPauseSpamThreshold, u1.warmupAutoPauseSpamThreshold))
  }

  /** Two patches in a row are one patch in which the later value of each field wins. */
  lemma UpdatesCompose(a: Account, u1: AccountUpdate, u2: AccountUpdate, encrypt: string -> string)
    ensures Merge(Merge(a, u1, encrypt), u2, encrypt) == Merge(a, Combine(u2, u1), encrypt)
  {
    var u := Combine(u2, u1);
    SettingsCompose(a.settings, u1, u2);
    assert MergePassword(MergePassword(a.smtpPasswordEncrypted, u1, encrypt), u2, encrypt)
        == MergePassword(a.smtpPasswordEncrypted, u, encrypt);
    GetOrCompose(u2.dailySendLimit, u1.dailySendLimit, a.dailySendLimit);
    GetOrCompose(u2.warmupEnabled, u1.warmupEnabled, a.warmupEnabled);
    GetOrCompose(u2.isPaused, u1.isPaused, a.isPaused);
    GetOrCompose(u2.smtpUseTls, u1.smtpUseTls, a.smtpUseTls);
  }

  /** Two patches in a row leave the settings as their combination does. */
  lemma SettingsCompose(s: WarmupSettings, u1: AccountUpdate, u2: AccountUpdate)
    ensures MergeSettings(MergeSettings(s, u1), u2) == MergeSettings(s, Combine(u2, u1))
  {
    GetOrCompose(u2.warmupDailyVolume, u1.warmupDailyVolume, s.dailyVolume);
    GetOrCompose(u2.warmupRampUp, u1.warmupRampUp, s.rampUp);
    GetOrCompose(u2.warmupReplyRate, u1.warmupReplyRate, s.replyRate);
    GetOrCompose(u2.warmupRandomDelayMin, u1.warmupRandomDelayMin, s.randomDelayMin);
    GetOrCompose(u2.warmupRandomDelayMax, u1.warmupRandomDelayMax, s.randomDelayMax);
    GetOrCompose(u2.warmupWeekendSending, u1.warmupWeekendSending, s.weekendSending);
    GetOrCompose(u2.warmupAutoPauseBounceRate, u1.warmupAutoPauseBounceRate, s.autoPauseBounceRate);
    GetOrCompose(u2.warmupAutoPauseSpamThreshold, u1.warmupAutoPauseSpamThreshold, s.autoPauseSpamThreshold);
  }

  /** Reading a later patch over an earlier one is reading their combination. */
  lemma GetOrCompose<T>(later: Option<T>, earlier: Option<T>, x: T)
    ensures later.GetOr(earlier.GetOr(x)) == Override(later, earlier).GetOr(x)
  {
  }

  /**
   * A patch can clear `is_paused` but leaves the pause reason and the warm-up
   * status as they were, unlike `Resume`.
   */
  lemma PatchUnpauseKeepsReason(a: Account, encrypt: string -> string)
    requires a.isPaused && a.warmupEnabled && !a.warmupCompleted && a.warmupStatus == Paused
    ensures var b := UpdateAccount(Some(a), NoChange.(isPaused := Some(false)), encrypt).value;
      !b.isPaused && b.pauseReason == a.pauseReason && b.warmupStatus == Paused
    ensures Resume(Some(a)).value.warmupStatus == Active
  {
  }

  /** The settings route is the account patch with all eight warm-up fields set. */
  lemma SettingsRouteIsFullPatch(a: Account, st: WarmupSettings, encrypt: string -> string)
    ensures UpdateWarmupSettings(Some(a), st) ==
      UpdateAccount(Some(a), NoChange.(
        warmupDailyVolume := Some(st.dailyVolume),
        warmupRampUp := Some(st.rampUp),
        warmupReplyRate := Some(st.replyRate),
        warmupRandomDelayMin := Some(st.randomDelayMin),
        warmupRandomDelayMax := Some(st.randomDelayMax),
        warmupWeekendSending := Some(st.weekendSending),
        warmupAutoPauseBounceRate := Some(st.autoPauseBounceRate),
        warmupAutoPauseSpamThreshold := Some(st.autoPauseSpamThreshold)), encrypt)
  {
  }

  // Rating thresholds, in hundredths of a percent.
  const CriticalBounce: int := 400
  const CriticalSpam: int := 50
  const RiskyBounce: int := 200
  const RiskySpam: int := 20
  const RiskyReputation: int := 70

  /** The three-way rating of `check_sending_account_health`. */
  function Classify(bounceRate: int, spamRate: int, reputation: int): (h: Health)
    ensures h == Critical <==> bounceRate >= CriticalBounce || spamRate >= CriticalSpam
    ensures h == Risky <==>
      bounceRate < CriticalBounce && spamRate < CriticalSpam
      && (bounceRate >= RiskyBounce || spamRate >= RiskySpam || reputation < RiskyReputation)
    ensures h == Healthy <==> bounceRate < RiskyBounce && spamRate < RiskySpam && reputation >= RiskyReputation
  {
    if bounceRate >= CriticalBounce || spamRate >= CriticalSpam then Critical
    else if bounceRate >= RiskyBounce || spamRate >= RiskySpam || reputation < RiskyReputation then Risky
    else Healthy
  }

  /** Rating is monotone: a worse bounce rate never gives a better rating. */
  lemma ClassifyMonotoneInBounce(b1: int, b2: int, spam: int, rep: int)
    requires b1 <= b2
    ensures Classify(b1, spam, rep) == Critical ==> Classify(b2, spam, rep) == Critical
    ensures Classify(b1, spam, rep) == Risky ==> Classify(b2, spam, rep) != Healthy
  {
  }

  /** Critical, a non-zero configured threshold, and a bounce rate at or above it. */
  predicate AutoPauses(a: Account) {
    && Classify(a.bounceRate, a.spamRate, a.reputationScore) == Critical
    && a.settings.autoPauseBounceRate != 0
    && a.bounceRate >= a.settings.autoPauseBounceRate
  }

  /** `check_sending_account_health`. */
  function CheckAccountHealth(a: Account): (r: Account)
    ensures r.healthStatus == Classify(a.bounceRate, a.spamRate, a.reputationScore)
    ensures AutoPauses(a) ==>
      r.isPaused && r.warmupStatus == Paused && r.pauseReason == Some(CriticalMetrics(a.bounceRate, a.spamRate))
    ensures !AutoPauses(a) ==>
      r.isPaused == a.isPaused && r.warmupStatus == a.warmupStatus && r.pauseReason == a.pauseReason
    ensures r.(healthStatus := Healthy, isPaused := false, warmupStatus := Inactive, pauseReason := None)
         == a.(healthStatus := Healthy, isPaused := false, warmupStatus := Inactive, pauseReason := None)
  {
    var rated := a.(healthStatus := Classify(a.bounceRate, a.spamRate, a.reputationScore));
    if AutoPauses(a) then
      rated.(isPaused := true, pauseReason := Some(CriticalMetrics(a.bounceRate, a.spamRate)), warmupStatus := Paused)
    else rated
  }

  /**
   * With the bounce rate below the configured threshold the account is never
   * paused, even when the complaint rate alone rates it critical.
   */
  lemma SpamAloneNeverPauses(a: Account)
    requires a.bounceRate < a.settings.autoPauseBounceRate
    ensures CheckAccountHealth(a).isPaused == a.isPaused
    ensures a.spamRate >= CriticalSpam ==> CheckAccountHealth(a).healthStatus == Critical
  {
  }

  /** The random outcome of one warm-up day, drawn by the job. */
  datatype WarmupDraw = WarmupDraw(delivered: nat, replies: nat, opens: nat, bounces: nat, spamFlags: nat)

  /** One row of `sending_account_warmup_logs`. */
  datatype AccountWarmupLog = AccountWarmupLog(
    accountId: string, day: nat, emailsSent: int, emailsDelivered: nat,
    repliesReceived: nat, openCount: nat, bounceCount: nat, spamFlags: nat)

  const AccountWarmupDays: nat := 30

  /** The job selects warm-up-enabled, active, unpaused accounts. */
  predicate Eligible(a: Account) {
    a.warmupEnabled && a.warmupStatus == Active && !a.isPaused
  }

  /** `min(volume + day * ramp, daily_send_limit)`. */
  function ExpectedVolume(a: Account, newDay: nat): (v: int)
    ensures v <= a.dailySendLimit
    ensures v <= a.settings.dailyVolume + newDay * a.settings.rampUp
    ensures v == a.dailySendLimit || v == a.settings.dailyVolume + newDay * a.settings.rampUp
  {
    Min(a.settings.dailyVolume + newDay * a.settings.rampUp, a.dailySendLimit)
  }

  /** Bounce rate above 2% (`bounces / volume * 100 > 2`), zero volume counting as 0%. */
  predicate DayBounceTooHigh(bounces: nat, volume: int) {
    volume > 0 && bounces * 100 > 2 * volume
  }

  function ReputationChange(bounces: nat, volume: int, replies: nat): (c: int)
    ensures DayBounceTooHigh(bounces, volume) ==> c == -5
    ensures !DayBounceTooHigh(bounces, volume) && replies > 0 ==> c == 2
    ensures !DayBounceTooHigh(bounces, volume) && replies == 0 ==> c == 0
  {
    if DayBounceTooHigh(bounces, volume) then -5 else if replies > 0 then 2 else 0
  }

  /** `round(bounces / volume * 100, 2)` in hundredths, rounding halves up. */
  function BounceRateHundredths(bounces: nat, volume: int): (r: nat)
    ensures volume <= 0 ==> r == 0
    ensures volume > 0 ==> 2 * volume * r <= bounces * 20000 + volume < 2 * volume * (r + 1)
  {
    if volume > 0 then (bounces * 20000 + volume) / (2 * volume) else 0
  }

  /** The state update of one job step, before the health check. */
  function Advance(a: Account, draw: WarmupDraw): (Account, AccountWarmupLog) {
    var newDay := a.warmupDay + 1;
    var volume := ExpectedVolume(a, newDay);
    var completed := newDay >= AccountWarmupDays;
    var log := AccountWarmupLog(a.id, newDay, volume, draw.delivered, draw.replies, draw.opens, draw.bounces, draw.spamFlags);
    var next := a.(
      warmupDay := newDay,
      warmupCompleted := completed,
      warmupStatus := if completed then Completed else Active,
      totalEmailsSent := a.totalEmailsSent + volume,
      totalReplies := a.totalReplies + draw.replies,
      totalOpens := a.totalOpens + draw.opens,
      bounceRate := BounceRateHundredths(draw.bounces, volume),
      reputationScore := Clamp(a.reputationScore + ReputationChange(draw.bounces, volume, draw.replies), 0, 100),
      emailsSentToday := volume);
    (next, log)
  }

  /** An account with every field the nightly job writes blanked out. */
  function JobBlanked(a: Account): Account {
    a.(warmupDay := 0, warmupCompleted := false, warmupStatus := Inactive, totalEmailsSent := 0,
       totalReplies := 0, totalOpens := 0, bounceRate := 0, reputationScore := 0, emailsSentToday := 0,
       healthStatus := Healthy, isPaused := false, pauseReason := None)
  }

  /** One account's turn in `progress_sending_account_warmup`, health check included. */
  function ProgressAccount(a: Account, draw: WarmupDraw): (r: (Account, Option<AccountWarmupLog>))
    ensures !Eligible(a) ==> r == (a, None)
    ensures Eligible(a) ==>
      var b := r.0;
      var volume := ExpectedVolume(a, a.warmupDay + 1);
      && b.warmupDay == a.warmupDay + 1
      && (b.warmupCompleted <==> a.warmupDay + 1 >= AccountWarmupDays)
      && b.emailsSentToday == volume
      && b.totalEmailsSent == a.totalEmailsSent + volume
      && 0 <= b.reputationScore <= 100
      && b.reputationScore == Clamp(a.reputationScore + ReputationChange(draw.bounces, volume, draw.replies), 0, 100)
      && (b.isPaused ==> b.warmupStatus == Paused)
      && (!b.isPaused ==> (b.warmupStatus == Completed <==> a.warmupDay + 1 >= AccountWarmupDays))
      && (!b.isPaused ==> (b.warmupStatus == Active <==> a.warmupDay + 1 < AccountWarmupDays))
      && b.spamRate == a.spamRate
      && b.bounceRate == BounceRateHundredths(draw.bounces, volume)
      && b.totalReplies == a.totalReplies + draw.replies
      && b.totalOpens == a.totalOpens + draw.opens
      && b.healthStatus == Classify(b.bounceRate, a.spamRate, b.reputationScore)
      && (b.isPaused <==>
            && b.healthStatus == Critical
            && a.settings.autoPauseBounceRate != 0
            && b.bounceRate >= a.settings.autoPauseBounceRate)
      && (b.isPaused ==> b.pauseReason == Some(CriticalMetrics(b.bounceRate, a.spamRate)))
      && (!b.isPaused ==> b.pauseReason == a.pauseReason)
      && b.settings == a.settings
      // no field outside the job's writes changes
      && JobBlanked(b) == JobBlanked(a)
      && r.1 == Some(AccountWarmupLog(a.id, a.warmupDay + 1, volume, draw.delivered, draw.replies,
                                      draw.opens, draw.bounces, draw.spamFlags))
  {
    if Eligible(a) then
      var (next, log) := Advance(a, draw);
      (CheckAccountHealth(next), Some(log))
    else (a, None)
  }

  /**
   * The job draws at most 2% bounces (`int(volume * uniform(0, 0.02))`). With
   * such a draw the reputation never falls, the stored bounce rate stays at
   * or under 2%, and the default 4% threshold never pauses on bounces.
   */
  lemma SimulatedDrawNeverPenalises(a: Account, draw: WarmupDraw)
    requires Eligible(a)
    requires 0 <= a.reputationScore <= 100
    requires draw.bounces * 100 <= 2 * ExpectedVolume(a, a.warmupDay + 1)
    requires a.settings.autoPauseBounceRate == DefaultSettings.autoPauseBounceRate
    ensures ProgressAccount(a, draw).0.reputationScore >= a.reputationScore
    ensures ProgressAccount(a, draw).0.bounceRate <= RiskyBounce
    ensures !ProgressAccount(a, draw).0.isPaused
  {
    var volume := ExpectedVolume(a, a.warmupDay + 1);
    if volume > 0 {
      BounceRateAtMostTwoPercent(draw.bounces, volume);
    }
  }

  /** `b <= 2% of v` rounds to at most 200 hundredths of a percent. */
  lemma BounceRateAtMostTwoPercent(b: nat, v: int)
    requires v > 0 && b * 100 <= 2 * v
    ensures BounceRateHundredths(b, v) <= RiskyBounce
  {
    assert b * 20000 + v <= 401 * v;
    assert (b * 20000 + v) / (2 * v) <= 200;
  }

  /** Once an account's warm-up is completed the job leaves it alone. */
  lemma CompletedIsFixedPoint(a: Account, draw: WarmupDraw)
    requires a.warmupStatus == Completed
    ensures ProgressAccount(a, draw).0 == a
  {
  }

  /** The job over `n` nights with the given draws. */
  function RunAccountJob(a: Account, draws: seq<WarmupDraw>): Account
    decreases |draws|
  {
    if |draws| == 0 then a else ProgressAccount(RunAccountJob(a, draws[..|draws| - 1]), draws[|draws| - 1]).0
  }

  /** The warm-up day never goes back and moves at most one day per night. */
  lemma {:induction false} WarmupDayAdvancesAtMostOnePerNight(a: Account, draws: seq<WarmupDraw>)
    ensures a.warmupDay <= RunAccountJob(a, draws).warmupDay <= a.warmupDay + |draws|
    decreases |draws|
  {
    if |draws| > 0 {
      WarmupDayAdvancesAtMostOnePerNight(a, draws[..|draws| - 1]);
    }
  }

  /** Reachable warm-up shape: at most 30 days, completed exactly at 30, active only before 30. */
  predicate WithinWarmup(a: Account) {
    a.warmupDay <= AccountWarmupDays
    && (a.warmupCompleted <==> a.warmupDay == AccountWarmupDays)
    && (a.warmupStatus == Active ==> a.warmupDay < AccountWarmupDays)
  }

  /** The nightly job keeps an account within the 30-day warm-up, however many nights it runs. */
  lemma {:induction false} JobStaysWithinWarmup(a: Account, draws: seq<WarmupDraw>)
    requires WithinWarmup(a)
    ensures WithinWarmup(RunAccountJob(a, draws))
    decreases |draws|
  {
    if |draws| > 0 {
      JobStaysWithinWarmup(a, draws[..|draws| - 1]);
    }
  }

  /** Pause, resume and pause-warmup keep an account within the 30-day warm-up. */
  lemma ControlsStayWithinWarmup(a: Account, reason: Option<string>)
    requires WithinWarmup(a)
    ensures WithinWarmup(Pause(Some(a), reason).value)
    ensures WithinWarmup(Resume(Some(a)).value)
    ensures WithinWarmup(PauseWarmup(Some(a)).value)
  {
  }

  /**
   * Starting warm-up on a completed account makes it active again, and the
   * next night takes it to day 31: the 30-day bound is not kept by start.
   */
  lemma RestartPassesDayThirty(a: Account, draw: WarmupDraw)
    requires a.warmupDay == AccountWarmupDays && a.warmupCompleted && a.isVerified && !a.isPaused
    ensures StartWarmup(Some(a)).Ok?
    ensures ProgressAccount(StartWarmup(Some(a)).value, draw).0.warmupDay == AccountWarmupDays + 1
  {
  }
}
