# WarmUp Master: deliverability admission, in Dafny

WarmUp Master is an email warm-up and cold-outreach service. This project models its
admission core, which decides:
- how much a user may send, and through which domain or mailbox;
- when the service stops sending on its own.

It covers these parts:
- **Plans.** The plan table, with founder addresses overriding the plan (module `Plans`).
- **Domains.** Adding a domain against the plan, the 15-day ramp of the nightly job, and
  the automatic pause on bounce or complaint rates (`Domains`).
- **Campaigns.** Creating a campaign against the domain's quota and pause flag, and the
  send loop that counts each outcome (`Campaigns`).
- **Spam scoring.** The rule-based score and the clamping of a language-model reply
  (`SpamScoring`).
- **Sending accounts.** Pause, resume and warm-up start/stop, the partial update, the
  three-way health rating with its auto-pause, the 30-day warm-up job, and the statistics
  endpoint (`SendingAccounts`, `WarmupStats`).
- **Passwords.** Forgotten-password tokens (`PasswordReset`) and the administrator script
  that resets the founders' passwords (`FounderReset`).
- **Web client.** The logic that decides what the web client offers and shows:
  - the sidebar gating (`Navigation`);
  - the domains page (`DomainsPage`);
  - the warm-up page (`WarmupPage`);
  - the campaigns page (`CampaignsPage`).

Two shared modules support the rest:
- `Basics` holds `Option`, `Result` and the clamp idiom.
- `Text` holds the string operations the code relies on: Python's `lower`, `isupper`,
  `in` and `count`, and JavaScript's `split` and `trim`.

Modelling choices:
- **Records and handlers.** Every stored record is an immutable datatype. Every request
  handler is a pure function from the documents it reads to a `Result` of the documents it
  writes, or the HTTP error it raises.
- **Lookups.** A lookup by id that the handler filters by owner is an `Option` input.
- **Randomness, time and hashing** are parameters: the mock transport's outcome, the
  warm-up draws, the current instant, SHA-256, bcrypt and the Fernet cipher.
- **Percentages** are never floats:
  - thresholds on domains are compared by cross-multiplication (`bounced * 100 > 4 * sent`);
  - the rates stored on a sending account are integer hundredths of a percent, so 400 means 4.0%.

## Model

| member | source | states |
|---|---|---|
| `Basics.Clamp` | backend/server.py:542 | `min(hi, max(lo, x))` lies in `[lo, hi]`, is `x` inside the range, and the nearer bound outside it |
| `Text.Lower` | backend/server.py:46-48 | lower-casing keeps the length and maps each character independently |
| `Text.LowerIdempotent` | backend/server.py:46-48 | lower-casing an already lower-cased address changes nothing |
| `Text.Trim` | frontend/src/pages/CampaignsPage.js:81 | only blanks are cut, and exactly the maximal blank prefix and suffix: the result is an infix of the text with nothing but blanks before and after it and no blank at either of its own ends |
| `Text.Split` | frontend/src/pages/CampaignsPage.js:80 | splitting yields at least one piece and no piece contains the separator |
| `Text.SplitCount` | frontend/src/pages/CampaignsPage.js:80 | the number of pieces is one more than the number of separators |
| `Text.JoinSplit` | frontend/src/pages/CampaignsPage.js:80 | joining the pieces with the separator rebuilds the text |
| `Text.SplitJoin` | frontend/src/pages/CampaignsPage.js:80 | splitting separator-free pieces joined with the separator gives the pieces back |
| `Text.SplitAppend` | frontend/src/pages/CampaignsPage.js:80 | splitting `a + sep + b` is splitting `a` followed by splitting `b` |
| `Plans.LoweredFounders` | backend/server.py:41-48 | the founder list is compared in lower case, entry by entry |
| `Plans.FounderEmailCaseInsensitive` | backend/server.py:46-48 | an address is a founder's exactly when it equals some founder address ignoring case |
| `Plans.FounderEmailIgnoresCase` | backend/server.py:46-48 | two addresses that differ only in case are both founders or neither |
| `Plans.PlanTable` | backend/server.py:396-403 | an unknown plan gets the free limits |
| `Plans.GetPlanLimits` | backend/server.py:385-403 | a founder address gets 999 domains, 10000 a day and every mode whatever the plan; every plan allows cold outreach, requires warm-up and allows at least one domain; no plan names a mode outside the three |
| `Plans.PlanTableMonotone` | backend/server.py:396-403 | along free, premium, pro, enterprise the domain count, the daily volume and the mode set only grow |
| `Plans.InternalPlanIsFounderGrade` | backend/server.py:385-403 | the internal plan grants exactly what a founder address grants |
| `Domains.CreateDomain` | backend/server.py:800-838 | the plan's domain count is refused first, then a mode the plan lacks, then a duplicate name, each exactly in its case; a request passing all three checks is admitted; an admitted domain is stored at day 0 with limit 10 and the owner's count rises by one and stays within the plan |
| `Domains.FreePlanSecondDomainRejected` | backend/server.py:802-809 | a free-plan user who owns a domain is refused another with limit 1 |
| `Domains.RampLimit` | backend/server.py:583-594 | during the 15-day ramp the daily limit lies between 10 and 85 |
| `Domains.ProgressWarmup` | backend/server.py:580-617 | one night advances the day by one, resets today's count, completes the warm-up from day 15, sets the limit to 10 + 5·day during the ramp and to the owner's plan limit (or 20 without an owner) after it, changes nothing else, and logs yesterday's sends as delivered with no bounce |
| `Domains.ProgressWarmupJob` | backend/server.py:568-617 | the job keeps the set of domains, leaves completed domains untouched and applies the one-domain step `ProgressWarmup` to every other one (next day, ramp limit, completion) |
| `Domains.FreshDomainRamp` | backend/server.py:570-596 | a fresh domain after n nights is at day min(n, 15), completed exactly from night 15, with limit 10 + 5·min(n, 15) and never above 85, whatever its owner's plan |
| `Domains.CheckDomainHealth` | backend/server.py:623-667 | with no sends nothing changes; the domain is paused exactly when a bounce rate above 4% or a complaint rate above 0.2% is seen, bounce taking precedence in the reason; a pause costs 20 health points floored at 0; nothing else changes |
| `Domains.BounceThresholdIsStrict` | backend/server.py:651 | exactly 4 bounces in 100 sends does not pause a domain, 5 does |
| `Campaigns.CreateCampaign` | backend/server.py:913-951 | a domain the user does not own is not found, a paused one is refused, more recipients than today's remaining quota are refused, each exactly in its case; an owned, unpaused domain with room for every recipient admits the campaign; an admitted campaign is a draft with zero counters and fits the quota |
| `Campaigns.FirstIndex` | backend/server.py:692 | the index found is the first campaign with that id, and none is found only when no campaign has it |
| `Campaigns.FirstIndexStable` | backend/server.py:692 | rewriting a campaign without changing its id keeps every first-match lookup |
| `Campaigns.UpdateFirst` | backend/server.py:692 | an update by id rewrites only the first campaign with that id, or nothing when none has it |
| `Campaigns.SendEmail` | backend/server.py:671-698 | one send adds one to the domain's count today and counts the outcome on the first campaign with the id; the domain is never unpaused and its health never rises; no other domain changes |
| `Campaigns.SendEmailRechecksHealth` | backend/server.py:697-698 | after each send the domain is exactly what the health check makes of it, run on the campaign totals as they stand once the send is counted |
| `Campaigns.CountsCoverAll` | backend/server.py:677-690 | every send counts as exactly one of delivered, bounced or spam |
| `Campaigns.SendAllCampaign` | backend/server.py:973-980 | after n sends the campaign has n more sends split by outcome and every other campaign is unchanged |
| `Campaigns.SendAllDomain` | backend/server.py:973-980 | after n sends the domain has n more sends today with its limit unchanged, a paused domain stays paused, other domains are untouched |
| `Campaigns.SendCampaign` | backend/server.py:953-985 | a missing or foreign campaign is not found and a non-draft is refused, each exactly in its case; the owner's draft is always sent; a sent draft ends completed with one send per recipient and each outcome count raised by the number of draws of that outcome, and its other fields are kept; no other campaign changes; its domain is charged one send per recipient and no other domain changes |
| `Campaigns.QuotaNotRecheckedAtSend` | backend/server.py:928-983 | two drafts that each fit today's quota are both admitted and both sent, leaving the domain at twice its daily limit |
| `SpamScoring.Band` | backend/server.py:544-551 | low below 20, medium below 50, high below 75, critical otherwise, each exactly in its range |
| `SpamScoring.BandMonotone` | backend/server.py:544-551 | a higher score never lands in a lower band |
| `SpamScoring.Detect` | backend/server.py:501-539 | each of the seven rules sees its own fact: subject over 60 characters, a spam word in the subject, an all-caps subject, the `http://` plus `https://` count, a spam word in the body, a body under 50 characters, and a `{{` or `{%` token |
| `SpamScoring.AdviceEmptyIff` | backend/server.py:501-537 | the rules give no advice exactly when none of the advising rules fires |
| `SpamScoring.Heuristics` | backend/server.py:491-564 | the score is the weighted sum of the rules that fire, clamped at 0 (it never passes 80, so the upper clamp at 100 never bites), with its band; the predicted inbox rate is `max(30, 100 - score)`; there is always a recommendation, the rules' advice or the looks-good note; the long-subject and short-body advice appear exactly when those rules fire |
| `SpamScoring.CriticalIffEveryPenalty` | backend/server.py:501-551 | the rules rate a message critical exactly when all six penalties fire and it has no personalization token |
| `SpamScoring.BodySpamWordAddsNoAdvice` | backend/server.py:525-528 | a spam word in the body adds 10 points and a risk factor but no recommendation |
| `SpamScoring.PersonalizationNeverRaisesScore` | backend/server.py:535-537 | a personalization token never raises the clamped score |
| `SpamScoring.FromModel` | backend/server.py:460-481 | the score is the reply's value when in 0..100, 100 above and 0 below, 50 when absent; the inbox rate likewise with default 70; the band follows the score; the first five recommendations are kept in order; the factors are passed through |
| `SpamScoring.FromModelIdempotent` | backend/server.py:460-481 | reading a reply normalises it: a report fed back as the reply comes out unchanged, so clamping and truncation are already complete after one pass |
| `SpamScoring.AnalyzeSpamScore` | backend/server.py:407-489 | a parsed reply gives exactly the report read from it and any other outcome gives exactly the rule-based report; either way the score is in 0..100 with its band |
| `SpamScoring.ModelMayGiveNoAdvice` | backend/server.py:475 | a parsed reply without recommendations yields none, while the fallback never does |
| `SendingAccounts.PauseText` | backend/server.py:1365 | the stored reason is the given one, or the default text when it is missing or empty |
| `SendingAccounts.Pause` | backend/server.py:1350-1371 | a missing account is not found; otherwise it is paused with a manual reason, its warm-up status paused only when warm-up is enabled, nothing else changed |
| `SendingAccounts.Resume` | backend/server.py:1373-1404 | a missing account is not found; otherwise it is unpaused with no reason and the warm-up status is completed, active or inactive exactly as the two warm-up flags say, nothing else changed |
| `SendingAccounts.PauseResumeRoundTrip` | backend/server.py:1350-1404 | resuming a settled account after a pause gives back the account |
| `SendingAccounts.ResumeIdempotent` | backend/server.py:1373-1404 | resuming twice is resuming once |
| `SendingAccounts.StartWarmup` | backend/server.py:1406-1433 | a missing account is not found, an unverified one refused, a paused one refused, each exactly in its case; otherwise warm-up is enabled and active, the day kept, nothing else changed |
| `SendingAccounts.PauseWarmup` | backend/server.py:1435-1454 | only the warm-up status changes, to paused; the account itself is not paused |
| `SendingAccounts.UpdateWarmupSettings` | backend/server.py:1512-1538 | all eight settings are replaced and nothing else changes |
| `SendingAccounts.SettingsLastWriteWins` | backend/server.py:1512-1538 | replacing the settings twice keeps only the second |
| `SendingAccounts.UpdateAccount` | backend/server.py:1247-1277 | for every field of the patch body, including the SMTP fields and the eight warm-up settings, a set value replaces the stored one and an unset one keeps it; a password is stored encrypted only when non-empty; every field the body cannot name keeps its value |
| `SendingAccounts.EmptyUpdateIsIdentity` | backend/server.py:1261-1265 | the empty patch leaves the account as it was |
| `SendingAccounts.UpdatesCompose` | backend/server.py:1261-1265 | two patches in a row equal one patch in which each field's later value wins |
| `SendingAccounts.SettingsCompose` | backend/server.py:1261-1265 | two patches in a row leave the warm-up settings as their field-by-field combination does |
| `SendingAccounts.GetOrCompose` | backend/server.py:1261-1265 | a field read through a later patch over an earlier one is the field of their combination |
| `SendingAccounts.PatchUnpauseKeepsReason` | backend/server.py:1261-1265 | clearing the pause flag by patch keeps the pause reason and the paused warm-up status, where resume would make warm-up active |
| `SendingAccounts.SettingsRouteIsFullPatch` | backend/server.py:1523-1536 | the settings route is the account patch with all eight warm-up fields set |
| `SendingAccounts.Classify` | backend/server.py:1548-1562 | critical at 4% bounces or 0.5% complaints; otherwise risky at 2% bounces, 0.2% complaints or reputation below 70; healthy otherwise; each exactly in its case |
| `SendingAccounts.ClassifyMonotoneInBounce` | backend/server.py:1557-1562 | a higher bounce rate never gives a better rating |
| `SendingAccounts.CheckAccountHealth` | backend/server.py:1542-1577 | the rating is stored; a critical account whose bounce rate reaches a non-zero configured threshold is paused with the rates as reason; otherwise pause state and reason are kept; nothing else changes |
| `SendingAccounts.SpamAloneNeverPauses` | backend/server.py:1570-1575 | below the configured bounce threshold the account is never paused, even when complaints alone rate it critical |
| `SendingAccounts.ExpectedVolume` | backend/server.py:1593-1597 | the day's volume is the ramp `volume + day·ramp` capped by the account's daily limit |
| `SendingAccounts.ReputationChange` | backend/server.py:1627-1629 | more than 2% bounces costs 5 points, otherwise a reply earns 2, otherwise nothing |
| `SendingAccounts.BounceRateHundredths` | backend/server.py:1627-1643 | with no volume the stored rate is zero; otherwise it is `bounces / volume * 100` rounded to the nearest hundredth, halves up |
| `SendingAccounts.ProgressAccount` | backend/server.py:1589-1652 | an ineligible account is left alone; an eligible one advances one day, completes from day 30, sends the expected volume, adds the draw's replies and opens to the totals, stores the day's rounded bounce rate and the changed reputation, is rated by the health check on those figures, and is paused exactly when that rating is critical with a non-zero threshold its bounce rate reaches; every field outside those writes (limit, flags, settings, connection details, spam rate) is unchanged; the day's draw is logged |
| `SendingAccounts.SimulatedDrawNeverPenalises` | backend/server.py:1603-1629 | with the job's own draw of at most 2% bounces the reputation never falls, the stored bounce rate stays at or under 2%, and the default threshold never pauses |
| `SendingAccounts.BounceRateAtMostTwoPercent` | backend/server.py:1627-1643 | at most 2% bounces round to at most 200 hundredths of a percent |
| `SendingAccounts.CompletedIsFixedPoint` | backend/server.py:1583-1587 | the job leaves an account with completed warm-up alone |
| `SendingAccounts.WarmupDayAdvancesAtMostOnePerNight` | backend/server.py:1583-1637 | over n nights the warm-up day never goes back and rises by at most n |
| `SendingAccounts.JobStaysWithinWarmup` | backend/server.py:1581-1652 | however many nights run, an account stays within 30 days, is completed exactly at day 30 and is active only before it |
| `SendingAccounts.ControlsStayWithinWarmup` | backend/server.py:1350-1454 | pause, resume and warm-up pause keep an account within the 30-day warm-up |
| `SendingAccounts.RestartPassesDayThirty` | backend/server.py:1406-1433 | starting warm-up on a completed day-30 account makes it active and the next night takes it to day 31 |
| `WarmupStats.SumOfPrefix` | backend/server.py:1468-1478 | a column's total over the first rows never exceeds its total over all rows |
| `WarmupStats.Reverse` | backend/server.py:1486 | row i of the chart is row n−1−i of the newest-first list |
| `WarmupStats.GetWarmupStats` | backend/server.py:1456-1510 | each total is the column sum over the newest 30 rows; the chart holds the newest 14 rows oldest first; day and status are the account's |
| `Basics.FirstMatch` | backend/server.py:1094-1097 | the element found (a reset token here; a user by email at line 1054 and in the reset script) is the first satisfying the query, and none is found only when none satisfies it |
| `PasswordReset.ForgotPassword` | backend/server.py:1047-1085 | users never change; the store changes exactly when some stored address equals the lower-cased request, and then one unused token with the digest, valid for 3600 seconds, is appended |
| `PasswordReset.MixedCaseAddressGetsNoToken` | backend/server.py:1054 | when every stored address has a capital letter, as registration at lines 705-714 keeps it, no request issues a token |
| `PasswordReset.VerifyResetToken` | backend/server.py:1087-1107 | no unused token with the digest is invalid; otherwise only the first such token is looked at, it is rejected as expired exactly when its expiry instant has passed, and it is the token returned when accepted |
| `PasswordReset.SetPassword` | backend/server.py:1139-1145 | only the found user's hash changes |
| `PasswordReset.ResetPassword` | backend/server.py:1109-1151 | a password under 8 characters is refused first; otherwise the reset succeeds exactly when the token verifies and fails with its error; on success one token with the digest is marked used, others are kept, and only the token owner's hash changes |
| `PasswordReset.SingleUse` | backend/server.py:1109-1151 | with distinct digests a reset link works once; the second use finds no token |
| `PasswordReset.IssuedTokenVerifiesUntilExpiry` | backend/server.py:1047-1107 | a freshly issued token verifies up to its expiry instant and is rejected as expired after it |
| `FounderReset.ValidatePasswordStrength` | scripts/reset_founder_passwords.py:57-75 | a password is accepted exactly when it has at least 8 characters and an upper-case letter, a lower-case letter and a digit; each refusal carries its message |
| `FounderReset.SpecialCharacterNotRequired` | scripts/reset_founder_passwords.py:57-75 | a password of letters and digits only, with no special character, is accepted |
| `FounderReset.SpecialCharactersInterchangeable` | scripts/reset_founder_passwords.py:57-75 | the special-character test is computed but never consulted: two passwords that differ only where both hold a character that is neither a letter nor a digit get the same verdict |
| `FounderReset.TemporaryPasswordIsStrong` | scripts/reset_founder_passwords.py:54-75 | the script's temporary password passes its own rule |
| `FounderReset.FindByEmail` | scripts/reset_founder_passwords.py:107 | the user found is the first with that email, and none is found only when none has it |
| `FounderReset.Without` | scripts/reset_founder_passwords.py:133 | exactly the sessions of other users remain |
| `FounderReset.ResetFounderPassword` | scripts/reset_founder_passwords.py:93-156 | a missing or non-founder account is refused with nothing changed; otherwise the founder's hash is replaced and a change forced, other users are kept, the founder's sessions are dropped and one audit entry records how many |
| `FounderReset.SecondResetDropsNothing` | scripts/reset_founder_passwords.py:93-156 | a second reset of the same founder succeeds and finds no session to drop |
| `FounderReset.WithoutNothing` | scripts/reset_founder_passwords.py:133 | dropping a user's sessions when they have none changes nothing |
| `Navigation.PlanFeatures` | frontend/src/components/Layout.js:15-21 | exactly the five named plans have a feature list |
| `Navigation.FounderSeesEverything` | frontend/src/components/Layout.js:23-29 | a founder, and any user on the internal plan, may open every page |
| `Navigation.UnlistedPlanSeesNothing` | frontend/src/components/Layout.js:23-29 | a non-founder on an unlisted plan may open no page |
| `Navigation.FeaturesNested` | frontend/src/components/Layout.js:15-21 | each plan's pages include the previous plan's, and the internal plan lists enterprise's |
| `Navigation.AccessMonotone` | frontend/src/components/Layout.js:15-29 | access only grows along free, premium, pro, enterprise |
| `Navigation.GatedLink` | frontend/src/components/Layout.js:91-103 | a link is locked exactly when access is lacking; a locked link's `to` is the upgrade page, an unlocked one's its own page |
| `Navigation.GatedLinks` | frontend/src/components/Layout.js:88-97 | every item of a gated list is rendered by the gating rule, in order |
| `Navigation.FooterLinks` | frontend/src/components/Layout.js:187-192 | footer items lead to their own pages, never locked |
| `Navigation.Render` | frontend/src/components/Layout.js:88-192 | for any item lists, every locked link's `to` is the upgrade page, no footer link is locked, every unlocked link points at its own item's page, and the sidebar ends with the last footer item |
| `Navigation.GatedIsLockedWithoutAccess` | frontend/src/components/Layout.js:88-192 | for any item lists, exactly the primary and advanced items the user lacks access to are rendered locked |
| `Navigation.Sidebar` | frontend/src/components/Layout.js:88-192 | the sidebar has one link per item; every locked link's `to` is the upgrade page; no footer link is locked |
| `Navigation.SidebarTargets` | frontend/src/components/Layout.js:32-192 | every link points at its own page or at the upgrade page, and the upgrade page is always offered unlocked |
| `Navigation.RenderTargets` | frontend/src/components/Layout.js:88-192 | for any item lists, every link points at the upgrade page or at the page of an item with its key |
| `Navigation.ClickDestination` | frontend/src/components/Layout.js:97-103 | a click on a locked link is cancelled and goes nowhere; on an unlocked link it follows the `to` |
| `Navigation.SidebarClicks` | frontend/src/components/Layout.js:88-192 | a click goes nowhere exactly on the gated items the user lacks access to, and otherwise to the item's own page, so no click on a gated item reaches the upgrade page |
| `Navigation.FreeUserLocks` | frontend/src/components/Layout.js:15-29 | for a free non-founder, a gated item is locked exactly when it is not one of the five free pages |
| `Navigation.PlanBadge` | frontend/src/components/Layout.js:58-66 | the badge is the free one exactly when the plan is not premium, pro or enterprise |
| `Navigation.BadgesDistinguishPublicPlans` | frontend/src/components/Layout.js:58-66 | the four public plans wear four different badges |
| `Navigation.InternalPlanWearsFreeBadge` | frontend/src/components/Layout.js:23-66 | the internal plan opens every page yet wears the free badge |
| `DomainsPage.UiPlanLimits` | frontend/src/pages/DomainsPage.js:57-65 | an unlisted plan is shown the free limits |
| `DomainsPage.UiLimitsMatchServer` | frontend/src/pages/DomainsPage.js:57-65 | for the four public plans the page shows the limits the server enforces |
| `DomainsPage.ModeOptions` | frontend/src/pages/DomainsPage.js:119-125 | cold outreach is offered first and always; founder outbound exactly on premium, pro and enterprise; newsletter exactly on pro and enterprise |
| `DomainsPage.ModeOptionsMatchServer` | frontend/src/pages/DomainsPage.js:119-125 | for the four public plans the form offers exactly the modes the server accepts |
| `DomainsPage.PageUnderstatesPrivilegedUsers` | frontend/src/pages/DomainsPage.js:57-125 | for the internal plan or a founder on free, the page shows the free limits and cold outreach only, while the server allows 999 domains and every mode |
| `DomainsPage.BarWidthFifteenths` | frontend/src/pages/DomainsPage.js:188 | the width is `100·day` percent (in fifteenths) before day 15, never exceeds full width, and is full exactly from day 15 |
| `DomainsPage.BarTracksWarmup` | frontend/src/pages/DomainsPage.js:188 | the bar never shrinks over a night and is full exactly when the server marks warm-up complete |
| `WarmupPage.WarmupStatus` | frontend/src/pages/WarmupPage.js:30-34 | completed wins over paused, which wins over active, each exactly in its case |
| `WarmupPage.ForecastMatchesJob` | frontend/src/pages/WarmupPage.js:46-48 | during the ramp the page's forecast for tomorrow is the limit the nightly job sets |
| `WarmupPage.ForecastDivergesAfterRamp` | frontend/src/pages/WarmupPage.js:171 | past day 15 the forecast keeps climbing while an ownerless domain drops to 20 |
| `WarmupPage.InWarmup` | frontend/src/pages/WarmupPage.js:50 | the in-warm-up list holds exactly the domains not completed |
| `WarmupPage.CompletedDomains` | frontend/src/pages/WarmupPage.js:51 | the completed list holds exactly the completed domains |
| `WarmupPage.SplitIsPartition` | frontend/src/pages/WarmupPage.js:50-51 | the two lists together hold every domain exactly once |
| `WarmupPage.JobKeepsInStep` | frontend/src/pages/WarmupPage.js:130-132 | the nightly job keeps the completed flag in step with the day |
| `WarmupPage.InWarmupFiguresBounded` | frontend/src/pages/WarmupPage.js:131-197 | for an in-step domain in warm-up, 1 to 15 days remain, progress is under 100%, and the great-progress note appears only in the last five days |
| `WarmupPage.OutOfStepOverflows` | frontend/src/pages/WarmupPage.js:131-132 | a domain past day 15 not marked complete shows negative days remaining and over 100% progress |
| `CampaignsPage.MapAll` | frontend/src/pages/CampaignsPage.js:81 | mapping keeps the length and applies the function to each entry |
| `CampaignsPage.NonEmpty` | frontend/src/pages/CampaignsPage.js:82 | filtering keeps exactly the non-empty entries |
| `CampaignsPage.MapAllAppend` | frontend/src/pages/CampaignsPage.js:81 | mapping a concatenation is concatenating the maps |
| `CampaignsPage.NonEmptyAppend` | frontend/src/pages/CampaignsPage.js:82 | filtering a concatenation is concatenating the filters |
| `CampaignsPage.ParseRecipients` | frontend/src/pages/CampaignsPage.js:79-82 | the box yields at most one recipient per comma plus one, each non-empty, comma-free and without blanks at either end |
| `CampaignsPage.ParseOnePiece` | frontend/src/pages/CampaignsPage.js:79-82 | a comma-free box yields its trimmed text as the one recipient, or nothing when it is blank |
| `CampaignsPage.PiecesClean` | frontend/src/pages/CampaignsPage.js:79-82 | comma-free pieces, trimmed and filtered, are clean recipients |
| `CampaignsPage.TrimmedPieceClean` | frontend/src/pages/CampaignsPage.js:81-82 | a non-empty trimmed comma-free piece is a clean recipient |
| `CampaignsPage.ParseRecipientsAppend` | frontend/src/pages/CampaignsPage.js:79-82 | the recipients before a comma come before those after it |
| `CampaignsPage.ParseJoinRoundTrip` | frontend/src/pages/CampaignsPage.js:79-82 | writing clean recipients comma-separated and parsing the box gives them back |
| `CampaignsPage.NonEmptyKeepsClean` | frontend/src/pages/CampaignsPage.js:82 | filtering a list with no empty entry keeps it |
| `CampaignsPage.AnalysisMode` | frontend/src/pages/CampaignsPage.js:61-65 | the request carries the chosen domain's mode, or cold outreach when there is none |
| `CampaignsPage.SpamRequest` | frontend/src/pages/CampaignsPage.js:53-66 | a request is sent exactly when subject and body are both filled in, with them and the mode |
| `CampaignsPage.ModelessRequestGetsColdOutreachBonus` | frontend/src/pages/CampaignsPage.js:60-66 | a request for a domain with no mode is scored as cold outreach, so a message with at most one link earns the rule-based few-links bonus |
| `CampaignsPage.RiskBadgeLabel` | frontend/src/pages/CampaignsPage.js:108-117 | an unknown level is shown as medium |
| `CampaignsPage.BadgeDistinguishesServerLevels` | frontend/src/pages/CampaignsPage.js:108-117 | every level the server sends has its own label, and only medium shows as medium |
| `CampaignsPage.Shown` | frontend/src/pages/CampaignsPage.js:256 | the page lists the first three recommendations, in order |
| `CampaignsPage.RuleScoreDisplay` | frontend/src/pages/CampaignsPage.js:256-264 | for a score from the rules the list is never empty, and the critical warning appears exactly for a critical rating |

## Left out

- Storage, HTTP and authentication plumbing is not modelled:
  - MongoDB drivers, FastAPI routing and CORS;
  - JWT issue and check, and `get_current_user`;
  - date parsing and the timestamps written alongside records.
- Ownership is not modelled as a filter. A lookup a handler filters by owner is an `Option` input, and `None` stands for "not found".
- Cryptography is left to parameters: SHA-256, bcrypt, the Fernet cipher and the token generator (`digest`, `hashPassword`, `encrypt`, `newHash`).
- The SMTP connection test and the `verify` route (`verify_smtp_connection`) are not modelled. They are network I/O.
- The language-model call is left out:
  - the key lookup, prompt, chat call and the extraction of JSON from fenced replies;
  - their outcome is the `ModelReply` input;
  - a reply whose fields have the wrong JSON types is not modelled.
- Scheduling and concurrency are left out. The scheduler that runs the nightly jobs is not modelled, and neither are concurrent requests interleaving with the jobs. Each job is a pure function over the stored records.
- Delays are left out: the mock transport's sleep, and the delay settings that are stored but never read.
- Randomness is left to inputs. The mock transport's weighted draw (96/3/1) and the warm-up job's uniform draws are inputs. `SimulatedDrawNeverPenalises` states the bound the job's own draw respects.
- Floating point is left out. Every rate is integer hundredths of a percent, and Python's `round(x, 2)` on binary floats is idealised as round-half-up.
  - Only the derived rates of `get_warmup_stats` are not modelled: reply rate, open rate and bounce rate.
- Text is handled on ASCII and code points:
  - case mapping covers ASCII letters only;
  - lengths count code points, not UTF-16 units or bytes.
- Routes that only read or delete are not modelled: registration and login, the dashboard, contacts, suppression, domain validation, and creating, listing, getting and deleting sending accounts.
- `create_sending_account` is not modelled. The account defaults it writes are `DefaultSettings`, and the rest of its fields are the datatype's.
- Display-only parts of the web pages are not modelled: the health-score colours, badges other than the plan and risk badges, and dialogs, toasts and routing.
- The reset script's `main()` is not modelled. That covers its loop over the founder list, its prompts and logging, and its own validation of the temporary password. `TemporaryPasswordIsStrong` states the check `main()` makes.
  - The script's `modified_count > 0` test is modelled as always passing, because the update always writes a fresh `password_changed_at`.
- CampaignsPage.RiskBadgeLabel: states only the fallback in its contract. The label of each known level is checked through `BadgeDistinguishesServerLevels`.
- DomainsPage.UiPlanLimits: states only the fallback and the lower bounds in its contract. The four listed plans are checked against the server through `UiLimitsMatchServer`.
- Plans.PlanTable: states only the fallback in its contract. The listed plans are checked through `GetPlanLimits`, `PlanTableMonotone` and `InternalPlanIsFounderGrade`.
- PasswordReset.ResetPassword: identifies the token marked used only by its digest. The backend marks the first token with that digest, used or not. Without distinct digests that can be a different token from the one verified; `SingleUse` assumes distinct digests.
- Ids are assumed unique: a lookup by id takes the first match, as `find_one` and `update_one` do. `send_campaign` reads the campaign by id and owner, but updates it by id alone; the model finds the first campaign with the id and then checks the owner. The two agree when ids are unique.
