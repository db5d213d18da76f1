/**
 * Campaigns: admission against the domain's pause flag and remaining quota at
 * creation time, and the send loop that moves a draft through `sending` to
 * `completed`, counting every recipient against the domain.
 */
module Campaigns {
  import opened Basics
  import opened Plans
  import opened Domains

  datatype Status = Draft | Scheduled | Sending | Completed | Paused

  datatype Campaign = Campaign(
    id: string,
    userId: string,
    domainId: string,
    name: string,
    subject: string,
    body: string,
    recipients: seq<string>,
    status: Status,
    sentCount: nat,
    deliveredCount: nat,
    bounceCount: nat,
    spamCount: nat,
    replyCount: nat)

  datatype CampaignInput = CampaignInput(domainId: string, name: string, subject: string, body: string, recipients: seq<string>)

  /** The simulated outcome of one send, drawn at random by the mock transport. */
  datatype Delivery = Delivered | Bounced | Spam

  datatype CampaignError =
    | DomainNotFound
    | DomainPaused(reason: Option<PauseReason>)
    | DailyLimitExceeded(remaining: int)
    | CampaignNotFound
    | AlreadySent

  /** The two collections the send path reads and writes. */
  datatype Store = Store(domains: map<string, Domain>, campaigns: seq<Campaign>)

  function Remaining(d: Domain): int { d.dailyLimit - d.sentToday }

  predicate OwnsDomain(domains: map<string, Domain>, user: User, domainId: string) {
    domainId in domains && domains[domainId].userId == user.id
  }

  /** `POST /campaigns`: the domain must be the user's, unpaused, and have room for every recipient today. */
  function CreateCampaign(domains: map<string, Domain>, user: User, input: CampaignInput, newId: string)
    : (r: Result<Campaign, CampaignError>)
    ensures r == Err(DomainNotFound) <==> !OwnsDomain(domains, user, input.domainId)
    ensures (r.Err? && r.error.DomainPaused?) <==>
      OwnsDomain(domains, user, input.domainId) && domains[input.domainId].isPaused
    ensures (r.Err? && r.error.DailyLimitExceeded?) <==>
      OwnsDomain(domains, user, input.domainId) && !domains[input.domainId].isPaused
      && |input.recipients| > Remaining(domains[input.domainId])
    ensures r.Ok? <==>
      OwnsDomain(domains, user, input.domainId) && !domains[input.domainId].isPaused
      && |input.recipients| <= Remaining(domains[input.domainId])
    ensures r.Ok? ==>
      && OwnsDomain(domains, user, input.domainId)
      && !domains[input.domainId].isPaused
      && domains[input.domainId].sentToday + |input.recipients| <= domains[input.domainId].dailyLimit
      && r.value == Campaign(newId, user.id, input.domainId, input.name, input.subject, input.body,
                             input.recipients, Draft, 0, 0, 0, 0, 0)
  {
    if !OwnsDomain(domains, user, input.domainId) then Err(DomainNotFound)
    else
      var d := domains[input.domainId];
      if d.isPaused then Err(DomainPaused(d.pauseReason))
      else if |input.recipients| > Remaining(d) then Err(DailyLimitExceeded(Remaining(d)))
      else Ok(Campaign(newId, user.id, input.domainId, input.name, input.subject, input.body,
                       input.recipients, Draft, 0, 0, 0, 0, 0))
  }

  /** Position of the first campaign with this id (`update_one` touches only that one). */
  function FirstIndex(cs: seq<Campaign>, id: string): (r: Option<nat>)
    ensures r.Some? ==> r.value < |cs| && cs[r.value].id == id
    ensures r.Some? ==> forall j :: 0 <= j < r.value ==> cs[j].id != id
    ensures r.None? ==> forall j :: 0 <= j < |cs| ==> cs[j].id != id
  {
    if |cs| == 0 then None
    else if cs[0].id == id then Some(0)
    else match FirstIndex(cs[1..], id)
      case Some(k) => Some(k + 1)
      case None => None
  }

  /** Rewriting an entry without changing its id keeps every first-index lookup. */
  lemma FirstIndexStable(cs: seq<Campaign>, k: nat, c: Campaign, id: string)
    requires k < |cs| && c.id == cs[k].id
    ensures FirstIndex(cs[k := c], id) == FirstIndex(cs, id)
  {
    var cs' := cs[k := c];
    assert forall j :: 0 <= j < |cs| ==> cs'[j].id == cs[j].id;
    var a := FirstIndex(cs', id);
    var b := FirstIndex(cs, id);
    if a.Some? && b.Some? {
      assert cs[a.value].id == id && cs'[b.value].id == id;
      assert !(a.value < b.value) && !(b.value < a.value);
    }
  }

  /** The `$inc` one send applies to its campaign. */
  function Record(c: Campaign, o: Delivery): Campaign {
    match o
    case Delivered => c.(sentCount := c.sentCount + 1, deliveredCount := c.deliveredCount + 1)
    case Bounced => c.(sentCount := c.sentCount + 1, bounceCount := c.bounceCount + 1)
    case Spam => c.(sentCount := c.sentCount + 1, spamCount := c.spamCount + 1)
  }

  function UpdateFirst(cs: seq<Campaign>, id: string, f: Campaign -> Campaign): (r: seq<Campaign>)
    requires forall c :: f(c).id == c.id
    ensures |r| == |cs|
    ensures FirstIndex(cs, id).None? ==> r == cs
    ensures FirstIndex(cs, id).Some? ==> r == cs[FirstIndex(cs, id).value := f(cs[FirstIndex(cs, id).value])]
    ensures FirstIndex(r, id) == FirstIndex(cs, id)
  {
    match FirstIndex(cs, id)
    case None => cs
    case Some(k) =>
      FirstIndexStable(cs, k, f(cs[k]), id);
      cs[k := f(cs[k])]
  }

  /** Campaign totals of one domain, as `check_domain_health` sums them. */
  function SentFor(cs: seq<Campaign>, domainId: string): nat {
    if |cs| == 0 then 0 else (if cs[0].domainId == domainId then cs[0].sentCount else 0) + SentFor(cs[1..], domainId)
  }

  function BouncedFor(cs: seq<Campaign>, domainId: string): nat {
    if |cs| == 0 then 0 else (if cs[0].domainId == domainId then cs[0].bounceCount else 0) + BouncedFor(cs[1..], domainId)
  }

  function SpamFor(cs: seq<Campaign>, domainId: string): nat {
    if |cs| == 0 then 0 else (if cs[0].domainId == domainId then cs[0].spamCount else 0) + SpamFor(cs[1..], domainId)
  }

  /** Runs the health check of `domainId` against the stored campaigns, if the domain exists. */
  function RecheckDomain(domains: map<string, Domain>, cs: seq<Campaign>, domainId: string): map<string, Domain> {
    if domainId in domains then
      domains[domainId := CheckDomainHealth(domains[domainId], SentFor(cs, domainId), BouncedFor(cs, domainId), SpamFor(cs, domainId))]
    else domains
  }

  /** `send_email_mock`: count the outcome on the campaign, one more send on the domain, then the health check. */
  function SendEmail(st: Store, domainId: string, campaignId: string, o: Delivery): (r: Store)
    ensures r.domains.Keys == st.domains.Keys
    ensures forall id :: id in st.domains && id != domainId ==> r.domains[id] == st.domains[id]
    ensures domainId in st.domains ==>
      && r.domains[domainId].sentToday == st.domains[domainId].sentToday + 1
      && (st.domains[domainId].isPaused ==> r.domains[domainId].isPaused)
      && r.domains[domainId].healthScore <= st.domains[domainId].healthScore
      && r.domains[domainId].dailyLimit == st.domains[domainId].dailyLimit
    ensures |r.campaigns| == |st.campaigns|
    ensures FirstIndex(r.campaigns, campaignId) == FirstIndex(st.campaigns, campaignId)
    ensures FirstIndex(st.campaigns, campaignId).Some? ==>
      var k := FirstIndex(st.campaigns, campaignId).value;
      r.campaigns == st.campaigns[k := Record(st.campaigns[k], o)]
  {
    var cs := UpdateFirst(st.campaigns, campaignId, c => Record(c, o));
    var ds := if domainId in st.domains
      then st.domains[domainId := st.domains[domainId].(sentToday := st.domains[domainId].sentToday + 1)]
      else st.domains;
    Store(RecheckDomain(ds, cs, domainId), cs)
  }

  /**
   * After each send the domain is re-checked by the health check, against the
   * campaign totals as they stand once the send is counted.
   */
  lemma SendEmailRechecksHealth(st: Store, domainId: string, campaignId: string, o: Delivery)
    requires domainId in st.domains
    ensures var r := SendEmail(st, domainId, campaignId, o);
      var d := st.domains[domainId];
      r.domains[domainId] == CheckDomainHealth(d.(sentToday := d.sentToday + 1),
                                               SentFor(r.campaigns, domainId), BouncedFor(r.campaigns, domainId),
                                               SpamFor(r.campaigns, domainId))
  {
  }

  /** The first `n` sends of the loop; `draw(i)` is the random outcome of the i-th send. */
  function SendAll(st: Store, domainId: string, campaignId: string, draw: nat -> Delivery, n: nat): Store {
    if n == 0 then st else SendEmail(SendAll(st, domainId, campaignId, draw, n - 1), domainId, campaignId, draw(n - 1))
  }

  function CountOf(draw: nat -> Delivery, n: nat, o: Delivery): nat {
    if n == 0 then 0 else CountOf(draw, n - 1, o) + (if draw(n - 1) == o then 1 else 0)
  }

  lemma CountsCoverAll(draw: nat -> Delivery, n: nat)
    ensures CountOf(draw, n, Delivered) + CountOf(draw, n, Bounced) + CountOf(draw, n, Spam) == n
  {
  }

  /**
   * After `n` sends the campaign at position `k` has `n` more sends, split by
   * outcome, and every other campaign is untouched.
   */
  lemma {:induction false} SendAllCampaign(st: Store, domainId: string, campaignId: string, draw: nat -> Delivery, n: nat, k: nat)
    requires FirstIndex(st.campaigns, campaignId) == Some(k)
    ensures var r := SendAll(st, domainId, campaignId, draw, n);
      && |r.campaigns| == |st.campaigns|
      && FirstIndex(r.campaigns, campaignId) == Some(k)
      && r.campaigns[k] == st.campaigns[k].(
           sentCount := st.campaigns[k].sentCount + n,
           deliveredCount := st.campaigns[k].deliveredCount + CountOf(draw, n, Delivered),
           bounceCount := st.campaigns[k].bounceCount + CountOf(draw, n, Bounced),
           spamCount := st.campaigns[k].spamCount + CountOf(draw, n, Spam))
      && (forall j :: 0 <= j < |st.campaigns| && j != k ==> r.campaigns[j] == st.campaigns[j])
  {
    if n > 0 {
      SendAllCampaign(st, domainId, campaignId, draw, n - 1, k);
      var prev := SendAll(st, domainId, campaignId, draw, n - 1);
      var r := SendEmail(prev, domainId, campaignId, draw(n - 1));
      assert r.campaigns == prev.campaigns[k := Record(prev.campaigns[k], draw(n - 1))];
    }
  }

  /**
   * After `n` sends the domain has `n` more sends today, whatever its limit; a
   * paused domain stays paused and every other domain is untouched.
   */
  lemma {:induction false} SendAllDomain(st: Store, domainId: string, campaignId: string, draw: nat -> Delivery, n: nat)
    ensures var r := SendAll(st, domainId, campaignId, draw, n);
      && r.domains.Keys == st.domains.Keys
      && (forall id :: id in st.domains && id != domainId ==> r.domains[id] == st.domains[id])
      && (domainId in st.domains ==>
            && r.domains[domainId].sentToday == st.domains[domainId].sentToday + n
            && r.domains[domainId].dailyLimit == st.domains[domainId].dailyLimit
            && r.domains[domainId].healthScore <= st.domains[domainId].healthScore
            && (st.domains[domainId].isPaused ==> r.domains[domainId].isPaused))
  {
    if n > 0 {
      SendAllDomain(st, domainId, campaignId, draw, n - 1);
    }
  }

  /** `POST /campaigns/{id}/send`. */
  function SendCampaign(st: Store, userId: string, campaignId: string, draw: nat -> Delivery): (r: Result<Store, CampaignError>)
    ensures r == Err(CampaignNotFound) <==>
      FirstIndex(st.campaigns, campaignId).None? || st.campaigns[FirstIndex(st.campaigns, campaignId).value].userId != userId
    ensures r == Err(AlreadySent) <==>
      FirstIndex(st.campaigns, campaignId).Some?
      && st.campaigns[FirstIndex(st.campaigns, campaignId).value].userId == userId
      && st.campaigns[FirstIndex(st.campaigns, campaignId).value].status != Draft
    ensures r.Ok? <==>
      FirstIndex(st.campaigns, campaignId).Some?
      && st.campaigns[FirstIndex(st.campaigns, campaignId).value].userId == userId
      && st.campaigns[FirstIndex(st.campaigns, campaignId).value].status == Draft
    ensures r.Ok? ==>
      var k := FirstIndex(st.campaigns, campaignId).value;
      var c := st.campaigns[k];
      var n := |c.recipients|;
      && c.status == Draft
      && |r.value.campaigns| == |st.campaigns|
      && r.value.campaigns[k].status == Completed
      && r.value.campaigns[k].recipients == c.recipients
      && r.value.campaigns[k].sentCount == c.sentCount + n
      && r.value.campaigns[k].deliveredCount == c.deliveredCount + CountOf(draw, n, Delivered)
      && r.value.campaigns[k].bounceCount == c.bounceCount + CountOf(draw, n, Bounced)
      && r.value.campaigns[k].spamCount == c.spamCount + CountOf(draw, n, Spam)
      // only the status and the counters of the sent campaign change
      && r.value.campaigns[k].(status := c.status, sentCount := c.sentCount, deliveredCount := c.deliveredCount,
                               bounceCount := c.bounceCount, spamCount := c.spamCount) == c
      && r.value.campaigns[k].deliveredCount + r.value.campaigns[k].bounceCount + r.value.campaigns[k].spamCount
         == c.deliveredCount + c.bounceCount + c.spamCount + n
      && (forall j :: 0 <= j < |st.campaigns| && j != k ==> r.value.campaigns[j] == st.campaigns[j])
      && r.value.domains.Keys == st.domains.Keys
      && (forall id :: id in st.domains && id != c.domainId ==> r.value.domains[id] == st.domains[id])
      && (c.domainId in st.domains ==>
            && r.value.domains[c.domainId].sentToday == st.domains[c.domainId].sentToday + n
            && (st.domains[c.domainId].isPaused ==> r.value.domains[c.domainId].isPaused))
  {
    match FirstIndex(st.campaigns, campaignId)
    case None => Err(CampaignNotFound)
    case Some(k) =>
      var c := st.campaigns[k];
      if c.userId != userId then Err(CampaignNotFound)
      else if c.status != Draft then Err(AlreadySent)
      else
        FirstIndexStable(st.campaigns, k, c.(status := Sending), campaignId);
        var sending := st.(campaigns := st.campaigns[k := c.(status := Sending)]);
        var n := |c.recipients|;
        SendAllCampaign(sending, c.domainId, campaignId, draw, n, k);
        SendAllDomain(sending, c.domainId, campaignId, draw, n);
        CountsCoverAll(draw, n);
        var sent := SendAll(sending, c.domainId, campaignId, draw, n);
        Ok(sent.(campaigns := UpdateFirst(sent.campaigns, campaignId, (x: Campaign) => x.(status := Completed))))
  }

  /**
   * The quota is only checked when a campaign is created: two drafts that each
   * fit today's remaining quota are both sent in full, and the domain ends the
   * day over its limit.
   */
  lemma QuotaNotRecheckedAtSend(st: Store, user: User, id1: string, id2: string, draw: nat -> Delivery, dom: string)
    requires dom in st.domains && st.domains[dom].userId == user.id && !st.domains[dom].isPaused
    requires st.domains[dom].sentToday == 0 && st.domains[dom].dailyLimit > 0
    requires |st.campaigns| == 2 && id1 != id2
    requires var L := st.domains[dom].dailyLimit;
      && st.campaigns[0].id == id1 && st.campaigns[1].id == id2
      && st.campaigns[0].userId == user.id && st.campaigns[1].userId == user.id
      && st.campaigns[0].domainId == dom && st.campaigns[1].domainId == dom
      && st.campaigns[0].status == Draft && st.campaigns[1].status == Draft
      && |st.campaigns[0].recipients| == L && |st.campaigns[1].recipients| == L
    ensures CreateCampaign(st.domains, user, CampaignInput(dom, "", "", "", st.campaigns[0].recipients), id1).Ok?
    ensures CreateCampaign(st.domains, user, CampaignInput(dom, "", "", "", st.campaigns[1].recipients), id2).Ok?
    ensures var first := SendCampaign(st, user.id, id1, draw);
      first.Ok? && SendCampaign(first.value, user.id, id2, draw).Ok?
      && SendCampaign(first.value, user.id, id2, draw).value.domains[dom].sentToday
         == 2 * st.domains[dom].dailyLimit > st.domains[dom].dailyLimit
  {
    assert FirstIndex(st.campaigns, id1) == Some(0);
    assert FirstIndex(st.campaigns, id2) == Some(1) by {
      assert st.campaigns[1..][0].id == id2;
    }
    var c0 := st.campaigns[0];
    FirstIndexStable(st.campaigns, 0, c0.(status := Sending), id1);
    var sending := st.(campaigns := st.campaigns[0 := c0.(status := Sending)]);
    SendAllCampaign(sending, dom, id1, draw, |c0.recipients|, 0);
    var first := SendCampaign(st, user.id, id1, draw);
    assert first.Ok?;
    assert first.value.campaigns[1] == st.campaigns[1];
    assert FirstIndex(first.value.campaigns, id1) == Some(0);
    assert FirstIndex(first.value.campaigns, id2) == Some(1) by {
      assert first.value.campaigns[0].id == id1;
      assert first.value.campaigns[1..][0].id == id2;
    }
  }
}
