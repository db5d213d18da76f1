/**
 * The sidebar of the web client: which feature pages a user may open, what
 * each link points at and where a click on it goes, and the plan badge.
 */
module Navigation {
  import opened Basics

  const FreeFeatures: seq<string> := ["dashboard", "warmup", "domains", "contacts", "campaigns"]
  const PremiumFeatures: seq<string> :=
    ["dashboard", "warmup", "domains", "sending-accounts", "contacts", "campaigns", "sequences", "analytics"]
  const ProFeatures: seq<string> :=
    ["dashboard", "warmup", "domains", "sending-accounts", "contacts", "campaigns", "sequences", "analytics",
     "deliverability", "suppression", "ai-assistant", "domain-rotation"]
  const EnterpriseFeatures: seq<string> :=
    ["dashboard", "warmup", "domains", "sending-accounts", "contacts", "campaigns", "sequences", "analytics",
     "deliverability", "suppression", "ai-assistant", "domain-rotation", "clients"]

  /** The `planFeatures` table; `None` for a plan it does not list. */
  function PlanFeatures(plan: string): (r: Option<seq<string>>)
    ensures r.None? <==> plan !in ["free", "premium", "pro", "enterprise", "enterprise_internal"]
  {
    if plan == "free" then Some(FreeFeatures)
    else if plan == "premium" then Some(PremiumFeatures)
    else if plan == "pro" then Some(ProFeatures)
    else if plan == "enterprise" then Some(EnterpriseFeatures)
    else if plan == "enterprise_internal" then Some(EnterpriseFeatures)
    else None
  }

  /** `hasAccess`: founders and the internal plan see everything; an unlisted plan sees nothing. */
  predicate HasAccess(role: Option<string>, plan: string, feature: string) {
    if role == Some("founder") || plan == "enterprise_internal" then true
    else PlanFeatures(plan).Some? && feature in PlanFeatures(plan).value
  }

  lemma FounderSeesEverything(plan: string, feature: string)
    ensures HasAccess(Some("founder"), plan, feature)
    ensures HasAccess(None, "enterprise_internal", feature)
  {
  }

  lemma UnlistedPlanSeesNothing(role: Option<string>, plan: string, feature: string)
    requires role != Some("founder")
    requires PlanFeatures(plan).None?
    ensures !HasAccess(role, plan, feature)
  {
  }

  /** Each plan's features include the previous plan's, and the internal plan lists enterprise's. */
  lemma FeaturesNested(f: string)
    ensures f in FreeFeatures ==> f in PremiumFeatures
    ensures f in PremiumFeatures ==> f in ProFeatures
    ensures f in ProFeatures ==> f in EnterpriseFeatures
    ensures PlanFeatures("enterprise_internal") == PlanFeatures("enterprise")
  {
  }

  /** Access grows along free, premium, pro, enterprise for a non-founder. */
  lemma AccessMonotone(role: Option<string>, f: string)
    ensures HasAccess(role, "free", f) ==> HasAccess(role, "premium", f)
    ensures HasAccess(role, "premium", f) ==> HasAccess(role, "pro", f)
    ensures HasAccess(role, "pro", f) ==> HasAccess(role, "enterprise", f)
  {
  }

  datatype NavItem = NavItem(path: string, caption: string, key: string)

  const PrimaryNav: seq<NavItem> := [
    NavItem("/", "Dashboard", "dashboard"),
    NavItem("/warmup", "Warm-Up", "warmup"),
    NavItem("/domains", "Domains", "domains"),
    NavItem("/sending-accounts", "Sending Accounts", "sending-accounts"),
    NavItem("/contacts", "Contacts", "contacts"),
    NavItem("/campaigns", "Campaigns", "campaigns"),
    NavItem("/sequences", "Sequences", "sequences"),
    NavItem("/analytics", "Analytics", "analytics"),
    NavItem("/deliverability", "Deliverability", "deliverability"),
    NavItem("/suppression", "Suppression", "suppression")]

  const AdvancedNav: seq<NavItem> := [
    NavItem("/ai-assistant", "AI Assistant", "ai-assistant"),
    NavItem("/domain-rotation", "Domain Rotation", "domain-rotation"),
    NavItem("/clients", "Clients", "clients")]

  const FooterNav: seq<NavItem> := [
    NavItem("/settings", "Settings", "settings"),
    NavItem("/upgrade", "Upgrade Plan", "upgrade")]

  const UpgradePath: string := "/upgrade"

  /**
   * One rendered link: its `to` attribute and whether it shows a lock. A
   * click on a locked link is cancelled, so its `to` is never followed.
   */
  datatype Link = Link(key: string, target: string, locked: bool)

  /** A gated item points at the upgrade page, and is locked, when the user lacks access. */
  function GatedLink(item: NavItem, role: Option<string>, plan: string): (l: Link)
    ensures l.key == item.key
    ensures l.locked <==> !HasAccess(role, plan, item.key)
    ensures l.target == (if l.locked then UpgradePath else item.path)
  {
    var locked := !HasAccess(role, plan, item.key);
    Link(item.key, if locked then UpgradePath else item.path, locked)
  }

  function GatedLinks(items: seq<NavItem>, role: Option<string>, plan: string): (ls: seq<Link>)
    ensures |ls| == |items|
    ensures forall i :: 0 <= i < |items| ==> ls[i] == GatedLink(items[i], role, plan)
  {
    if |items| == 0 then [] else [GatedLink(items[0], role, plan)] + GatedLinks(items[1..], role, plan)
  }

  /** Footer items are rendered ungated. */
  function FooterLinks(items: seq<NavItem>): (ls: seq<Link>)
    ensures |ls| == |items|
    ensures forall i :: 0 <= i < |items| ==> ls[i] == Link(items[i].key, items[i].path, false)
  {
    if |items| == 0 then [] else [Link(items[0].key, items[0].path, false)] + FooterLinks(items[1..])
  }

  /** Primary, advanced, then footer links, for any three item lists. */
  function Render(primary: seq<NavItem>, advanced: seq<NavItem>, footer: seq<NavItem>, role: Option<string>, plan: string)
    : (ls: seq<Link>)
    ensures |ls| == |primary| + |advanced| + |footer|
    ensures forall i :: 0 <= i < |ls| ==> ls[i].locked ==> ls[i].target == UpgradePath
    ensures forall i :: |primary| + |advanced| <= i < |ls| ==> !ls[i].locked
    ensures forall i :: 0 <= i < |ls| ==>
      ls[i].target == UpgradePath || ((primary + advanced + footer)[i].path == ls[i].target
                                      && (primary + advanced + footer)[i].key == ls[i].key)
    ensures forall i :: 0 <= i < |ls| ==> !ls[i].locked ==> ls[i].target == (primary + advanced + footer)[i].path
    ensures |footer| > 0 ==> ls[|ls| - 1] == Link(footer[|footer| - 1].key, footer[|footer| - 1].path, false)
  {
    var gated := GatedLinks(primary, role, plan) + GatedLinks(advanced, role, plan);
    var ls := gated + FooterLinks(footer);
    var all := primary + advanced + footer;
    forall i | 0 <= i < |ls|
      ensures ls[i].locked ==> ls[i].target == UpgradePath
      ensures i >= |primary| + |advanced| ==> !ls[i].locked
      ensures ls[i].target == UpgradePath || (all[i].path == ls[i].target && all[i].key == ls[i].key)
      ensures !ls[i].locked ==> ls[i].target == all[i].path
    {
      if i < |primary| {
        assert ls[i] == GatedLink(primary[i], role, plan) && all[i] == primary[i];
      } else if i < |primary| + |advanced| {
        var j := i - |primary|;
        assert ls[i] == GatedLink(advanced[j], role, plan) && all[i] == advanced[j];
      } else {
        var j := i - |primary| - |advanced|;
        assert ls[i] == Link(footer[j].key, footer[j].path, false) && all[i] == footer[j];
      }
    }
    ls
  }

  /** Exactly the gated items the user lacks access to are rendered locked. */
  lemma GatedIsLockedWithoutAccess(primary: seq<NavItem>, advanced: seq<NavItem>, footer: seq<NavItem>,
                                   role: Option<string>, plan: string, i: nat)
    requires i < |primary| + |advanced| + |footer|
    ensures var ls := Render(primary, advanced, footer, role, plan);
      ls[i].locked <==> i < |primary| + |advanced| && !HasAccess(role, plan, (primary + advanced + footer)[i].key)
  {
    var g := GatedLinks(primary, role, plan) + GatedLinks(advanced, role, plan);
    var f := FooterLinks(footer);
    var all := primary + advanced + footer;
    assert Render(primary, advanced, footer, role, plan) == g + f;
    if i < |primary| + |advanced| {
      GatedLocked(primary, advanced, role, plan, i);
      assert (g + f)[i] == g[i] && all[i] == (primary + advanced)[i];
    } else {
      var j := i - |primary| - |advanced|;
      assert (g + f)[i] == f[j];
    }
  }

  lemma GatedLocked(primary: seq<NavItem>, advanced: seq<NavItem>, role: Option<string>, plan: string, i: nat)
    requires i < |primary| + |advanced|
    ensures (GatedLinks(primary, role, plan) + GatedLinks(advanced, role, plan))[i]
            == GatedLink((primary + advanced)[i], role, plan)
  {
    if i >= |primary| {
      assert (primary + advanced)[i] == advanced[i - |primary|];
    }
  }

  /** The whole sidebar. */
  function Sidebar(role: Option<string>, plan: string): (ls: seq<Link>)
    ensures |ls| == |PrimaryNav| + |AdvancedNav| + |FooterNav|
    ensures forall i :: 0 <= i < |ls| ==> ls[i].locked ==> ls[i].target == UpgradePath
    ensures forall i :: |PrimaryNav| + |AdvancedNav| <= i < |ls| ==> !ls[i].locked
  {
    Render(PrimaryNav, AdvancedNav, FooterNav, role, plan)
  }

  /** Every link points at its own page or at the upgrade page, and the upgrade page is always offered. */
  lemma SidebarTargets(role: Option<string>, plan: string)
    ensures var ls := Sidebar(role, plan);
      (forall l :: l in ls ==>
         (l.target == UpgradePath || exists it :: it in PrimaryNav + AdvancedNav + FooterNav && it.path == l.target && it.key == l.key))
      && Link("upgrade", UpgradePath, false) in ls
  {
    RenderTargets(PrimaryNav, AdvancedNav, FooterNav, role, plan);
    var ls := Sidebar(role, plan);
    assert ls[|ls| - 1] == Link("upgrade", UpgradePath, false);
  }

  lemma RenderTargets(primary: seq<NavItem>, advanced: seq<NavItem>, footer: seq<NavItem>, role: Option<string>, plan: string)
    ensures var ls := Render(primary, advanced, footer, role, plan);
      forall l :: l in ls ==>
        (l.target == UpgradePath || exists it :: it in primary + advanced + footer && it.path == l.target && it.key == l.key)
  {
    var ls := Render(primary, advanced, footer, role, plan);
    var all := primary + advanced + footer;
    forall l | l in ls
      ensures l.target == UpgradePath || exists it :: it in all && it.path == l.target && it.key == l.key
    {
      var i :| 0 <= i < |ls| && ls[i] == l;
      if l.target != UpgradePath {
        assert all[i] in all;
      }
    }
  }

  /** Where a click on a link goes: nowhere when it is locked, else to its `to`. */
  function ClickDestination(l: Link): (d: Option<string>)
    ensures d.None? <==> l.locked
    ensures d.Some? ==> d.value == l.target
  {
    if l.locked then None else Some(l.target)
  }

  /**
   * No click on a gated item reaches the upgrade page: a locked item's click
   * goes nowhere, an unlocked one's to the item's own page.
   */
  lemma SidebarClicks(role: Option<string>, plan: string)
    ensures var ls := Sidebar(role, plan);
      var all := PrimaryNav + AdvancedNav + FooterNav;
      forall i :: 0 <= i < |ls| ==>
        && (ClickDestination(ls[i]).None? <==> i < |PrimaryNav| + |AdvancedNav| && !HasAccess(role, plan, all[i].key))
        && (ClickDestination(ls[i]).Some? ==> ClickDestination(ls[i]).value == all[i].path)
  {
    var ls := Sidebar(role, plan);
    var all := PrimaryNav + AdvancedNav + FooterNav;
    forall i | 0 <= i < |ls|
      ensures ClickDestination(ls[i]).None? <==> i < |PrimaryNav| + |AdvancedNav| && !HasAccess(role, plan, all[i].key)
      ensures ClickDestination(ls[i]).Some? ==> ClickDestination(ls[i]).value == all[i].path
    {
      GatedIsLockedWithoutAccess(PrimaryNav, AdvancedNav, FooterNav, role, plan, i);
    }
  }

  /** A free user sees exactly the five free pages unlocked among the gated items. */
  lemma FreeUserLocks(role: Option<string>)
    requires role != Some("founder")
    ensures forall it :: it in PrimaryNav + AdvancedNav ==> (GatedLink(it, role, "free").locked <==> it.key !in FreeFeatures)
  {
  }

  const FreeBadge: string := "bg-slate-100 text-slate-700"

  /** `getPlanBadge`: the four public plans have their own style, anything else the free one. */
  function PlanBadge(plan: string): (style: string)
    ensures style == FreeBadge <==> plan !in ["premium", "pro", "enterprise"]
  {
    if plan == "premium" then "bg-blue-100 text-blue-700"
    else if plan == "pro" then "bg-purple-100 text-purple-700"
    else if plan == "enterprise" then "bg-amber-100 text-amber-700"
    else FreeBadge
  }

  /** The badge tells the four public plans apart. */
  lemma BadgesDistinguishPublicPlans(p1: string, p2: string)
    requires p1 in ["free", "premium", "pro", "enterprise"] && p2 in ["free", "premium", "pro", "enterprise"]
    ensures PlanBadge(p1) == PlanBadge(p2) <==> p1 == p2
  {
  }

  /** The internal plan unlocks every page yet wears the free badge. */
  lemma InternalPlanWearsFreeBadge(f: string)
    ensures PlanBadge("enterprise_internal") == FreeBadge
    ensures HasAccess(None, "enterprise_internal", f)
  {
  }
}
