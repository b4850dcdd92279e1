/** The pricing plans: a fixed table from plan to entitlements, the
    admission check for adding a subscription, and the persisted plan. */
module Tiers {
  import opened Wrappers

  datatype Tier = Basic | Premium | PremiumPlus

  /** `maxSubscriptions: None` is the unlimited ceiling (`null`). */
  datatype TierLimits = TierLimits(
    maxSubscriptions: Option<nat>,
    analytics: bool,
    dataExport: bool,
    billingDownload: bool,
    lowUsageAlerts: bool,
    monthlySummary: bool,
    prioritySupport: bool)

  /** The `tierLimits` table. */
  function Limits(t: Tier): (l: TierLimits)
    ensures l.maxSubscriptions == match t { case Basic => Some(4) case Premium => Some(10) case PremiumPlus => None }
    ensures t == Basic ==> !l.analytics && !l.dataExport && !l.billingDownload
                           && !l.lowUsageAlerts && !l.monthlySummary && !l.prioritySupport
    ensures t == Premium ==> l.analytics && !l.dataExport && !l.billingDownload
                             && l.lowUsageAlerts && l.monthlySummary && l.prioritySupport
    ensures t == PremiumPlus ==> l.analytics && l.dataExport && l.billingDownload
                                 && l.lowUsageAlerts && l.monthlySummary && l.prioritySupport
  {
    match t
    case Basic => TierLimits(Some(4), false, false, false, false, false, false)
    case Premium => TierLimits(Some(10), true, false, false, true, true, true)
    case PremiumPlus => TierLimits(None, true, true, true, true, true, true)
  }

  /** The text a plan is stored under. */
  function TierKey(t: Tier): string {
    match t
    case Basic => "basic"
    case Premium => "premium"
    case PremiumPlus => "premiumPlus"
  }

  function TierName(t: Tier): string {
    match t
    case Basic => "Basic (Free)"
    case Premium => "Premium"
    case PremiumPlus => "Premium+"
  }

  function TierPrice(t: Tier): string {
    match t
    case Basic => "$0/year"
    case Premium => "$15/year"
    case PremiumPlus => "$25/year"
  }

  /** `canAddSubscription(currentCount)` under plan `t`. */
  function CanAdd(t: Tier, currentCount: nat): (r: bool)
    ensures t == Basic ==> (r <==> currentCount < 4)
    ensures t == Premium ==> (r <==> currentCount < 10)
    ensures t == PremiumPlus ==> r
  {
    var max := Limits(t).maxSubscriptions;
    max.None? || currentCount < max.value
  }

  /** Fewer subscriptions are never refused where more are admitted. */
  lemma CanAddAntitone(t: Tier, n: nat, m: nat)
    requires CanAdd(t, n) && m <= n
    ensures CanAdd(t, m)
  {
  }

  /** The plans in ascending order. */
  function Rank(t: Tier): nat {
    match t
    case Basic => 0
    case Premium => 1
    case PremiumPlus => 2
  }

  /** Every entitlement of `a` is also one of `b`, and `b`'s ceiling is no lower. */
  predicate Covers(a: TierLimits, b: TierLimits) {
    (a.analytics ==> b.analytics) && (a.dataExport ==> b.dataExport)
    && (a.billingDownload ==> b.billingDownload) && (a.lowUsageAlerts ==> b.lowUsageAlerts)
    && (a.monthlySummary ==> b.monthlySummary) && (a.prioritySupport ==> b.prioritySupport)
    && (b.maxSubscriptions.Some? ==> a.maxSubscriptions.Some? && a.maxSubscriptions.value <= b.maxSubscriptions.value)
  }

  /** A higher plan grants everything a lower plan does. */
  lemma EntitlementsMonotone(a: Tier, b: Tier)
    requires Rank(a) <= Rank(b)
    ensures Covers(Limits(a), Limits(b))
    ensures forall n: nat :: CanAdd(a, n) ==> CanAdd(b, n)
  {
  }

  /** The plan a session starts with: the stored text if it names a plan,
      and otherwise the basic plan. */
  function ParseStoredTier(saved: Option<string>): (r: Tier)
    ensures saved.Some? && saved.value == "premium" ==> r == Premium
    ensures saved.Some? && saved.value == "premiumPlus" ==> r == PremiumPlus
    ensures r != Basic ==> saved == Some(TierKey(r))
  {
    if saved == Some("premium") then Premium
    else if saved == Some("premiumPlus") then PremiumPlus
    else Basic
  }

  /** A stored plan reads back as itself. */
  lemma StoredTierRoundTrip(t: Tier)
    ensures ParseStoredTier(Some(TierKey(t))) == t
  {
  }

  datatype TierInfo = TierInfo(id: Tier, name: string, price: string, limits: TierLimits)

  /** `allTiers`: the three plans, lowest first, each with its name, price
      and entitlements. */
  function AllTiers(): (r: seq<TierInfo>)
    ensures |r| == 3
    ensures forall i :: 0 <= i < 3 ==> Rank(r[i].id) == i
    ensures forall i :: 0 <= i < 3 ==>
      r[i].name == TierName(r[i].id) && r[i].price == TierPrice(r[i].id) && r[i].limits == Limits(r[i].id)
  {
    seq(3, i requires 0 <= i < 3 =>
      var t := if i == 0 then Basic else if i == 1 then Premium else PremiumPlus;
      TierInfo(t, TierName(t), TierPrice(t), Limits(t)))
  }

  /** Every plan appears in `allTiers`. */
  lemma AllTiersComplete(t: Tier)
    ensures exists i :: 0 <= i < |AllTiers()| && AllTiers()[i].id == t
  {
    assert AllTiers()[Rank(t)].id == t;
  }

  /** The state behind the plan context; `stored` is the persisted slot. */
  class TierState {
    var tier: Tier
    var stored: Option<string>

    constructor (saved: Option<string>)
      ensures tier == ParseStoredTier(saved) && stored == saved
    {
      tier := ParseStoredTier(saved);
      stored := saved;
    }

    function CurrentLimits(): TierLimits
      reads this
    {
      Limits(tier)
    }

    function CanAddSubscription(currentCount: nat): (r: bool)
      reads this
      ensures r <==> Limits(tier).maxSubscriptions.None? || currentCount < Limits(tier).maxSubscriptions.value
    {
      CanAdd(tier, currentCount)
    }

    /** Switches plan and writes it through; a later session reloads it. */
    method SetTier(t: Tier)
      modifies this
      ensures tier == t && CurrentLimits() == Limits(t)
      ensures stored == Some(TierKey(t)) && ParseStoredTier(stored) == t
    {
      tier := t;
      stored := Some(TierKey(t));
    }
  }
}
