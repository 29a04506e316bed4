/** The subscription gate (store/subscription-store.ts): the tier table, the
    daily processing counter with its lazy reset when the UTC day changes,
    and the purchase, cancel and restore transitions. The current day
    (`YYYY-MM-DD`) and the clock are parameters; the simulated restore
    outcome is the parameter `hasSubscription`. */
module Subscription {
  import opened Wrappers
  import opened JsText
  import opened ClipTypes

  const FreeTier := SubscriptionTier(Free, Bounded(5), ["mock", "gemini-pro"], ["txt"], true, false)

  const PremiumTier := SubscriptionTier(
    Premium, Unbounded,
    ["mock", "gemini-pro", "gemini-ultra", "gpt-3.5-turbo", "gpt-4"],
    ["txt", "json", "csv"], false, true)

  /** `SUBSCRIPTION_TIERS[tier]`. */
  function TierOf(t: TierName): (r: SubscriptionTier)
    ensures r.name == t
    ensures t == Free ==> r.maxDailyProcessing == Bounded(5) && r.watermark && !r.priority
    ensures t == Premium ==> r.maxDailyProcessing == Unbounded && !r.watermark && r.priority
  {
    match t
    case Free => FreeTier
    case Premium => PremiumTier
  }

  /** Thirty days in milliseconds. */
  const OneMonth := 30 * 24 * 60 * 60 * 1000

  /** `count < max`, where every count is below `Infinity`. */
  predicate Below(count: nat, max: Limit) {
    max.Unbounded? || count < max.n
  }

  /** The state a fresh store starts in. */
  function Initial(today: string): (s: SubscriptionState)
    ensures s.tier == Free && s.expiresAt.None? && s.purchaseToken.None?
    ensures s.processingCount.today == 0 && s.processingCount.date == today
  {
    SubscriptionState(Free, None, ProcessingCount(0, today), None)
  }

  // ---------------------------------------------------------------------
  // The transitions, as functions of the old state

  /** `resetProcessingCount`. */
  function Reset(s: SubscriptionState, today: string): (r: SubscriptionState)
    ensures r.processingCount == ProcessingCount(0, today)
    ensures r.tier == s.tier && r.expiresAt == s.expiresAt && r.purchaseToken == s.purchaseToken
  {
    s.(processingCount := ProcessingCount(0, today))
  }

  /** `canProcessMore`'s answer: always yes on a new day and on the
      premium tier; on the free tier's current day, yes while fewer than
      five have been processed. */
  function MayProcessMore(s: SubscriptionState, today: string): (r: bool)
    ensures today != s.processingCount.date ==> r
    ensures s.tier == Premium ==> r
    ensures today == s.processingCount.date && s.tier == Free ==> (r <==> s.processingCount.today < 5)
  {
    today != s.processingCount.date || Below(s.processingCount.today, TierOf(s.tier).maxDailyProcessing)
  }

  /** The state `canProcessMore` leaves: reset when the day changed, else untouched. */
  function AfterCanProcessMore(s: SubscriptionState, today: string): (r: SubscriptionState)
    ensures today != s.processingCount.date ==> r == Reset(s, today)
    ensures today == s.processingCount.date ==> r == s
    ensures r.processingCount.date == today
    ensures r.tier == s.tier && r.expiresAt == s.expiresAt && r.purchaseToken == s.purchaseToken
  {
    if today != s.processingCount.date then Reset(s, today) else s
  }

  /** `incrementProcessingCount`. */
  function Increment(s: SubscriptionState, today: string): (r: SubscriptionState)
    ensures r.processingCount.date == today
    ensures r.processingCount.today ==
              if today == s.processingCount.date then s.processingCount.today + 1 else 1
    ensures r.tier == s.tier && r.expiresAt == s.expiresAt && r.purchaseToken == s.purchaseToken
  {
    if today != s.processingCount.date then s.(processingCount := ProcessingCount(1, today))
    else s.(processingCount := ProcessingCount(s.processingCount.today + 1, today))
  }

  /** `getRemainingProcessingCount`: the whole allowance on a new day,
      otherwise what is left of it, never below zero. */
  function Remaining(s: SubscriptionState, today: string): (r: Limit)
    ensures TierOf(s.tier).maxDailyProcessing.Unbounded? <==> r.Unbounded?
    ensures r.Bounded? ==> r.n <= TierOf(s.tier).maxDailyProcessing.n
    ensures today != s.processingCount.date ==> r == TierOf(s.tier).maxDailyProcessing
    ensures today == s.processingCount.date && s.tier == Free ==>
              r == Bounded(if s.processingCount.today < 5 then 5 - s.processingCount.today else 0)
  {
    var max := TierOf(s.tier).maxDailyProcessing;
    if today != s.processingCount.date then max
    else match max
      case Unbounded => Unbounded
      case Bounded(n) => Bounded(if s.processingCount.today < n then n - s.processingCount.today else 0)
  }

  /** `purchaseSubscription` (which always reports success). */
  function Purchase(s: SubscriptionState, now: int): (r: SubscriptionState)
    ensures r.tier == Premium && r.expiresAt == Some(now + OneMonth)
    ensures r.purchaseToken == Some("purchase-" + IntToString(now))
    ensures r.processingCount == s.processingCount
  {
    s.(tier := Premium, expiresAt := Some(now + OneMonth), purchaseToken := Some("purchase-" + IntToString(now)))
  }

  /** `cancelSubscription` (which always reports success). */
  function Cancel(s: SubscriptionState): (r: SubscriptionState)
    ensures r.tier == Free && r.expiresAt.None? && r.purchaseToken.None?
    ensures r.processingCount == s.processingCount
  {
    s.(tier := Free, expiresAt := None, purchaseToken := None)
  }

  /** `restorePurchases`: like a purchase when there is something to restore. */
  function Restore(s: SubscriptionState, now: int, hasSubscription: bool): (r: SubscriptionState)
    ensures !hasSubscription ==> r == s
    ensures hasSubscription ==> r.tier == Premium && r.expiresAt == Some(now + OneMonth)
                                && r.purchaseToken == Some("restored-" + IntToString(now))
                                && r.processingCount == s.processingCount
  {
    if hasSubscription then
      s.(tier := Premium, expiresAt := Some(now + OneMonth), purchaseToken := Some("restored-" + IntToString(now)))
    else s
  }

  // ---------------------------------------------------------------------
  // The store

  class SubscriptionStore {
    var subscription: SubscriptionState

    constructor(today: string)
      ensures subscription == Initial(today)
    {
      subscription := Initial(today);
    }

    /** `getCurrentTier`: the table entry of the current tier. */
    function CurrentTier(): (r: SubscriptionTier)
      reads this
      ensures r.name == subscription.tier
      ensures r.watermark <==> subscription.tier == Free
      ensures "csv" in r.downloadFormats <==> subscription.tier == Premium
    {
      TierOf(subscription.tier)
    }

    method CanProcessMore(today: string) returns (b: bool)
      modifies this
      ensures b == MayProcessMore(old(subscription), today)
      ensures subscription == AfterCanProcessMore(old(subscription), today)
    {
      if today != subscription.processingCount.date {
        ResetProcessingCount(today);
        return true;
      }
      b := Below(subscription.processingCount.today, CurrentTier().maxDailyProcessing);
    }

    method IncrementProcessingCount(today: string)
      modifies this
      ensures subscription == Increment(old(subscription), today)
    {
      if today != subscription.processingCount.date {
        subscription := subscription.(processingCount := ProcessingCount(1, today));
        return;
      }
      subscription := subscription.(processingCount := ProcessingCount(subscription.processingCount.today + 1, today));
    }

    method ResetProcessingCount(today: string)
      modifies this
      ensures subscription == Reset(old(subscription), today)
    {
      subscription := subscription.(processingCount := ProcessingCount(0, today));
    }

    method PurchaseSubscription(now: int) returns (ok: bool)
      modifies this
      ensures ok && subscription == Purchase(old(subscription), now)
    {
      subscription := subscription.(tier := Premium, expiresAt := Some(now + OneMonth),
                                    purchaseToken := Some("purchase-" + IntToString(now)));
      return true;
    }

    method CancelSubscription() returns (ok: bool)
      modifies this
      ensures ok && subscription == Cancel(old(subscription))
    {
      subscription := subscription.(tier := Free, expiresAt := None, purchaseToken := None);
      return true;
    }

    method RestorePurchases(now: int, hasSubscription: bool) returns (ok: bool)
      modifies this
      ensures ok == hasSubscription
      ensures subscription == Restore(old(subscription), now, hasSubscription)
    {
      if hasSubscription {
        subscription := subscription.(tier := Premium, expiresAt := Some(now + OneMonth),
                                      purchaseToken := Some("restored-" + IntToString(now)));
        return true;
      }
      return false;
    }

    /** `isFormatAllowed`. */
    function IsFormatAllowed(format: string): (b: bool)
      reads this
      ensures b <==> format in TierOf(subscription.tier).downloadFormats
    {
      format in CurrentTier().downloadFormats
    }

    /** `isModelAllowed`. */
    function IsModelAllowed(model: string): (b: bool)
      reads this
      ensures b <==> model in TierOf(subscription.tier).allowedModels
    {
      model in CurrentTier().allowedModels
    }

    /** `getRemainingProcessingCount`, which changes nothing: unbounded on
        the premium tier, at most five on the free one. */
    function GetRemainingProcessingCount(today: string): (r: Limit)
      reads this
      ensures subscription.tier == Premium ==> r == Unbounded
      ensures subscription.tier == Free ==> r.Bounded? && r.n <= 5
    {
      Remaining(subscription, today)
    }
  }

  // ---------------------------------------------------------------------
  // Properties

  /** What `canProcessMore` answers is exactly whether anything remains. */
  lemma GateAgreesWithRemaining(s: SubscriptionState, today: string)
    ensures MayProcessMore(s, today) <==> Remaining(s, today) != Bounded(0)
  {
  }

  /** On an unchanged day the gate says no exactly when the count has
      reached the tier's allowance. */
  lemma GateRefusesAtLimit(s: SubscriptionState, today: string)
    requires today == s.processingCount.date
    ensures !MayProcessMore(s, today) <==>
              TierOf(s.tier).maxDailyProcessing.Bounded? && s.processingCount.today >= TierOf(s.tier).maxDailyProcessing.n
    ensures s.tier == Premium ==> MayProcessMore(s, today)
  {
  }

  /** The day's count never exceeds the tier's allowance. */
  ghost predicate WithinQuota(s: SubscriptionState) {
    TierOf(s.tier).maxDailyProcessing.Bounded? ==> s.processingCount.today <= TierOf(s.tier).maxDailyProcessing.n
  }

  /** Processing that asks the gate first: `canProcessMore`, and when it
      says yes, `incrementProcessingCount`. */
  function GatedProcess(s: SubscriptionState, today: string): SubscriptionState {
    var t := AfterCanProcessMore(s, today);
    if MayProcessMore(s, today) then Increment(t, today) else t
  }

  /** Gated processing keeps the count within the allowance, for any sequence of days. */
  lemma {:induction false} GatedProcessingWithinQuota(s: SubscriptionState, days: seq<string>)
    requires WithinQuota(s)
    ensures WithinQuota(GatedRun(s, days))
    decreases |days|
  {
    if |days| > 0 {
      var t := GatedProcess(s, days[0]);
      assert WithinQuota(t);
      GatedProcessingWithinQuota(t, days[1..]);
    }
  }

  /** Gated processing once per entry of `days`. */
  function GatedRun(s: SubscriptionState, days: seq<string>): SubscriptionState
    decreases |days|
  {
    if |days| == 0 then s else GatedRun(GatedProcess(s, days[0]), days[1..])
  }

  /** Purchases, cancellations and restores keep the counter; so after a
      premium day a cancellation can leave the free tier above its
      allowance, and then nothing remains until the day changes. */
  lemma CancelAfterPremiumDay(s: SubscriptionState, today: string)
    requires s.tier == Premium && s.processingCount == ProcessingCount(7, today)
    ensures !WithinQuota(Cancel(s))
    ensures Remaining(Cancel(s), today) == Bounded(0) && !MayProcessMore(Cancel(s), today)
  {
  }

  /** A new day restores the whole allowance: the gate says yes and the
      first increment counts one. */
  lemma NewDay(s: SubscriptionState, today: string)
    requires today != s.processingCount.date
    ensures MayProcessMore(s, today)
    ensures Remaining(s, today) == TierOf(s.tier).maxDailyProcessing
    ensures GatedProcess(s, today).processingCount == ProcessingCount(1, today)
  {
  }

  /** The tier table: the free tier allows only plain text and two models;
      the premium tier allows everything the free one does, and JSON, CSV
      and `gpt-4`. */
  lemma TierTable()
    ensures "txt" in TierOf(Free).downloadFormats && "json" !in TierOf(Free).downloadFormats
            && "csv" !in TierOf(Free).downloadFormats
    ensures "json" in TierOf(Premium).downloadFormats && "csv" in TierOf(Premium).downloadFormats
    ensures "gpt-4" !in TierOf(Free).allowedModels && "gpt-4" in TierOf(Premium).allowedModels
    ensures forall f :: f in TierOf(Free).downloadFormats ==> f in TierOf(Premium).downloadFormats
    ensures forall m :: m in TierOf(Free).allowedModels ==> m in TierOf(Premium).allowedModels
  {
    assert TierOf(Free).downloadFormats == ["txt"];
    assert TierOf(Premium).downloadFormats == ["txt", "json", "csv"];
  }

  /** Restoring without a subscription changes nothing; with one, it ends
      where a purchase would, up to the token. */
  lemma RestoreLikePurchase(s: SubscriptionState, now: int)
    ensures Restore(s, now, true).(purchaseToken := None) == Purchase(s, now).(purchaseToken := None)
    ensures Restore(s, now, false) == s
  {
  }
}
