/**
 * The standalone subscription hook: the same free-tier values as the context,
 * purchase and restore that answer with a boolean, and the weekly and monthly
 * package lookups.
 */
module UseSubscription {
  import opened Wrappers
  import opened Entitlement
  import Decimal

  datatype HookState = HookState(isPremium: bool, videoCount: nat, offering: Option<Offering>)

  datatype HookValue = HookValue(
    remainingFreeVideos: int,
    canCreateVideo: bool,
    weeklyPackage: Option<Package>,
    monthlyPackage: Option<Package>)

  /** A state change with the boolean answer returned to the caller. */
  datatype Answered = Answered(state: HookState, ok: bool)

  /** The new state and the text written to storage for the count. */
  datatype Incremented = Incremented(state: HookState, persisted: string)

  function Initial(): (s: HookState)
    ensures !s.isPremium && s.videoCount == 0 && s.offering.None?
  {
    HookState(false, 0, None)
  }

  /** The derived values the hook returns. */
  function Value(s: HookState): (v: HookValue)
    ensures v.remainingFreeVideos == RemainingFreeVideos(s.videoCount)
    ensures v.canCreateVideo <==> s.isPremium || v.remainingFreeVideos > 0
    ensures v.weeklyPackage == FindPackage(s.offering, WeeklyType)
    ensures v.monthlyPackage == FindPackage(s.offering, MonthlyType)
    ensures v.weeklyPackage.Some? ==> v.weeklyPackage.value.packageType == WeeklyType
    ensures v.monthlyPackage.Some? ==> v.monthlyPackage.value.packageType == MonthlyType
  {
    HookValue(
      RemainingFreeVideos(s.videoCount),
      CanCreateVideo(s.isPremium, s.videoCount),
      FindPackage(s.offering, WeeklyType),
      FindPackage(s.offering, MonthlyType))
  }

  /**
   * Stands for both `purchase` and `restore`, which treat the store's answer alike:
   * they answer its success and make the user premium only on success.
   */
  function ApplyStoreResult(s: HookState, result: PurchaseResult): (a: Answered)
    ensures a.ok == result.success
    ensures a.ok ==> a.state == s.(isPremium := true)
    ensures !a.ok ==> a.state == s
  {
    if result.success then Answered(s.(isPremium := true), true) else Answered(s, false)
  }

  /**
   * One more video created; the count goes up by exactly one, nothing else
   * changes, and the decimal text stored for it reads back as the new count.
   */
  function IncrementVideoCount(s: HookState): (r: Incremented)
    ensures r.state.videoCount == s.videoCount + 1
    ensures r.state.(videoCount := s.videoCount) == s
    ensures forall i :: 0 <= i < |r.persisted| ==> Decimal.IsDigit(r.persisted[i])
    ensures Decimal.ParseDigits(r.persisted) == r.state.videoCount
    ensures |r.persisted| > 0 && r.persisted[0] != '0'
  {
    var n := s.videoCount + 1;
    Decimal.ParseRendered(n);
    Incremented(s.(videoCount := n), Decimal.NatToString(n))
  }

  /** Once premium, a successful answer from the store keeps creation open whatever the count. */
  lemma PremiumAfterPurchase(s: HookState, result: PurchaseResult)
    requires result.success
    ensures Value(IncrementVideoCount(ApplyStoreResult(s, result).state).state).canCreateVideo
  {
  }
}
