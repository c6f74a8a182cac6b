/**
 * The app-wide subscription context: premium flag, created-video count and paywall
 * visibility, each action one state transition. Talking to the store and to
 * device storage is not part of this model; their answers are inputs.
 */
module SubscriptionContext {
  import opened Entitlement
  import Decimal

  datatype ContextState = ContextState(isPremium: bool, videoCount: nat, isPaywallVisible: bool)

  /** What the context exposes to its consumers. */
  datatype ContextValue = ContextValue(
    isPremium: bool,
    videoCount: nat,
    remainingFreeVideos: int,
    canCreateVideo: bool,
    isPaywallVisible: bool)

  /** A state change with the reply returned to the caller. */
  datatype Purchased = Purchased(state: ContextState, reply: PurchaseResult)

  /** A state change with the text written to device storage. */
  datatype Incremented = Incremented(state: ContextState, persisted: string)

  function Initial(): (s: ContextState)
    ensures !s.isPremium && s.videoCount == 0 && !s.isPaywallVisible
  {
    ContextState(false, 0, false)
  }

  /** The exposed value, with the derived free-tier fields. */
  function Value(s: ContextState): (v: ContextValue)
    ensures v.isPremium == s.isPremium && v.videoCount == s.videoCount && v.isPaywallVisible == s.isPaywallVisible
    ensures 0 <= v.remainingFreeVideos <= FreeVideoLimit
    ensures v.remainingFreeVideos == RemainingFreeVideos(s.videoCount)
    ensures v.canCreateVideo <==> s.isPremium || v.remainingFreeVideos > 0
  {
    ContextValue(
      s.isPremium, s.videoCount,
      RemainingFreeVideos(s.videoCount),
      CanCreateVideo(s.isPremium, s.videoCount),
      s.isPaywallVisible)
  }

  /**
   * Stands for both `purchase` and `restore`, which treat the store's answer alike:
   * the answer is passed back; success makes the user premium and hides the
   * paywall, and a failure changes nothing.
   */
  function ApplyStoreResult(s: ContextState, result: PurchaseResult): (p: Purchased)
    ensures p.reply == result
    ensures result.success ==> p.state.isPremium && !p.state.isPaywallVisible
    ensures !result.success ==> p.state == s
    ensures p.state.videoCount == s.videoCount
  {
    if result.success then Purchased(s.(isPremium := true, isPaywallVisible := false), result)
    else Purchased(s, result)
  }

  /** One more video created; the new count is what gets persisted. */
  function IncrementVideoCount(s: ContextState): (r: Incremented)
    ensures r.state.videoCount == s.videoCount + 1
    ensures r.state.isPremium == s.isPremium && r.state.isPaywallVisible == s.isPaywallVisible
    ensures forall i :: 0 <= i < |r.persisted| ==> Decimal.IsDigit(r.persisted[i])
    ensures Decimal.ParseDigits(r.persisted) == r.state.videoCount
    ensures |r.persisted| > 0 && r.persisted[0] != '0'
  {
    var n := s.videoCount + 1;
    Decimal.ParseRendered(n);
    Incremented(s.(videoCount := n), Decimal.NatToString(n))
  }

  function ShowPaywall(s: ContextState): (t: ContextState)
    ensures t.isPaywallVisible
    ensures t.(isPaywallVisible := s.isPaywallVisible) == s
  {
    s.(isPaywallVisible := true)
  }

  function HidePaywall(s: ContextState): (t: ContextState)
    ensures !t.isPaywallVisible
    ensures t.(isPaywallVisible := s.isPaywallVisible) == s
  {
    s.(isPaywallVisible := false)
  }

  /** Premium users can always create; a non-premium user can create only before the first increment. */
  lemma CreationGate(s: ContextState)
    ensures s.isPremium ==> Value(s).canCreateVideo
    ensures !s.isPremium ==> (Value(s).canCreateVideo <==> s.videoCount == 0)
    ensures !s.isPremium ==> !Value(IncrementVideoCount(s).state).canCreateVideo
  {
  }
}
