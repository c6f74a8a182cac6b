/** The paywall's routing of purchase and restore outcomes, its subtitle and its price labels. */
module Paywall {
  import opened Wrappers
  import opened Entitlement
  import Js
  import Decimal

  datatype Alert = Alert(title: string, message: string)

  /** What a tap leads to: an alert (or none), whether the store was asked, whether the paywall closes. */
  datatype Effect = Effect(alert: Option<Alert>, purchaseCalled: bool, closes: bool)

  datatype PlanChoice = WeeklyPlan | MonthlyPlan

  const DefaultChoice: PlanChoice := WeeklyPlan
  const CancelledError: string := "Purchase cancelled"
  const UnavailableAlert: Alert := Alert("Error", "Package not available. Please try again later.")
  const PurchasedAlert: Alert := Alert("Success!", "Welcome to TalkingPhoto Premium!")
  const RestoredAlert: Alert := Alert("Restored!", "Your subscription has been restored.")
  const NothingToRestoreAlert: Alert := Alert("No Subscription Found", "We couldn't find any previous purchases to restore.")
  const WeeklyFallbackPrice: string := "$4.99"
  const MonthlyFallbackPrice: string := "$9.99"

  /**
   * Subscribe tapped with package `pkg`; `result` is the store's answer, consulted
   * only when there is a package to buy.
   */
  function HandlePurchase(pkg: Option<Package>, result: PurchaseResult): (e: Effect)
    ensures pkg.None? ==> e == Effect(Some(UnavailableAlert), false, false)
    ensures pkg.Some? ==> e.purchaseCalled
    ensures e.closes <==> pkg.Some? && result.success
    ensures e.closes ==> e.alert == Some(PurchasedAlert)
    ensures pkg.Some? && !result.success && (!Js.Truthy(result.error) || result.error == Some(CancelledError)) ==>
              e.alert.None?
    ensures pkg.Some? && !result.success && Js.Truthy(result.error) && result.error != Some(CancelledError) ==>
              e.alert == Some(Alert("Purchase Failed", result.error.value))
  {
    if pkg.None? then Effect(Some(UnavailableAlert), false, false)
    else if result.success then Effect(Some(PurchasedAlert), true, true)
    else if Js.Truthy(result.error) && result.error.value != CancelledError then
      Effect(Some(Alert("Purchase Failed", result.error.value)), true, false)
    else Effect(None, true, false)
  }

  /** Restore tapped: success closes the paywall; any failure, whatever its error, says nothing was found. */
  function HandleRestore(result: PurchaseResult): (e: Effect)
    ensures e.purchaseCalled
    ensures e.closes <==> result.success
    ensures result.success ==> e.alert == Some(RestoredAlert)
    ensures !result.success ==> e.alert == Some(NothingToRestoreAlert)
  {
    if result.success then Effect(Some(RestoredAlert), true, true)
    else Effect(Some(NothingToRestoreAlert), true, false)
  }

  /** The hero subtitle for the number of free videos left; the noun is plural unless exactly one is left. */
  function Subtitle(remaining: int): (s: string)
    ensures remaining <= 0 ==> s == "You've used all your free videos"
    ensures remaining > 0 ==>
              && |s| >= 9 + |Decimal.NatToString(remaining)| + 11 + 5
              && s[..9] == "You have "
              && s[9..9 + |Decimal.NatToString(remaining)|] == Decimal.NatToString(remaining)
              && s[9 + |Decimal.NatToString(remaining)|..9 + |Decimal.NatToString(remaining)| + 11] == " free video"
              && (s[|s| - 6..] == "s left" <==> remaining != 1)
    ensures remaining > 0 ==>
              var tail := if remaining != 1 then "s left" else " left";
              |s| == 9 + |Decimal.NatToString(remaining)| + 11 + |tail|
              && s[|s| - |tail|..] == tail
  {
    if remaining > 0 then
      var count := Decimal.NatToString(remaining);
      var head := "You have " + count + " free video";
      var tail := if remaining != 1 then "s left" else " left";
      var s := head + tail;
      assert s[..9] == "You have ";
      assert s[9..9 + |count|] == count;
      assert s[9 + |count|..9 + |count| + 11] == " free video";
      assert s[|s| - |tail|..] == tail;
      assert s[|s| - 6] == head[|head| - 1] == 'o' || remaining != 1;
      s
    else "You've used all your free videos"
  }

  /** The package the subscribe button buys for the current choice. */
  function SubscribeTarget(choice: PlanChoice, weekly: Option<Package>, monthly: Option<Package>): (p: Option<Package>)
    ensures choice.WeeklyPlan? ==> p == weekly
    ensures choice.MonthlyPlan? ==> p == monthly
  {
    if choice.WeeklyPlan? then weekly else monthly
  }

  /** The package's price text when there is a package with a non-empty price, else the fallback. */
  function PriceLabel(pkg: Option<Package>, fallback: string): (text: string)
    ensures pkg.None? ==> text == fallback
    ensures pkg.Some? && pkg.value.priceString != "" ==> text == pkg.value.priceString
    ensures pkg.Some? && pkg.value.priceString == "" ==> text == fallback
  {
    match pkg
    case None => fallback
    case Some(p) => Js.Or(Some(p.priceString), fallback)
  }

  /** With no offering loaded, both cards show their fallback prices and subscribing alerts. */
  lemma NoOfferingFallbacks(choice: PlanChoice, result: PurchaseResult)
    ensures PriceLabel(FindPackage(None, WeeklyType), WeeklyFallbackPrice) == "$4.99"
    ensures PriceLabel(FindPackage(None, MonthlyType), MonthlyFallbackPrice) == "$9.99"
    ensures HandlePurchase(SubscribeTarget(choice, FindPackage(None, WeeklyType), FindPackage(None, MonthlyType)), result)
              == Effect(Some(UnavailableAlert), false, false)
  {
  }

  /** Until the user picks a plan, subscribing buys the weekly package. */
  lemma DefaultBuysWeekly(weekly: Option<Package>, monthly: Option<Package>)
    ensures DefaultChoice.WeeklyPlan?
    ensures SubscribeTarget(DefaultChoice, weekly, monthly) == weekly
  {
  }

  /** One free video left reads in the singular. */
  lemma SubtitleForOne()
    ensures Subtitle(1) == "You have 1 free video left"
  {
  }
}
