/**
 * The free-tier arithmetic and store-package lookup shared by the subscription
 * context and the subscription hook, which compute them identically.
 */
module Entitlement {
  import opened Wrappers

  /** Videos a non-premium user may create. */
  const FreeVideoLimit: int := 1

  /** What the purchase library reports for a purchase or a restore. */
  datatype PurchaseResult = PurchaseResult(success: bool, error: Option<string>)

  /** A store package: its type (`WEEKLY`, `MONTHLY`, ...) and its localised price. */
  datatype Package = Package(packageType: string, priceString: string)

  /** The current offering's packages. */
  datatype Offering = Offering(availablePackages: seq<Package>)

  const WeeklyType: string := "WEEKLY"
  const MonthlyType: string := "MONTHLY"

  /** Free videos left: the limit minus the count, but never below zero. */
  function RemainingFreeVideos(videoCount: int): (n: int)
    ensures n >= 0 && n >= FreeVideoLimit - videoCount
    ensures n == 0 || n == FreeVideoLimit - videoCount
    ensures videoCount >= 0 ==> n <= FreeVideoLimit
  {
    if FreeVideoLimit - videoCount > 0 then FreeVideoLimit - videoCount else 0
  }

  /** Premium users may always create; others while free videos remain. */
  function CanCreateVideo(isPremium: bool, videoCount: int): (b: bool)
    ensures isPremium ==> b
    ensures !isPremium ==> (b <==> RemainingFreeVideos(videoCount) > 0)
  {
    isPremium || videoCount < FreeVideoLimit
  }

  /** The index of the first package of the given type, if any. */
  function FirstOfType(packages: seq<Package>, packageType: string): (r: Option<nat>)
    ensures r.Some? ==> r.value < |packages| && packages[r.value].packageType == packageType
    ensures r.Some? ==> forall j :: 0 <= j < r.value ==> packages[j].packageType != packageType
    ensures r.None? ==> forall j :: 0 <= j < |packages| ==> packages[j].packageType != packageType
    decreases |packages|
  {
    if |packages| == 0 then None
    else if packages[0].packageType == packageType then Some(0)
    else match FirstOfType(packages[1..], packageType)
      case None => None
      case Some(i) => Some(i + 1)
  }

  /** The first available package of the given type in the offering; none without an offering or a match. */
  function FindPackage(offering: Option<Offering>, packageType: string): (r: Option<Package>)
    ensures offering.None? ==> r.None?
    ensures r.Some? ==> r.value.packageType == packageType && r.value in offering.value.availablePackages
    ensures offering.Some? && r.None? ==>
              forall p :: p in offering.value.availablePackages ==> p.packageType != packageType
    ensures offering.Some? && r.Some? ==>
              exists i :: 0 <= i < |offering.value.availablePackages|
                && offering.value.availablePackages[i] == r.value
                && forall j :: 0 <= j < i ==> offering.value.availablePackages[j].packageType != packageType
  {
    match offering
    case None => None
    case Some(o) =>
      match FirstOfType(o.availablePackages, packageType)
      case None => None
      case Some(i) => Some(o.availablePackages[i])
  }

  /** A non-premium user who has created one video may not create another. */
  lemma FreeTierExhaustedAfterOne(videoCount: int)
    requires videoCount >= FreeVideoLimit
    ensures !CanCreateVideo(false, videoCount) && RemainingFreeVideos(videoCount) == 0
  {
  }
}
