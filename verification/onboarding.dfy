/** The four-slide onboarding carousel: next, skip, labels and the visible-slide update. */
module Onboarding {
  import opened Wrappers

  datatype Slide = Slide(id: string, title: string)

  const Slides: seq<Slide> := [
    Slide("1", "Make Any Photo Talk"),
    Slide("2", "AI Writes the Script"),
    Slide("3", "Choose Your Voice"),
    Slide("4", "Share with Friends")
  ]

  /** What pressing the bottom button does. */
  datatype NextAction = ScrollTo(index: nat) | CompleteOnboarding

  /** The last of the four slides is the one at index 3. */
  function IsLastSlide(current: nat): (b: bool)
    ensures b <==> current == 3
  {
    current == |Slides| - 1
  }

  /** Before the last slide, scroll one slide on; otherwise finish onboarding. */
  function HandleNext(current: nat): (a: NextAction)
    ensures current < |Slides| - 1 ==> a == ScrollTo(current + 1)
    ensures a.CompleteOnboarding? <==> current >= |Slides| - 1
    ensures a.ScrollTo? ==> a.index < |Slides|
  {
    if current < |Slides| - 1 then ScrollTo(current + 1) else CompleteOnboarding
  }

  /** The Skip control is offered on every slide but the last: exactly where Next scrolls on. */
  function SkipVisible(current: nat): (b: bool)
    ensures current < |Slides| ==> (b <==> HandleNext(current).ScrollTo?)
    ensures !b ==> ButtonLabel(current) == "Get Started" && HandleNext(current).CompleteOnboarding?
  {
    !IsLastSlide(current)
  }

  function ButtonLabel(current: nat): (text: string)
    ensures text == "Get Started" <==> IsLastSlide(current)
    ensures text == "Next" <==> !IsLastSlide(current)
  {
    if IsLastSlide(current) then "Get Started" else "Next"
  }

  /** The current index follows the first visible item, when there is one with a known index. */
  function OnViewableItemsChanged(current: nat, viewable: seq<Option<nat>>): (r: nat)
    ensures |viewable| > 0 && viewable[0].Some? ==> r == viewable[0].value
    ensures |viewable| == 0 || viewable[0].None? ==> r == current
  {
    if |viewable| > 0 && viewable[0].Some? then viewable[0].value else current
  }

  /** From the first slide, three presses reach the last slide and the fourth finishes. */
  lemma FourPressesFinish()
    ensures |Slides| == 4
    ensures HandleNext(0) == ScrollTo(1) && HandleNext(1) == ScrollTo(2) && HandleNext(2) == ScrollTo(3)
    ensures IsLastSlide(3) && HandleNext(3).CompleteOnboarding?
  {
  }
}
