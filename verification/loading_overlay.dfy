/** The loading overlay's progress bar visibility, hint line and default message. */
module LoadingOverlay {
  import opened Wrappers
  import VideoStatus
  import Replicate

  datatype Hint = WarmingUp | AlmostThere | MayTakeMinutes
  {
    function Text(): string
    {
      match this
      case WarmingUp => "GPU is warming up..."
      case AlmostThere => "Almost there..."
      case MayTakeMinutes => "This may take a few minutes"
    }
  }

  /** The bar is drawn only for a given, positive progress. */
  predicate ShowProgress(progress: Option<real>)
  {
    progress.Some? && progress.value > 0.0
  }

  /** The hint under the message, chosen by progress thresholds 50 and 100. */
  function HintFor(progress: Option<real>): (h: Hint)
    ensures h.WarmingUp? <==> ShowProgress(progress) && progress.value < 50.0
    ensures h.AlmostThere? <==> ShowProgress(progress) && 50.0 <= progress.value < 100.0
    ensures h.MayTakeMinutes? <==> !ShowProgress(progress) || progress.value >= 100.0
  {
    if ShowProgress(progress) && progress.value < 50.0 then WarmingUp
    else if ShowProgress(progress) && progress.value < 100.0 then AlmostThere
    else MayTakeMinutes
  }

  /** The drawn progress bar: filled to the given percentage, labelled with it rounded. */
  datatype Bar = Bar(fillPercent: real, rounded: int)

  /** What the overlay's card shows: the message, the bar when drawn, and the hint. */
  datatype View = View(message: string, bar: Option<Bar>, hint: Hint)

  /**
   * The overlay's card for an optional message and progress. The percentage
   * label rounds half up, as `Math.round` does.
   */
  function Render(message: Option<string>, progress: Option<real>): (v: View)
    ensures v.message == MessageShown(message)
    ensures v.bar.Some? <==> progress.Some? && progress.value > 0.0
    ensures v.bar.Some? ==> v.bar.value.fillPercent == progress.value
    ensures v.bar.Some? ==>
              (v.bar.value.rounded as real) - 0.5 <= progress.value < (v.bar.value.rounded as real) + 0.5
    ensures v.hint == HintFor(progress)
    ensures v.bar.None? ==> v.hint.MayTakeMinutes?
  {
    var bar := if ShowProgress(progress) then Some(Bar(progress.value, (progress.value + 0.5).Floor)) else None;
    View(MessageShown(message), bar, HintFor(progress))
  }

  /** The message line: the given one, or `Processing...` when the prop is omitted. */
  function MessageShown(message: Option<string>): (m: string)
    ensures message.Some? ==> m == message.value
    ensures message.None? ==> m == "Processing..."
  {
    message.GetOr("Processing...")
  }

  /**
   * If the overlay were given the status route's progress, it would hint each stage in
   * turn. The creation screen passes no progress to it, so this link is hypothetical.
   */
  lemma HintPerStatus(s: Replicate.Status)
    ensures var h := HintFor(Some(VideoStatus.Progress(s) as real));
      && (s.Starting? ==> h.WarmingUp?)
      && (s.Processing? ==> h.AlmostThere?)
      && (s.Succeeded? || s.Failed? || s.Canceled? ==> h.MayTakeMinutes?)
  {
  }
}
