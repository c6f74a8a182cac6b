/** The video-synthesis provider's prediction record, as the two route handlers read it. */
module Replicate {
  import opened Wrappers
  import opened Http

  /** The provider's five-valued prediction status. */
  datatype Status = Starting | Processing | Succeeded | Failed | Canceled
  {
    /** Succeeded, failed and canceled predictions do not change any more. */
    predicate IsTerminal()
    {
      Succeeded? || Failed? || Canceled?
    }
  }

  /** One status snapshot; the output shape `O` is the one the reading handler declares. */
  datatype Prediction<O> = Prediction(
    id: string,
    status: Status,
    output: Option<O>,
    error: Option<string>)

  /** One status read of a prediction: the snapshot, or what the transport threw. */
  datatype ReadResult<O> = Read(prediction: Prediction<O>) | ReadThrew(thrown: Thrown)

  const TokenMissingMessage: string := "Replicate API token not configured"
}
