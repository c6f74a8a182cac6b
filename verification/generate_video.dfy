/**
 * The `POST generate-video` route: validate the request, create one prediction,
 * poll it to a terminal status with a bounded loop, and return its video URL.
 */
module GenerateVideo {
  import opened Wrappers
  import opened Http
  import opened Replicate
  import Js

  /** The output shapes this route's prediction type declares: one URL or a list of them. */
  datatype JobOutput = Single(url: string) | Many(urls: seq<string>)

  /** The provider seen by the poll loop: the answer to the status read with a given attempt index. */
  type Provider = nat -> ReadResult<JobOutput>

  /** How the poll loop ends. */
  datatype PollOutcome =
    | Completed(prediction: Prediction<JobOutput>)  // the first succeeded snapshot
    | ProviderFailed(message: string)               // the first failed or canceled snapshot
    | TimedOut                                      // every allowed read was non-terminal
    | ReadFailed(thrown: Thrown)                    // a status read threw

  /** An outcome with the number of status reads issued to reach it. */
  datatype PollRun = PollRun(outcome: PollOutcome, statusReads: nat)

  datatype VideoRequest = VideoRequest(imageUrl: Option<string>, audioUrl: Option<string>)

  /** The answer to the job-creation request. */
  datatype CreateResult = Created(id: string) | CreateThrew(thrown: Thrown)

  datatype VideoResult = VideoResult(videoUrl: string)

  /** A response, with the jobs created and status reads issued to produce it. */
  datatype Handled = Handled(reply: Reply<VideoResult>, jobsCreated: nat, statusReads: nat)

  /** At most 60 status reads, five seconds apart. */
  const MaxAttempts: nat := 60

  const PredictionFailedFallback: string := "Prediction failed"
  const TimedOutMessage: string := "Prediction timed out"
  const InputsRequiredMessage: string := "Image URL and audio URL are required"
  const NoVideoUrlMessage: string := "No video URL in response"
  const GenerateFailedMessage: string := "Failed to generate video"

  /** A snapshot that keeps the loop going: read successfully, status starting or processing. */
  predicate Pending(r: ReadResult<JobOutput>)
  {
    r.Read? && !r.prediction.status.IsTerminal()
  }

  /** Every read with an index in [lo, hi) is pending. */
  predicate PendingRange(poll: Provider, lo: nat, hi: nat)
  {
    forall j: nat :: lo <= j < hi ==> Pending(poll(j))
  }

  /** The outcome of a snapshot that ends the loop. */
  function Settle(r: ReadResult<JobOutput>): (o: PollOutcome)
    requires !Pending(r)
    ensures !o.TimedOut?
    ensures o.Completed? <==> r.Read? && r.prediction.status.Succeeded?
    ensures o.Completed? ==> o.prediction == r.prediction
    ensures o.ProviderFailed? <==> r.Read? && (r.prediction.status.Failed? || r.prediction.status.Canceled?)
    ensures o.ProviderFailed? ==> o.message == Js.Or(r.prediction.error, PredictionFailedFallback)
    ensures o.ReadFailed? <==> r.ReadThrew?
  {
    match r
    case ReadThrew(t) => ReadFailed(t)
    case Read(p) =>
      if p.status.Succeeded? then Completed(p)
      else ProviderFailed(Js.Or(p.error, PredictionFailedFallback))
  }

  /**
   * Reference definition of the poll loop, starting at attempt `attempts`:
   * the first non-pending read decides, and after the last allowed attempt it times out.
   */
  function PollFrom(poll: Provider, attempts: nat): (run: PollRun)
    requires attempts <= MaxAttempts
    ensures attempts <= run.statusReads <= MaxAttempts
    ensures run.outcome.TimedOut? ==> run.statusReads == MaxAttempts && PendingRange(poll, attempts, MaxAttempts)
    ensures !run.outcome.TimedOut? ==>
              && attempts < run.statusReads
              && PendingRange(poll, attempts, run.statusReads - 1)
              && !Pending(poll(run.statusReads - 1))
              && run.outcome == Settle(poll(run.statusReads - 1))
    decreases MaxAttempts - attempts
  {
    if attempts == MaxAttempts then PollRun(TimedOut, MaxAttempts)
    else
      var r := poll(attempts);
      if Pending(r) then PollFrom(poll, attempts + 1)
      else PollRun(Settle(r), attempts + 1)
  }

  /** The poll loop as the route runs it, one status read per iteration. */
  method WaitForPrediction(poll: Provider) returns (outcome: PollOutcome, statusReads: nat)
    ensures 1 <= statusReads <= MaxAttempts
    ensures outcome.TimedOut? ==> statusReads == MaxAttempts && PendingRange(poll, 0, MaxAttempts)
    ensures !outcome.TimedOut? ==>
              && PendingRange(poll, 0, statusReads - 1)
              && !Pending(poll(statusReads - 1))
              && outcome == Settle(poll(statusReads - 1))
    ensures PollRun(outcome, statusReads) == PollFrom(poll, 0)
  {
    // The loop counter is the number of pending reads so far, the route's attempt count.
    statusReads := 0;
    while statusReads < MaxAttempts
      invariant statusReads <= MaxAttempts
      invariant PendingRange(poll, 0, statusReads)
      invariant PollFrom(poll, statusReads) == PollFrom(poll, 0)
    {
      match poll(statusReads) {
        case ReadThrew(t) =>
          return ReadFailed(t), statusReads + 1;
        case Read(p) =>
          if p.status.Succeeded? {
            return Completed(p), statusReads + 1;
          }
          if p.status.Failed? || p.status.Canceled? {
            return ProviderFailed(Js.Or(p.error, PredictionFailedFallback)), statusReads + 1;
          }
      }
      statusReads := statusReads + 1;
    }
    outcome := TimedOut;
  }

  /** The error a non-succeeded poll outcome throws out of the loop. */
  function AsThrown(o: PollOutcome): (t: Thrown)
    requires !o.Completed?
    ensures o.ProviderFailed? ==> t == ErrorInstance(o.message)
    ensures o.TimedOut? ==> t == ErrorInstance(TimedOutMessage)
    ensures o.ReadFailed? ==> t == o.thrown
  {
    match o
    case ProviderFailed(m) => ErrorInstance(m)
    case TimedOut => ErrorInstance(TimedOutMessage)
    case ReadFailed(t) => t
  }

  /** The URL of a succeeded prediction: the first element of a list output, else the output itself; none when absent. */
  function ResultUrl(output: Option<JobOutput>): (url: Option<string>)
    ensures output.None? ==> url.None?
    ensures output.Some? && output.value.Single? ==> url == Some(output.value.url)
    ensures output.Some? && output.value.Many? ==> (url.Some? <==> |output.value.urls| > 0)
    ensures output.Some? && output.value.Many? && url.Some? ==> url.value == output.value.urls[0]
  {
    match output
    case None => None
    case Some(Single(u)) => Some(u)
    case Some(Many(us)) => if |us| > 0 then Some(us[0]) else None
  }

  /** The inputs pass validation when both URLs are non-empty. */
  predicate InputsPresent(req: VideoRequest)
  {
    Js.Truthy(req.imageUrl) && Js.Truthy(req.audioUrl)
  }

  /**
   * The whole route. `token` is the configured API token, `create` the answer to
   * the job-creation request and `poll` the answers to the status reads.
   */
  function Post(body: Body<VideoRequest>, token: Option<string>, create: CreateResult, poll: Provider): (h: Handled)
    ensures h.jobsCreated <= 1 && h.statusReads <= MaxAttempts
    ensures h.jobsCreated == 1 <==> body.Parsed? && InputsPresent(body.fields) && Js.Truthy(token)
    ensures h.statusReads > 0 <==> h.jobsCreated == 1 && create.Created?
    ensures body.Unreadable? ==> h == Handled(Fail(500, MessageOf(body.thrown, GenerateFailedMessage)), 0, 0)
    ensures body.Parsed? && !InputsPresent(body.fields) ==> h == Handled(Fail(400, InputsRequiredMessage), 0, 0)
    ensures body.Parsed? && InputsPresent(body.fields) && !Js.Truthy(token) ==>
              h == Handled(Fail(500, TokenMissingMessage), 0, 0)
    ensures h.jobsCreated == 1 && create.CreateThrew? ==>
              h.reply == Fail(500, MessageOf(create.thrown, GenerateFailedMessage))
    ensures h.statusReads > 0 ==> h.statusReads == PollFrom(poll, 0).statusReads
    ensures h.statusReads > 0 && !PollFrom(poll, 0).outcome.Completed? ==>
              h.reply == Fail(500, MessageOf(AsThrown(PollFrom(poll, 0).outcome), GenerateFailedMessage))
    ensures h.statusReads > 0 && PollFrom(poll, 0).outcome.Completed?
              && !Js.Truthy(ResultUrl(PollFrom(poll, 0).outcome.prediction.output)) ==>
              h.reply == Fail(500, NoVideoUrlMessage)
    ensures h.reply.Ok? ==>
              && h.statusReads > 0
              && PollFrom(poll, 0).outcome.Completed?
              && ResultUrl(PollFrom(poll, 0).outcome.prediction.output) == Some(h.reply.payload.videoUrl)
              && h.reply.payload.videoUrl != ""
    ensures h.statusReads > 0 && PollFrom(poll, 0).outcome.Completed?
              && Js.Truthy(ResultUrl(PollFrom(poll, 0).outcome.prediction.output)) ==>
              h.reply == Ok(VideoResult(ResultUrl(PollFrom(poll, 0).outcome.prediction.output).value))
    ensures h.reply.Fail? ==> h.reply.code == 400 || h.reply.code == 500
  {
    match body
    case Unreadable(t) => Handled(Fail(500, MessageOf(t, GenerateFailedMessage)), 0, 0)
    case Parsed(req) =>
      if !InputsPresent(req) then Handled(Fail(400, InputsRequiredMessage), 0, 0)
      else if !Js.Truthy(token) then Handled(Fail(500, TokenMissingMessage), 0, 0)
      else match create
        case CreateThrew(t) => Handled(Fail(500, MessageOf(t, GenerateFailedMessage)), 1, 0)
        case Created(_) =>
          var run := PollFrom(poll, 0);
          if !run.outcome.Completed? then
            Handled(Fail(500, MessageOf(AsThrown(run.outcome), GenerateFailedMessage)), 1, run.statusReads)
          else
            var url := ResultUrl(run.outcome.prediction.output);
            if !Js.Truthy(url) then Handled(Fail(500, NoVideoUrlMessage), 1, run.statusReads)
            else Handled(Ok(VideoResult(url.value)), 1, run.statusReads)
  }

  /** The first snapshot that is not pending decides the loop, and it is the last one read. */
  lemma {:induction false} FirstSettledDecides(poll: Provider, attempts: nat, k: nat)
    requires attempts <= k < MaxAttempts
    requires PendingRange(poll, attempts, k)
    requires !Pending(poll(k))
    ensures PollFrom(poll, attempts) == PollRun(Settle(poll(k)), k + 1)
    decreases k - attempts
  {
    if attempts < k {
      assert Pending(poll(attempts));
      FirstSettledDecides(poll, attempts + 1, k);
    }
  }

  /** The loop times out exactly when all sixty reads are pending. */
  lemma TimedOutIffAllPending(poll: Provider)
    ensures PollFrom(poll, 0).outcome.TimedOut? <==> PendingRange(poll, 0, MaxAttempts)
  {
  }

  /** A first failed or canceled snapshot makes the route answer 500 with the provider's error. */
  lemma FailedSnapshotBecomes500(req: VideoRequest, token: Option<string>, id: string, poll: Provider, k: nat)
    requires InputsPresent(req) && Js.Truthy(token)
    requires k < MaxAttempts && PendingRange(poll, 0, k)
    requires poll(k).Read? && (poll(k).prediction.status.Failed? || poll(k).prediction.status.Canceled?)
    ensures Post(Parsed(req), token, Created(id), poll) ==
              Handled(Fail(500, Js.Or(poll(k).prediction.error, PredictionFailedFallback)), 1, k + 1)
  {
    FirstSettledDecides(poll, 0, k);
  }

  /** A first succeeded snapshot carrying a usable URL makes the route answer 200 with that URL. */
  lemma SucceededSnapshotBecomes200(req: VideoRequest, token: Option<string>, id: string, poll: Provider, k: nat)
    requires InputsPresent(req) && Js.Truthy(token)
    requires k < MaxAttempts && PendingRange(poll, 0, k)
    requires poll(k).Read? && poll(k).prediction.status.Succeeded?
    requires Js.Truthy(ResultUrl(poll(k).prediction.output))
    ensures Post(Parsed(req), token, Created(id), poll) ==
              Handled(Ok(VideoResult(ResultUrl(poll(k).prediction.output).value)), 1, k + 1)
  {
    FirstSettledDecides(poll, 0, k);
  }

  /** A status read that throws is not retried: its message becomes the 500 response. */
  lemma ReadErrorEndsRoute(req: VideoRequest, token: Option<string>, id: string, poll: Provider, k: nat)
    requires InputsPresent(req) && Js.Truthy(token)
    requires k < MaxAttempts && PendingRange(poll, 0, k)
    requires poll(k).ReadThrew?
    ensures Post(Parsed(req), token, Created(id), poll) ==
              Handled(Fail(500, MessageOf(poll(k).thrown, GenerateFailedMessage)), 1, k + 1)
  {
    FirstSettledDecides(poll, 0, k);
  }
}
