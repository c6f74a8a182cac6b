/**
 * The `POST video-status` route: one read of a prediction, translated into the
 * progress record the client's loading screen shows.
 */
module VideoStatus {
  import opened Wrappers
  import opened Http
  import opened Replicate
  import Js

  /** The output shapes this route accepts from the different lip-sync models. */
  datatype StatusOutput =
    | Url(url: string)                               // a bare URL
    | Urls(urls: seq<string>)                        // a list of URLs
    | Record(video: Option<string>, pose: Option<string>)  // an object with video and pose fields

  /** The JSON body of a successful response. */
  datatype StatusReport = StatusReport(
    status: Status,
    progress: nat,
    message: string,
    videoUrl: Option<string>,
    error: Option<string>)

  /** The request body's only field. */
  datatype StatusRequest = StatusRequest(predictionId: Option<string>)

  /** A response together with the number of provider reads issued to produce it. */
  datatype Handled = Handled(reply: Reply<StatusReport>, providerReads: nat)

  const IdRequiredMessage: string := "Prediction ID is required"
  const CheckFailedMessage: string := "Failed to check status"
  const FailedFallback: string := "Generation failed"

  /** Position of a status along the normal path; terminal failures rank lowest. */
  function Stage(s: Status): nat
  {
    match s
    case Failed => 0
    case Canceled => 0
    case Starting => 1
    case Processing => 2
    case Succeeded => 3
  }

  /** The progress percentage a status maps to. */
  function Progress(s: Status): (p: nat)
    ensures p in {0, 10, 50, 100}
    ensures p == 0 <==> s.Failed? || s.Canceled?
    ensures p == 100 <==> s.Succeeded?
  {
    match s
    case Starting => 10
    case Processing => 50
    case Succeeded => 100
    case Failed => 0
    case Canceled => 0
  }

  /** Progress strictly increases along starting, processing, succeeded. */
  lemma ProgressFollowsStage(s: Status, t: Status)
    requires Stage(s) < Stage(t)
    ensures Progress(s) < Progress(t)
  {
  }

  /** The human-readable message for a status; a failure shows the provider's error when it has one. */
  function Message(s: Status, error: Option<string>): (m: string)
    ensures s.Failed? && Js.Truthy(error) ==> Some(m) == error
    ensures s.Failed? && !Js.Truthy(error) ==> m == FailedFallback
    ensures !s.Failed? ==> m != "" && m != FailedFallback
  {
    match s
    case Starting => "Starting up GPU..."
    case Processing => "Generating lip-sync video..."
    case Succeeded => "Video ready!"
    case Failed => Js.Or(error, FailedFallback)
    case Canceled => "Generation canceled"
  }

  /** Only a failed status reads the provider error; every other status has its own message. */
  lemma MessageOnlyFailedReadsError(s: Status, t: Status, e1: Option<string>, e2: Option<string>)
    ensures !s.Failed? ==> Message(s, e1) == Message(s, e2)
    ensures !s.Failed? && !t.Failed? && s != t ==> Message(s, e1) != Message(t, e2)
  {
  }

  /** Whether an output counts as present: an empty string does not, a list or an object always does. */
  predicate OutputPresent(o: Option<StatusOutput>)
  {
    o.Some? && (o.value.Url? ==> o.value.url != "")
  }

  /** The single URL carried by an output, whatever its shape. */
  function NormaliseOutput(o: StatusOutput): (url: Option<string>)
    ensures o.Url? ==> url == Some(o.url)
    ensures o.Urls? ==> (url.Some? <==> |o.urls| > 0)
    ensures o.Urls? && url.Some? ==> url.value == o.urls[0]
    ensures o.Record? ==> (url.Some? <==> Js.Truthy(o.video))
    ensures o.Record? && url.Some? ==> url == o.video
  {
    match o
    case Url(u) => Some(u)
    case Urls(us) => if |us| > 0 then Some(us[0]) else None
    case Record(v, _) => if Js.Truthy(v) then v else None
  }

  /** The response record built from one provider snapshot. */
  function Report(p: Prediction<StatusOutput>): (r: StatusReport)
    ensures r.status == p.status
    ensures r.progress == Progress(p.status)
    ensures r.message == Message(p.status, p.error)
    ensures r.videoUrl.Some? ==> p.status.Succeeded? && OutputPresent(p.output)
    ensures p.status.Succeeded? && OutputPresent(p.output) ==> r.videoUrl == NormaliseOutput(p.output.value)
    ensures p.status.Failed? ==> r.error == p.error
    ensures !p.status.Failed? ==> r.error == None
  {
    var videoUrl :=
      if p.status.Succeeded? && OutputPresent(p.output) then NormaliseOutput(p.output.value) else None;
    StatusReport(
      p.status,
      Progress(p.status),
      Message(p.status, p.error),
      videoUrl,
      if p.status.Failed? then p.error else None)
  }

  /**
   * The whole route: body parsing, the id check, the token check, then one
   * provider read. `read` is what that read would return.
   */
  function Handle(body: Body<StatusRequest>, token: Option<string>, read: ReadResult<StatusOutput>): (h: Handled)
    ensures h.providerReads <= 1
    ensures body.Unreadable? ==> h == Handled(Fail(500, MessageOf(body.thrown, CheckFailedMessage)), 0)
    ensures body.Parsed? && !Js.Truthy(body.fields.predictionId) ==> h == Handled(Fail(400, IdRequiredMessage), 0)
    ensures body.Parsed? && Js.Truthy(body.fields.predictionId) && !Js.Truthy(token) ==>
              h == Handled(Fail(500, TokenMissingMessage), 0)
    ensures h.providerReads == 1 <==> body.Parsed? && Js.Truthy(body.fields.predictionId) && Js.Truthy(token)
    ensures h.reply.Ok? <==> h.providerReads == 1 && read.Read?
    ensures h.reply.Ok? ==> h.reply.payload == Report(read.prediction)
    ensures h.providerReads == 1 && read.ReadThrew? ==> h.reply == Fail(500, MessageOf(read.thrown, CheckFailedMessage))
    ensures h.reply.Fail? ==> h.reply.code == 400 || h.reply.code == 500
  {
    match body
    case Unreadable(t) => Handled(Fail(500, MessageOf(t, CheckFailedMessage)), 0)
    case Parsed(req) =>
      if !Js.Truthy(req.predictionId) then Handled(Fail(400, IdRequiredMessage), 0)
      else if !Js.Truthy(token) then Handled(Fail(500, TokenMissingMessage), 0)
      else match read
        case ReadThrew(t) => Handled(Fail(500, MessageOf(t, CheckFailedMessage)), 1)
        case Read(p) => Handled(Ok(Report(p)), 1)
  }

  /** A missing id is reported as 400 whatever the token, so it is checked first. */
  lemma IdCheckedBeforeToken(req: StatusRequest, token1: Option<string>, token2: Option<string>,
                             read1: ReadResult<StatusOutput>, read2: ReadResult<StatusOutput>)
    requires !Js.Truthy(req.predictionId)
    ensures Handle(Parsed(req), token1, read1) == Handle(Parsed(req), token2, read2)
    ensures Handle(Parsed(req), token1, read1).reply.Code() == 400
  {
  }

  /** Without a token the provider's answer cannot influence the response. */
  lemma NoReadWithoutToken(body: Body<StatusRequest>, token: Option<string>,
                           read1: ReadResult<StatusOutput>, read2: ReadResult<StatusOutput>)
    requires !Js.Truthy(token)
    ensures Handle(body, token, read1) == Handle(body, token, read2)
    ensures Handle(body, token, read1).providerReads == 0
  {
  }

  /** The `error` field is set only for a failed prediction; a canceled one reports none. */
  lemma ErrorOnlyWhenFailed(p: Prediction<StatusOutput>)
    ensures Report(p).error.Some? ==> p.status.Failed?
    ensures p.status.Canceled? ==> Report(p).error == None && Report(p).message == "Generation canceled"
  {
  }
}
