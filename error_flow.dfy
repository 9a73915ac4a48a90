/**
 * The adapters plugged into the handlers: what status each handler answers
 * with, from the files on disk and the request's arguments. An adapter's
 * missing path raises `FileNotFoundError`, a rejected argument `ValueError`
 * and an engine failure any other exception.
 */
module ErrorFlow {
  import opened Wrappers
  import opened ExceptionMapping
  import opened Schemas
  import OutputNaming
  import Adapters
  import EditorVideoEdits
  import GenVideoEdits
  import GenAudio
  import GenCompositing

  /** A UUID's hex form: long enough to take the eight-character token from. */
  type Hex = h: string | |h| >= OutputNaming.TokenLength witness "00000000"

  /**
   * The outcome the handler sees. `missingMessage` gives the text of the
   * `FileNotFoundError` raised for a path.
   */
  function AsOutcome(result: Adapters.AdapterResult, missingMessage: string -> string): (r: Outcome<string>)
    ensures r.Returned? <==> result.Wrote?
    ensures r.Returned? ==> r.value == result.output
    ensures r.Raised? ==> (r.exc.FileNotFoundError? <==> result.error.NotFound?)
                          && (r.exc.ValueError? <==> result.error.InvalidArgument?)
    ensures result.Failed? && result.error.NotFound? ==> r.exc.message == missingMessage(result.error.path)
    ensures result.Failed? && !result.error.NotFound? ==> r.exc.message == result.error.message
  {
    match result
    case Wrote(output) => Returned(output)
    case Failed(NotFound(path)) => Raised(FileNotFoundError(missingMessage(path)))
    case Failed(InvalidArgument(message)) => Raised(ValueError(message))
    case Failed(ProcessingFailure(message)) => Raised(OtherError(message))
  }

  /**
   * Under a three-clause handler the status names the adapter's failure
   * exactly: 404 a missing path, 400 a rejected argument, 500 an engine
   * failure; nothing escapes unhandled.
   */
  lemma ThreeWayStatusNamesFailure<B>(result: Adapters.AdapterResult, missingMessage: string -> string,
                                      r: HttpResult<B>, envelope: string -> B)
    requires AnswersThreeWay(AsOutcome(result, missingMessage), r, envelope)
    ensures !r.Unhandled?
    ensures r.Respond? <==> result.Wrote?
    ensures r.Respond? ==> r.body == envelope(result.output)
    ensures r.HttpError? && r.status == NotFoundStatus <==> result.Failed? && result.error.NotFound?
    ensures r.HttpError? && r.status == BadRequestStatus <==> result.Failed? && result.error.InvalidArgument?
    ensures r.HttpError? && r.status == ServerErrorStatus <==> result.Failed? && result.error.ProcessingFailure?
  {
  }

  /**
   * Under a two-clause handler a missing path is still 404, but a rejected
   * argument is answered 500 like an engine failure, and 400 never occurs.
   */
  lemma TwoWayStatusNamesFailure<B>(result: Adapters.AdapterResult, missingMessage: string -> string,
                                    r: HttpResult<B>, envelope: string -> B)
    requires AnswersTwoWay(AsOutcome(result, missingMessage), r, envelope)
    ensures !r.Unhandled?
    ensures r.Respond? <==> result.Wrote?
    ensures r.Respond? ==> r.body == envelope(result.output)
    ensures r.HttpError? && r.status == NotFoundStatus <==> result.Failed? && result.error.NotFound?
    ensures r.HttpError? && r.status == ServerErrorStatus <==> result.Failed? && !result.error.NotFound?
    ensures r.HttpError? ==> r.status != BadRequestStatus
  {
  }

  /**
   * End to end under a three-clause handler: 404 exactly when an input is
   * missing, 400 exactly when the inputs exist and an argument is rejected,
   * 500 exactly when only the engine fails, and success otherwise.
   */
  lemma ThreeWayStatusFromDisk<B>(disk: Adapters.Disk, op: Adapters.Operation, output: Option<string>,
                                  suffix: string, hex: Hex, engine: Option<string>,
                                  missingMessage: string -> string, r: HttpResult<B>, envelope: string -> B)
    requires AnswersThreeWay(AsOutcome(Adapters.Run(disk, op, output, suffix, hex, engine), missingMessage), r, envelope)
    ensures r.HttpError? && r.status == NotFoundStatus <==> !Adapters.AllExist(disk, Adapters.Inputs(op))
    ensures r.HttpError? && r.status == BadRequestStatus <==>
              Adapters.AllExist(disk, Adapters.Inputs(op)) && !Adapters.ArgumentsValid(disk, op)
    ensures r.HttpError? && r.status == ServerErrorStatus <==>
              Adapters.AllExist(disk, Adapters.Inputs(op)) && Adapters.ArgumentsValid(disk, op) && engine.Some?
    ensures r.Respond? <==>
              Adapters.AllExist(disk, Adapters.Inputs(op)) && Adapters.ArgumentsValid(disk, op) && engine.None?
  {
    ThreeWayStatusNamesFailure(Adapters.Run(disk, op, output, suffix, hex, engine), missingMessage, r, envelope);
  }

  /** End to end under a two-clause handler: 404 exactly when an input is missing, 500 for every other failure. */
  lemma TwoWayStatusFromDisk<B>(disk: Adapters.Disk, op: Adapters.Operation, output: Option<string>,
                                suffix: string, hex: Hex, engine: Option<string>,
                                missingMessage: string -> string, r: HttpResult<B>, envelope: string -> B)
    requires AnswersTwoWay(AsOutcome(Adapters.Run(disk, op, output, suffix, hex, engine), missingMessage), r, envelope)
    ensures r.HttpError? && r.status == NotFoundStatus <==> !Adapters.AllExist(disk, Adapters.Inputs(op))
    ensures r.HttpError? && r.status == ServerErrorStatus <==>
              Adapters.AllExist(disk, Adapters.Inputs(op)) && (!Adapters.ArgumentsValid(disk, op) || engine.Some?)
    ensures r.Respond? <==>
              Adapters.AllExist(disk, Adapters.Inputs(op)) && Adapters.ArgumentsValid(disk, op) && engine.None?
  {
    TwoWayStatusNamesFailure(Adapters.Run(disk, op, output, suffix, hex, engine), missingMessage, r, envelope);
  }

  /** `process_resize_video(video_path, width, height, scale, output_path)` */
  function ResizeAdapter(disk: Adapters.Disk, suffix: string, hex: Hex, engine: Option<string>,
                         missingMessage: string -> string)
    : (string, Option<int>, Option<int>, Option<real>, Option<string>) -> Outcome<string>
  {
    (video, width, height, scale, output) =>
      AsOutcome(Adapters.Run(disk, Adapters.Resize(video, width, height, scale), output, suffix, hex, engine), missingMessage)
  }

  /** `process_cut_video(video_path, start_time, end_time, output_path)` */
  function CutAdapter(disk: Adapters.Disk, suffix: string, hex: Hex, engine: Option<string>,
                      missingMessage: string -> string): (string, real, real, Option<string>) -> Outcome<string>
  {
    (video, start, end, output) =>
      AsOutcome(Adapters.Run(disk, Adapters.Cut(video), output, suffix, hex, engine), missingMessage)
  }

  /** `process_extract_audio(video_path, output_audio_path)` */
  function ExtractAudioAdapter(disk: Adapters.Disk, suffix: string, hex: Hex, engine: Option<string>,
                               missingMessage: string -> string): (string, Option<string>) -> Outcome<string>
  {
    (video, output) =>
      AsOutcome(Adapters.Run(disk, Adapters.ExtractAudio(video), output, suffix, hex, engine), missingMessage)
  }

  /** `process_image_overlay(video_path, image_path, ...)` */
  function ImageOverlayAdapter(disk: Adapters.Disk, suffix: string, hex: Hex, engine: Option<string>,
                               missingMessage: string -> string)
    : (string, string, Position, Option<real>, real, Option<real>, real, Option<string>) -> Outcome<string>
  {
    (video, image, position, scale, opacity, duration, start, output) =>
      AsOutcome(Adapters.Run(disk, Adapters.ImageOverlay(video, image), output, suffix, hex, engine), missingMessage)
  }

  /** `process_composite_videos(video_paths, method, size, output_path)` */
  function CompositeAdapter(disk: Adapters.Disk, suffix: string, hex: Hex, engine: Option<string>,
                            missingMessage: string -> string)
    : (seq<string>, string, Option<(int, int)>, Option<string>) -> Outcome<string>
  {
    (videos, combineMethod, size, output) =>
      AsOutcome(Adapters.Run(disk, Adapters.Composite(videos, combineMethod), output, suffix, hex, engine), missingMessage)
  }

  /** A resize request with no width, height or scale is a 400 in both services' handlers, with the adapter's message. */
  lemma ResizeWithoutSizeIsBadRequest(disk: Adapters.Disk, video: string, output: Option<string>, suffix: string,
                                      hex: Hex, engine: Option<string>, missingMessage: string -> string)
    requires video in disk
    ensures EditorVideoEdits.ResizeVideo(ResizeRequest(video, output), ResizeAdapter(disk, suffix, hex, engine, missingMessage))
            == HttpError(400, "Must provide scale, width, or height")
    ensures GenVideoEdits.ResizeVideo(ResizeRequest(video, output), ResizeAdapter(disk, suffix, hex, engine, missingMessage))
            == HttpError(400, "Must provide scale, width, or height")
  {
    assert Adapters.Run(disk, Adapters.Resize(video, None, None, None), output, suffix, hex, engine)
           == Adapters.Failed(Adapters.InvalidArgument(Adapters.NoSizeMessage));
  }

  /** A cut of a missing video is a 404 in both services' handlers, carrying the `FileNotFoundError` text. */
  lemma CutOfMissingVideoIsNotFound(disk: Adapters.Disk, request: CutRequest, suffix: string, hex: Hex,
                                    engine: Option<string>, missingMessage: string -> string)
    requires request.videoPath !in disk
    ensures EditorVideoEdits.CutVideo(request, CutAdapter(disk, suffix, hex, engine, missingMessage))
            == HttpError(404, missingMessage(request.videoPath))
    ensures GenVideoEdits.CutVideo(request, CutAdapter(disk, suffix, hex, engine, missingMessage))
            == HttpError(404, missingMessage(request.videoPath))
  {
    assert Adapters.Run(disk, Adapters.Cut(request.videoPath), request.outputPath, suffix, hex, engine)
           == Adapters.Failed(Adapters.NotFound(request.videoPath));
  }

  /**
   * The generation service's cut never answers 400: whatever the disk and
   * the engine do, its status is 404 for a missing video and 500 otherwise.
   */
  lemma GenCutNeverBadRequest(disk: Adapters.Disk, request: CutRequest, suffix: string, hex: Hex,
                              engine: Option<string>, missingMessage: string -> string)
    ensures var r := GenVideoEdits.CutVideo(request, CutAdapter(disk, suffix, hex, engine, missingMessage));
      && (r.HttpError? ==> r.status != BadRequestStatus)
      && (r.HttpError? && r.status == NotFoundStatus <==> request.videoPath !in disk)
      && (r.Respond? <==> request.videoPath in disk && engine.None?)
  {
    var op := Adapters.Cut(request.videoPath);
    var r := GenVideoEdits.CutVideo(request, CutAdapter(disk, suffix, hex, engine, missingMessage));
    TwoWayStatusFromDisk(disk, op, request.outputPath, suffix, hex, engine, missingMessage, r, GenVideoEdits.OutputEnvelope);
    TwoWayStatusNamesFailure(Adapters.Run(disk, op, request.outputPath, suffix, hex, engine), missingMessage, r,
                             GenVideoEdits.OutputEnvelope);
  }

  /** An image overlay whose video exists but whose image does not is a 404 about the image. */
  lemma MissingImageIsNotFound(disk: Adapters.Disk, request: ImageOverlayRequest, suffix: string, hex: Hex,
                               engine: Option<string>, missingMessage: string -> string)
    requires request.videoPath in disk && request.imagePath !in disk
    ensures GenCompositing.ImageOverlay(request, ImageOverlayAdapter(disk, suffix, hex, engine, missingMessage))
            == HttpError(404, missingMessage(request.imagePath))
  {
    Adapters.ImageOverlayChecksBothPaths(disk, request.videoPath, request.imagePath, request.outputPath, suffix, hex, engine);
  }

  /** Extracting audio from a silent video is a 400 with the adapter's message. */
  lemma SilentExtractIsBadRequest(disk: Adapters.Disk, request: AudioExtractRequest, suffix: string, hex: Hex,
                                  engine: Option<string>, missingMessage: string -> string)
    requires request.videoPath in disk && !disk[request.videoPath].hasAudio
    ensures GenAudio.ExtractAudio(request, ExtractAudioAdapter(disk, suffix, hex, engine, missingMessage))
            == HttpError(400, "Video has no audio")
  {
    assert Adapters.Run(disk, Adapters.ExtractAudio(request.videoPath), request.outputAudioPath, suffix, hex, engine)
           == Adapters.Failed(Adapters.InvalidArgument(Adapters.NoAudioMessage));
  }

  /**
   * Extraction without `output_audio_path` answers success with a derived
   * `.mp3` path next to the video; `output_path` plays no part.
   */
  lemma ExtractAnswersMp3Path(disk: Adapters.Disk, request: AudioExtractRequest, suffix: string, hex: Hex,
                              missingMessage: string -> string)
    requires request.videoPath in disk && disk[request.videoPath].hasAudio && request.outputAudioPath.None?
    ensures var r := GenAudio.ExtractAudio(request, ExtractAudioAdapter(disk, suffix, hex, None, missingMessage));
      r.Respond? && r.body.status == SuccessStatus
      && r.body.outputPath == OutputNaming.UniqueOutputPath(request.videoPath, suffix, hex, Some(".mp3"))
      && |r.body.outputPath| >= 4 && r.body.outputPath[|r.body.outputPath| - 4..] == ".mp3"
  {
    var path := OutputNaming.UniqueOutputPath(request.videoPath, suffix, hex, Some(".mp3"));
    var process := ExtractAudioAdapter(disk, suffix, hex, None, missingMessage);
    assert process(request.videoPath, request.outputAudioPath) == Returned(path) by {
      Adapters.ExtractedAudioIsMp3(disk, request.videoPath, suffix, hex);
    }
    assert GenAudio.ExtractAudio(request, process) == Respond(GenVideoEdits.OutputEnvelope(path));
    assert |path| >= 4 && path[|path| - 4..] == ".mp3" by {
      OutputNaming.PathShape(request.videoPath, suffix, hex, Some(".mp3"));
    }
  }

  /** An empty composite list and an unknown method are both 400s; a missing clip is a 404. */
  lemma CompositeRejections(disk: Adapters.Disk, video: string, combineMethod: string, suffix: string, hex: Hex,
                            engine: Option<string>, missingMessage: string -> string)
    ensures GenCompositing.CompositeVideos(CompositeRequest([], combineMethod := combineMethod),
                                           CompositeAdapter(disk, suffix, hex, engine, missingMessage))
            == HttpError(400, "No video paths provided")
    ensures video in disk && combineMethod !in Adapters.CompositeMethods ==>
              GenCompositing.CompositeVideos(CompositeRequest([video], combineMethod := combineMethod),
                                             CompositeAdapter(disk, suffix, hex, engine, missingMessage))
              == HttpError(400, "Invalid method: " + combineMethod)
    ensures video !in disk ==>
              GenCompositing.CompositeVideos(CompositeRequest([video], combineMethod := combineMethod),
                                             CompositeAdapter(disk, suffix, hex, engine, missingMessage))
              == HttpError(404, missingMessage(video))
  {
    assert Adapters.Run(disk, Adapters.Composite([], combineMethod), None, suffix, hex, engine)
           == Adapters.Failed(Adapters.InvalidArgument(Adapters.NoVideosMessage));
    if video in disk && combineMethod !in Adapters.CompositeMethods {
      assert Adapters.Run(disk, Adapters.Composite([video], combineMethod), None, suffix, hex, engine)
             == Adapters.Failed(Adapters.InvalidArgument(Adapters.InvalidMethodMessage(combineMethod)));
    }
    if video !in disk {
      assert Adapters.Run(disk, Adapters.Composite([video], combineMethod), None, suffix, hex, engine)
             == Adapters.Failed(Adapters.NotFound(video));
    }
  }
}
