/**
 * The editor service's `/video-edits` handlers. Each forwards the request's
 * fields, in a fixed order, to its adapter (`process`) and wraps the
 * outcome: the success envelope, or 404 for `FileNotFoundError`, 400 for
 * `ValueError` and 500 for any other exception, each with `str(e)` as the
 * detail.
 */
module EditorVideoEdits {
  import opened Wrappers
  import opened ExceptionMapping
  import opened Schemas

  /** `ResponseModel(status="success", output_path=output_path)` */
  function OutputEnvelope(path: string): (r: EditorResponse)
    ensures r.status == SuccessStatus && r.outputPath == Some(path) && r.data == None && r.details == None
  {
    EditorResponse(SuccessStatus, outputPath := Some(path))
  }

  /** `ResponseModel(status="success", data=cuts)` */
  function DataEnvelope(cuts: seq<TimeSpan>): (r: EditorResponse)
    ensures r.status == SuccessStatus && r.data == Some(cuts) && r.outputPath == None && r.details == None
  {
    EditorResponse(SuccessStatus, data := Some(cuts))
  }

  /** `ResponseModel(status="success", output=output)`: the undeclared keyword is ignored. */
  function StatusOnlyEnvelope<O>(output: O): (r: EditorResponse)
    ensures r == EditorResponse(SuccessStatus, None, None, None)
  {
    EditorResponse(SuccessStatus)
  }

  /** `POST /video-edits/detect-scenes`: forwards `(video_path, luminosity_threshold)`; the detected spans go in `data`. */
  function DetectScenesEndpoint(request: DetectScenesRequest, process: (string, real) -> Outcome<seq<TimeSpan>>): (r: HttpResult<EditorResponse>)
    ensures AnswersThreeWay(process(request.videoPath, request.luminosityThreshold), r, DataEnvelope)
  {
    GuardThreeWay(process(request.videoPath, request.luminosityThreshold), DataEnvelope);
    Guard(ThreeWay, process(request.videoPath, request.luminosityThreshold), DataEnvelope)
  }

  /** `POST /video-edits/accel-decel`: forwards `(video_path, new_duration, abscissa_fixed, output_path)`. */
  function AccelDecelVideo(request: AccelDecelRequest, process: (string, Option<real>, real, Option<string>) -> Outcome<string>): (r: HttpResult<EditorResponse>)
    ensures AnswersThreeWay(process(request.videoPath, request.newDuration, request.abscissaFixed, request.outputPath), r, OutputEnvelope)
  {
    GuardThreeWay(process(request.videoPath, request.newDuration, request.abscissaFixed, request.outputPath), OutputEnvelope);
    Guard(ThreeWay, process(request.videoPath, request.newDuration, request.abscissaFixed, request.outputPath), OutputEnvelope)
  }

  /** `POST /video-edits/blink`: forwards `(video_path, duration_on, duration_off, output_path)`. */
  function BlinkVideo(request: BlinkRequest, process: (string, real, real, Option<string>) -> Outcome<string>): (r: HttpResult<EditorResponse>)
    ensures AnswersThreeWay(process(request.videoPath, request.durationOn, request.durationOff, request.outputPath), r, OutputEnvelope)
  {
    GuardThreeWay(process(request.videoPath, request.durationOn, request.durationOff, request.outputPath), OutputEnvelope);
    Guard(ThreeWay, process(request.videoPath, request.durationOn, request.durationOff, request.outputPath), OutputEnvelope)
  }

  /** `POST /video-edits/gamma-correction`: forwards `(video_path, gamma, output_path)`. */
  function GammaCorrectionVideo(request: GammaCorrectionRequest, process: (string, real, Option<string>) -> Outcome<string>): (r: HttpResult<EditorResponse>)
    ensures AnswersThreeWay(process(request.videoPath, request.gamma, request.outputPath), r, OutputEnvelope)
  {
    GuardThreeWay(process(request.videoPath, request.gamma, request.outputPath), OutputEnvelope);
    Guard(ThreeWay, process(request.videoPath, request.gamma, request.outputPath), OutputEnvelope)
  }

  /** `POST /video-edits/painting`: forwards `(video_path, saturation, black, output_path)`. */
  function PaintingVideo(request: PaintingRequest, process: (string, real, real, Option<string>) -> Outcome<string>): (r: HttpResult<EditorResponse>)
    ensures AnswersThreeWay(process(request.videoPath, request.saturation, request.black, request.outputPath), r, OutputEnvelope)
  {
    GuardThreeWay(process(request.videoPath, request.saturation, request.black, request.outputPath), OutputEnvelope);
    Guard(ThreeWay, process(request.videoPath, request.saturation, request.black, request.outputPath), OutputEnvelope)
  }

  /** `POST /video-edits/detect-highlights`: forwards `(video_path, threshold, output)`; the result is passed as `output=`, which the envelope does not declare, so only the status survives. */
  function DetectHighlightsEndpoint<O>(request: DetectRequest, process: (string, real, Option<string>) -> Outcome<O>): (r: HttpResult<EditorResponse>)
    ensures AnswersThreeWay(process(request.videoPath, request.threshold, request.output), r, StatusOnlyEnvelope)
  {
    GuardThreeWay(process(request.videoPath, request.threshold, request.output), StatusOnlyEnvelope);
    Guard(ThreeWay, process(request.videoPath, request.threshold, request.output), StatusOnlyEnvelope)
  }

  /**
   * As written, the highlight detector's result never reaches the client:
   * any two results give the same response.
   */
  lemma HighlightResultIsDropped<O>(request: DetectRequest, a: O, b: O)
    ensures DetectHighlightsEndpoint(request, (v, t, o) => Returned(a))
            == DetectHighlightsEndpoint(request, (v, t, o) => Returned(b))
  {
    assert StatusOnlyEnvelope(a) == StatusOnlyEnvelope(b);
  }

  /** `POST /video-edits/detect-highlights` with the detected spans in `data`, as `detect-scenes` reports them. */
  function DetectHighlightsReported(request: DetectRequest, process: (string, real, Option<string>) -> Outcome<seq<TimeSpan>>)
    : (r: HttpResult<EditorResponse>)
    ensures AnswersThreeWay(process(request.videoPath, request.threshold, request.output), r, DataEnvelope)
  {
    GuardThreeWay(process(request.videoPath, request.threshold, request.output), DataEnvelope);
    Guard(ThreeWay, process(request.videoPath, request.threshold, request.output), DataEnvelope)
  }

  /** With the spans in `data`, two detections answer alike exactly when they found the same spans. */
  lemma ReportedHighlightsKeepResult(request: DetectRequest, a: seq<TimeSpan>, b: seq<TimeSpan>)
    ensures (DetectHighlightsReported(request, (v, t, o) => Returned(a))
             == DetectHighlightsReported(request, (v, t, o) => Returned(b))) <==> a == b
  {
    var ra := DetectHighlightsReported(request, (v, t, o) => Returned(a));
    var rb := DetectHighlightsReported(request, (v, t, o) => Returned(b));
    assert ra.body.data == Some(a) && rb.body.data == Some(b);
  }

  /** `POST /video-edits/cut`: forwards `(video_path, start_time, end_time, output_path)`. */
  function CutVideo(request: CutRequest, process: (string, real, real, Option<string>) -> Outcome<string>): (r: HttpResult<EditorResponse>)
    ensures AnswersThreeWay(process(request.videoPath, request.startTime, request.endTime, request.outputPath), r, OutputEnvelope)
  {
    GuardThreeWay(process(request.videoPath, request.startTime, request.endTime, request.outputPath), OutputEnvelope);
    Guard(ThreeWay, process(request.videoPath, request.startTime, request.endTime, request.outputPath), OutputEnvelope)
  }

  /** `POST /video-edits/concatenate`: forwards `(video_paths, method, output_path)`. */
  function ConcatenateVideos(request: ConcatenateRequest, process: (seq<string>, string, Option<string>) -> Outcome<string>): (r: HttpResult<EditorResponse>)
    ensures AnswersThreeWay(process(request.videoPaths, request.combineMethod, request.outputPath), r, OutputEnvelope)
  {
    GuardThreeWay(process(request.videoPaths, request.combineMethod, request.outputPath), OutputEnvelope);
    Guard(ThreeWay, process(request.videoPaths, request.combineMethod, request.outputPath), OutputEnvelope)
  }

  /** `POST /video-edits/resize`: forwards `(video_path, width, height, scale, output_path)`. */
  function ResizeVideo(request: ResizeRequest, process: (string, Option<int>, Option<int>, Option<real>, Option<string>) -> Outcome<string>): (r: HttpResult<EditorResponse>)
    ensures AnswersThreeWay(process(request.videoPath, request.width, request.height, request.scale, request.outputPath), r, OutputEnvelope)
  {
    GuardThreeWay(process(request.videoPath, request.width, request.height, request.scale, request.outputPath), OutputEnvelope);
    Guard(ThreeWay, process(request.videoPath, request.width, request.height, request.scale, request.outputPath), OutputEnvelope)
  }

  /** `POST /video-edits/speed`: forwards `(video_path, factor, output_path)`. */
  function SpeedVideo(request: SpeedRequest, process: (string, real, Option<string>) -> Outcome<string>): (r: HttpResult<EditorResponse>)
    ensures AnswersThreeWay(process(request.videoPath, request.factor, request.outputPath), r, OutputEnvelope)
  {
    GuardThreeWay(process(request.videoPath, request.factor, request.outputPath), OutputEnvelope);
    Guard(ThreeWay, process(request.videoPath, request.factor, request.outputPath), OutputEnvelope)
  }

  /** `POST /video-edits/color-effect`: forwards `(video_path, effect_type, factor, output_path)`. */
  function ColorEffectVideo(request: ColorEffectRequest, process: (string, string, real, Option<string>) -> Outcome<string>): (r: HttpResult<EditorResponse>)
    ensures AnswersThreeWay(process(request.videoPath, request.effectType, request.factor, request.outputPath), r, OutputEnvelope)
  {
    GuardThreeWay(process(request.videoPath, request.effectType, request.factor, request.outputPath), OutputEnvelope);
    Guard(ThreeWay, process(request.videoPath, request.effectType, request.factor, request.outputPath), OutputEnvelope)
  }

  /** `POST /video-edits/mirror`: forwards `(video_path, axis, output_path)`. */
  function MirrorVideo(request: MirrorRequest, process: (string, string, Option<string>) -> Outcome<string>): (r: HttpResult<EditorResponse>)
    ensures AnswersThreeWay(process(request.videoPath, request.axis, request.outputPath), r, OutputEnvelope)
  {
    GuardThreeWay(process(request.videoPath, request.axis, request.outputPath), OutputEnvelope);
    Guard(ThreeWay, process(request.videoPath, request.axis, request.outputPath), OutputEnvelope)
  }

  /** `POST /video-edits/rotate`: forwards `(video_path, angle, output_path)`. */
  function RotateVideo(request: RotateRequest, process: (string, real, Option<string>) -> Outcome<string>): (r: HttpResult<EditorResponse>)
    ensures AnswersThreeWay(process(request.videoPath, request.angle, request.outputPath), r, OutputEnvelope)
  {
    GuardThreeWay(process(request.videoPath, request.angle, request.outputPath), OutputEnvelope);
    Guard(ThreeWay, process(request.videoPath, request.angle, request.outputPath), OutputEnvelope)
  }

  /** `POST /video-edits/crop`: forwards `(video_path, x1, y1, x2, y2, width, height, output_path)`. */
  function CropVideo(request: CropRequest, process: (string, Option<int>, Option<int>, Option<int>, Option<int>, Option<int>, Option<int>, Option<string>) -> Outcome<string>): (r: HttpResult<EditorResponse>)
    ensures AnswersThreeWay(process(request.videoPath, request.x1, request.y1, request.x2, request.y2, request.width, request.height, request.outputPath), r, OutputEnvelope)
  {
    GuardThreeWay(process(request.videoPath, request.x1, request.y1, request.x2, request.y2, request.width, request.height, request.outputPath), OutputEnvelope);
    Guard(ThreeWay, process(request.videoPath, request.x1, request.y1, request.x2, request.y2, request.width, request.height, request.outputPath), OutputEnvelope)
  }

  /** `POST /video-edits/margin`: forwards `(video_path, margin, color, opacity, output_path)`. */
  function MarginVideo(request: MarginRequest, process: (string, int, (int, int, int), real, Option<string>) -> Outcome<string>): (r: HttpResult<EditorResponse>)
    ensures AnswersThreeWay(process(request.videoPath, request.margin, request.color, request.opacity, request.outputPath), r, OutputEnvelope)
  {
    GuardThreeWay(process(request.videoPath, request.margin, request.color, request.opacity, request.outputPath), OutputEnvelope);
    Guard(ThreeWay, process(request.videoPath, request.margin, request.color, request.opacity, request.outputPath), OutputEnvelope)
  }

  /** `POST /video-edits/fade`: forwards `(video_path, fade_type, duration, output_path)`. */
  function FadeVideo(request: FadeRequest, process: (string, string, real, Option<string>) -> Outcome<string>): (r: HttpResult<EditorResponse>)
    ensures AnswersThreeWay(process(request.videoPath, request.fadeType, request.duration, request.outputPath), r, OutputEnvelope)
  {
    GuardThreeWay(process(request.videoPath, request.fadeType, request.duration, request.outputPath), OutputEnvelope);
    Guard(ThreeWay, process(request.videoPath, request.fadeType, request.duration, request.outputPath), OutputEnvelope)
  }

  /** `POST /video-edits/loop`: forwards `(video_path, n, duration, output_path)`. */
  function LoopVideo(request: LoopRequest, process: (string, Option<int>, Option<real>, Option<string>) -> Outcome<string>): (r: HttpResult<EditorResponse>)
    ensures AnswersThreeWay(process(request.videoPath, request.n, request.duration, request.outputPath), r, OutputEnvelope)
  {
    GuardThreeWay(process(request.videoPath, request.n, request.duration, request.outputPath), OutputEnvelope);
    Guard(ThreeWay, process(request.videoPath, request.n, request.duration, request.outputPath), OutputEnvelope)
  }

  /** `POST /video-edits/time-effect`: forwards `(video_path, effect_type, duration, output_path)`. */
  function TimeEffectVideo(request: TimeEffectRequest, process: (string, string, Option<real>, Option<string>) -> Outcome<string>): (r: HttpResult<EditorResponse>)
    ensures AnswersThreeWay(process(request.videoPath, request.effectType, request.duration, request.outputPath), r, OutputEnvelope)
  {
    GuardThreeWay(process(request.videoPath, request.effectType, request.duration, request.outputPath), OutputEnvelope);
    Guard(ThreeWay, process(request.videoPath, request.effectType, request.duration, request.outputPath), OutputEnvelope)
  }

  /** On success every output-writing handler reports the adapter's path unchanged, and the detectors report no path. */
  lemma SuccessEnvelopes(request: CutRequest, scenes: DetectScenesRequest, highlights: DetectRequest, path: string,
                         cuts: seq<TimeSpan>)
    ensures CutVideo(request, (v, s, e, o) => Returned(path)) == Respond(EditorResponse(SuccessStatus, Some(path), None, None))
    ensures DetectScenesEndpoint(scenes, (v, t) => Returned(cuts)) == Respond(EditorResponse(SuccessStatus, None, None, Some(cuts)))
    ensures DetectHighlightsEndpoint(highlights, (v, t, o) => Returned(path)) == Respond(EditorResponse(SuccessStatus, None, None, None))
  {
  }
}
