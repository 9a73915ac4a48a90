/**
 * The generation service's `/video-edits` handlers. Cut and speed have no
 * `ValueError` clause, so an invalid argument is answered with 500; the
 * others answer 404, 400 and 500.
 */
module GenVideoEdits {
  import opened Wrappers
  import opened ExceptionMapping
  import opened Schemas

  /** `ResponseModel(status="success", output_path=output_path)`, whose `output_path` is required. */
  function OutputEnvelope(path: string): (r: GenResponse)
    ensures r.status == SuccessStatus && r.outputPath == path && r.details == None
  {
    GenResponse(SuccessStatus, path)
  }

  /** `POST /video-edits/cut`: forwards `(video_path, start_time, end_time, output_path)`; 404 or 500 only. */
  function CutVideo(request: CutRequest, process: (string, real, real, Option<string>) -> Outcome<string>): (r: HttpResult<GenResponse>)
    ensures AnswersTwoWay(process(request.videoPath, request.startTime, request.endTime, request.outputPath), r, OutputEnvelope)
  {
    GuardTwoWay(process(request.videoPath, request.startTime, request.endTime, request.outputPath), OutputEnvelope);
    Guard(TwoWay, process(request.videoPath, request.startTime, request.endTime, request.outputPath), OutputEnvelope)
  }

  /** `POST /video-edits/concatenate`: forwards `(video_paths, method, output_path)`. */
  function ConcatenateVideos(request: ConcatenateRequest, process: (seq<string>, string, Option<string>) -> Outcome<string>): (r: HttpResult<GenResponse>)
    ensures AnswersThreeWay(process(request.videoPaths, request.combineMethod, request.outputPath), r, OutputEnvelope)
  {
    GuardThreeWay(process(request.videoPaths, request.combineMethod, request.outputPath), OutputEnvelope);
    Guard(ThreeWay, process(request.videoPaths, request.combineMethod, request.outputPath), OutputEnvelope)
  }

  /** `POST /video-edits/resize`: forwards `(video_path, width, height, scale, output_path)`. */
  function ResizeVideo(request: ResizeRequest, process: (string, Option<int>, Option<int>, Option<real>, Option<string>) -> Outcome<string>): (r: HttpResult<GenResponse>)
    ensures AnswersThreeWay(process(request.videoPath, request.width, request.height, request.scale, request.outputPath), r, OutputEnvelope)
  {
    GuardThreeWay(process(request.videoPath, request.width, request.height, request.scale, request.outputPath), OutputEnvelope);
    Guard(ThreeWay, process(request.videoPath, request.width, request.height, request.scale, request.outputPath), OutputEnvelope)
  }

  /** `POST /video-edits/speed`: forwards `(video_path, factor, output_path)`; 404 or 500 only. */
  function SpeedVideo(request: SpeedRequest, process: (string, real, Option<string>) -> Outcome<string>): (r: HttpResult<GenResponse>)
    ensures AnswersTwoWay(process(request.videoPath, request.factor, request.outputPath), r, OutputEnvelope)
  {
    GuardTwoWay(process(request.videoPath, request.factor, request.outputPath), OutputEnvelope);
    Guard(TwoWay, process(request.videoPath, request.factor, request.outputPath), OutputEnvelope)
  }

  /** `POST /video-edits/color-effect`: forwards `(video_path, effect_type, factor, output_path)`. */
  function ColorEffectVideo(request: ColorEffectRequest, process: (string, string, real, Option<string>) -> Outcome<string>): (r: HttpResult<GenResponse>)
    ensures AnswersThreeWay(process(request.videoPath, request.effectType, request.factor, request.outputPath), r, OutputEnvelope)
  {
    GuardThreeWay(process(request.videoPath, request.effectType, request.factor, request.outputPath), OutputEnvelope);
    Guard(ThreeWay, process(request.videoPath, request.effectType, request.factor, request.outputPath), OutputEnvelope)
  }
}
