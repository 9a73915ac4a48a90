/**
 * The generation service's `/compositing` handlers. Composite answers 404,
 * 400 and 500; the two overlays have no `ValueError` clause.
 */
module GenCompositing {
  import opened Wrappers
  import opened ExceptionMapping
  import opened Schemas
  import GenVideoEdits

  /** `POST /compositing/composite`: forwards `(video_paths, method, size, output_path)`. */
  function CompositeVideos(request: CompositeRequest, process: (seq<string>, string, Option<(int, int)>, Option<string>) -> Outcome<string>): (r: HttpResult<GenResponse>)
    ensures AnswersThreeWay(process(request.videoPaths, request.combineMethod, request.size, request.outputPath), r, GenVideoEdits.OutputEnvelope)
  {
    GuardThreeWay(process(request.videoPaths, request.combineMethod, request.size, request.outputPath), GenVideoEdits.OutputEnvelope);
    Guard(ThreeWay, process(request.videoPaths, request.combineMethod, request.size, request.outputPath), GenVideoEdits.OutputEnvelope)
  }

  /** `POST /compositing/text-overlay`: forwards `(video_path, text, fontsize, color, position, duration, start_time, output_path)`; 404 or 500 only. */
  function TextOverlay(request: TextOverlayRequest, process: (string, string, int, string, Position, Option<real>, real, Option<string>) -> Outcome<string>): (r: HttpResult<GenResponse>)
    ensures AnswersTwoWay(process(request.videoPath, request.text, request.fontsize, request.color, request.position, request.duration, request.startTime, request.outputPath), r, GenVideoEdits.OutputEnvelope)
  {
    GuardTwoWay(process(request.videoPath, request.text, request.fontsize, request.color, request.position, request.duration, request.startTime, request.outputPath), GenVideoEdits.OutputEnvelope);
    Guard(TwoWay, process(request.videoPath, request.text, request.fontsize, request.color, request.position, request.duration, request.startTime, request.outputPath), GenVideoEdits.OutputEnvelope)
  }

  /** `POST /compositing/image-overlay`: forwards `(video_path, image_path, position, scale, opacity, duration, start_time, output_path)`; 404 or 500 only. */
  function ImageOverlay(request: ImageOverlayRequest, process: (string, string, Position, Option<real>, real, Option<real>, real, Option<string>) -> Outcome<string>): (r: HttpResult<GenResponse>)
    ensures AnswersTwoWay(process(request.videoPath, request.imagePath, request.position, request.scale, request.opacity, request.duration, request.startTime, request.outputPath), r, GenVideoEdits.OutputEnvelope)
  {
    GuardTwoWay(process(request.videoPath, request.imagePath, request.position, request.scale, request.opacity, request.duration, request.startTime, request.outputPath), GenVideoEdits.OutputEnvelope);
    Guard(TwoWay, process(request.videoPath, request.imagePath, request.position, request.scale, request.opacity, request.duration, request.startTime, request.outputPath), GenVideoEdits.OutputEnvelope)
  }
}
