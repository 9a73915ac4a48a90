/**
 * The generation service's `/audio` handlers. Volume has no `ValueError`
 * clause; extract answers 404, 400 and 500 and writes to
 * `output_audio_path`, not `output_path`.
 */
module GenAudio {
  import opened Wrappers
  import opened ExceptionMapping
  import opened Schemas
  import GenVideoEdits

  /** `POST /audio/volume`: forwards `(video_path, factor, output_path)`; 404 or 500 only. */
  function AdjustVolume(request: VolumeRequest, process: (string, real, Option<string>) -> Outcome<string>): (r: HttpResult<GenResponse>)
    ensures AnswersTwoWay(process(request.videoPath, request.factor, request.outputPath), r, GenVideoEdits.OutputEnvelope)
  {
    GuardTwoWay(process(request.videoPath, request.factor, request.outputPath), GenVideoEdits.OutputEnvelope);
    Guard(TwoWay, process(request.videoPath, request.factor, request.outputPath), GenVideoEdits.OutputEnvelope)
  }

  /** `POST /audio/extract`: forwards `(video_path, output_audio_path)`. */
  function ExtractAudio(request: AudioExtractRequest, process: (string, Option<string>) -> Outcome<string>): (r: HttpResult<GenResponse>)
    ensures AnswersThreeWay(process(request.videoPath, request.outputAudioPath), r, GenVideoEdits.OutputEnvelope)
  {
    GuardThreeWay(process(request.videoPath, request.outputAudioPath), GenVideoEdits.OutputEnvelope);
    Guard(ThreeWay, process(request.videoPath, request.outputAudioPath), GenVideoEdits.OutputEnvelope)
  }

  /** The request's `output_path` has no influence on what extract answers. */
  lemma ExtractIgnoresOutputPath(request: AudioExtractRequest, other: Option<string>,
                                 process: (string, Option<string>) -> Outcome<string>)
    ensures ExtractAudio(request, process) == ExtractAudio(request.(outputPath := other), process)
  {
  }
}
