/**
 * The request and response bodies of both services. A pydantic field written
 * `Field(...)` is a constructor parameter without a default; every other
 * field carries its default, so omitting it in a constructor call gives the
 * value the service fills in. The generation service declares a subset of
 * these request classes, with the same fields and defaults; the two
 * services differ in their response model.
 */
module Schemas {
  import opened Wrappers

  /** `Union[str, Tuple[int, int]]`: a named placement or explicit coordinates. */
  datatype Position = Named(name: string) | At(x: int, y: int)

  /** A `(start, end)` pair in seconds, as the scene detector returns them. */
  type TimeSpan = (real, real)

  /** The `status` every handler reports on success. */
  const SuccessStatus := "success"

  const DefaultConcatenateMethod := "compose"
  const DefaultCompositeMethod := "stack"
  const DefaultMirrorAxis := "x"
  const DefaultGifProgram := "imageio"
  const DefaultPosition := Named("center")
  const DefaultVideoDuration := 3.0
  const DefaultChatModel := "gpt-3.5-turbo"

  datatype FilePath = FilePath(path: string)

  datatype TimeRange = TimeRange(start: real := 0.0, end: Option<real> := None)

  datatype DetectHighlights = DetectHighlights(start: real := 0.0, end: Option<real> := None,
                                               videoPath: string, threshold: real := 5.0)

  datatype ClipRequest = ClipRequest(videoPath: string, outputPath: Option<string> := None)

  datatype CutRequest = CutRequest(videoPath: string, outputPath: Option<string> := None,
                                   startTime: real, endTime: real)

  datatype ConcatenateRequest = ConcatenateRequest(videoPaths: seq<string>, outputPath: Option<string> := None,
                                                   combineMethod: string := DefaultConcatenateMethod)

  datatype ResizeRequest = ResizeRequest(videoPath: string, outputPath: Option<string> := None,
                                         width: Option<int> := None, height: Option<int> := None,
                                         scale: Option<real> := None)

  datatype SpeedRequest = SpeedRequest(videoPath: string, outputPath: Option<string> := None, factor: real)

  datatype VolumeRequest = VolumeRequest(videoPath: string, outputPath: Option<string> := None, factor: real)

  datatype AudioExtractRequest = AudioExtractRequest(videoPath: string, outputPath: Option<string> := None,
                                                     outputAudioPath: Option<string> := None)

  datatype TextOverlayRequest = TextOverlayRequest(videoPath: string, outputPath: Option<string> := None,
                                                   text: string, fontsize: int := 50, color: string := "white",
                                                   position: Position := DefaultPosition,
                                                   duration: Option<real> := None, startTime: real := 0.0)

  datatype ImageOverlayRequest = ImageOverlayRequest(videoPath: string, outputPath: Option<string> := None,
                                                     imagePath: string, position: Position := DefaultPosition,
                                                     scale: Option<real> := None, opacity: real := 1.0,
                                                     duration: Option<real> := None, startTime: real := 0.0)

  datatype ColorEffectRequest = ColorEffectRequest(videoPath: string, outputPath: Option<string> := None,
                                                   effectType: string, factor: real := 1.0)

  datatype CompositeRequest = CompositeRequest(videoPaths: seq<string>, outputPath: Option<string> := None,
                                               size: Option<(int, int)> := None,
                                               combineMethod: string := DefaultCompositeMethod)

  datatype MirrorRequest = MirrorRequest(videoPath: string, outputPath: Option<string> := None,
                                         axis: string := DefaultMirrorAxis)

  datatype RotateRequest = RotateRequest(videoPath: string, outputPath: Option<string> := None, angle: real)

  datatype CropRequest = CropRequest(videoPath: string, outputPath: Option<string> := None,
                                     x1: Option<int> := None, y1: Option<int> := None,
                                     x2: Option<int> := None, y2: Option<int> := None,
                                     width: Option<int> := None, height: Option<int> := None)

  datatype MarginRequest = MarginRequest(videoPath: string, outputPath: Option<string> := None,
                                         margin: int, color: (int, int, int) := (0, 0, 0), opacity: real := 1.0)

  datatype FadeRequest = FadeRequest(videoPath: string, outputPath: Option<string> := None,
                                     fadeType: string, duration: real)

  datatype LoopRequest = LoopRequest(videoPath: string, outputPath: Option<string> := None,
                                     n: Option<int> := None, duration: Option<real> := None)

  datatype TimeEffectRequest = TimeEffectRequest(videoPath: string, outputPath: Option<string> := None,
                                                 effectType: string, duration: Option<real> := None)

  /** `class AudioFadeRequest(FadeRequest): pass` */
  type AudioFadeRequest = FadeRequest

  /** `class AudioLoopRequest(LoopRequest): pass` */
  type AudioLoopRequest = LoopRequest

  datatype DetectRequest = DetectRequest(videoPath: string, threshold: real := 5.0, output: Option<string> := None)

  datatype AccelDecelRequest = AccelDecelRequest(videoPath: string, outputPath: Option<string> := None,
                                                 newDuration: Option<real> := None, abscissaFixed: real := 0.5)

  datatype BlinkRequest = BlinkRequest(videoPath: string, outputPath: Option<string> := None,
                                       durationOn: real, durationOff: real)

  datatype GammaCorrectionRequest = GammaCorrectionRequest(videoPath: string, outputPath: Option<string> := None,
                                                           gamma: real)

  datatype PaintingRequest = PaintingRequest(videoPath: string, outputPath: Option<string> := None,
                                             saturation: real := 1.4, black: real := 0.006)

  datatype DetectScenesRequest = DetectScenesRequest(videoPath: string, luminosityThreshold: real := 10.0)

  datatype AudioDelayRequest = AudioDelayRequest(videoPath: string, outputPath: Option<string> := None, offset: real)

  /** `class AudioNormalizeRequest(ClipRequest): pass` */
  type AudioNormalizeRequest = ClipRequest

  datatype SaveFrameRequest = SaveFrameRequest(videoPath: string, outputPath: Option<string> := None,
                                               t: real, outputImagePath: Option<string> := None)

  datatype WriteGifRequest = WriteGifRequest(videoPath: string, outputPath: Option<string> := None,
                                             fps: Option<int> := None, program: string := DefaultGifProgram)

  datatype VideoRequest = VideoRequest(text: string, duration: real := DefaultVideoDuration)

  datatype VideoResponse = VideoResponse(status: string, filePath: string)

  datatype ChatMessage = ChatMessage(role: string, content: string)

  datatype ChatRequest = ChatRequest(messages: seq<ChatMessage>, model: string := DefaultChatModel,
                                     apiBase: Option<string> := None, temperature: real := 0.7)

  datatype ChatResponse = ChatResponse(content: string, model: string)

  /**
   * The editor service's envelope: only `status` is required. `data` holds
   * the detected time spans; the dictionary alternative of its declared type
   * is not used by any handler.
   */
  datatype EditorResponse = EditorResponse(status: string, outputPath: Option<string> := None,
                                           details: Option<string> := None, data: Option<seq<TimeSpan>> := None)

  /** The generation service's envelope: `output_path` is a required string. */
  datatype GenResponse = GenResponse(status: string, outputPath: string, details: Option<string> := None)

  /** Omitted optional fields take the declared defaults. */
  lemma OmittedFieldsTakeDefaults(videoPath: string, videoPaths: seq<string>, text: string)
    ensures ConcatenateRequest(videoPaths).combineMethod == "compose" && ConcatenateRequest(videoPaths).outputPath == None
    ensures CompositeRequest(videoPaths).combineMethod == "stack" && CompositeRequest(videoPaths).size == None
    ensures MirrorRequest(videoPath).axis == "x"
    ensures WriteGifRequest(videoPath).program == "imageio" && WriteGifRequest(videoPath).fps == None
    ensures VideoRequest(text).duration == 3.0
    ensures var t := TextOverlayRequest(videoPath, text := text);
      t.fontsize == 50 && t.color == "white" && t.position == Named("center") && t.startTime == 0.0 && t.duration == None
    ensures var i := ImageOverlayRequest(videoPath, imagePath := text);
      i.position == Named("center") && i.opacity == 1.0 && i.scale == None && i.startTime == 0.0
    ensures ResizeRequest(videoPath) == ResizeRequest(videoPath, None, None, None, None)
    ensures PaintingRequest(videoPath).saturation == 1.4 && PaintingRequest(videoPath).black == 0.006
    ensures DetectRequest(videoPath).threshold == 5.0 && DetectScenesRequest(videoPath).luminosityThreshold == 10.0
    ensures AccelDecelRequest(videoPath).abscissaFixed == 0.5
    ensures MarginRequest(videoPath, margin := 0).color == (0, 0, 0)
  {
  }

  /** The editor envelope needs only a status; the generation envelope cannot be built without an output path. */
  lemma ResponseDefaults(status: string, path: string)
    ensures EditorResponse(status) == EditorResponse(status, None, None, None)
    ensures GenResponse(status, path).outputPath == path && GenResponse(status, path).details == None
  {
  }
}
