/**
 * The decisions of the processing adapters (`process_*`) that precede any
 * media work: every input path must exist (checked first, in argument
 * order), then the operation's own arguments must be acceptable, and only
 * then does the media engine run and the result get written to the
 * caller's path or to a derived sibling path. The filesystem is a map from
 * existing paths to what they hold; the engine's own failure is a parameter.
 */
module Adapters {
  import opened Wrappers
  import opened OutputNaming

  /** A media file on disk, with or without an audio track. */
  datatype Media = Media(hasAudio: bool)

  /** The files that exist: `os.path.exists(p)` is `p in disk`. */
  type Disk = map<string, Media>

  /**
   * One adapter call with the arguments its checks read. Arguments that no
   * check reads (times, factors, sizes, colours) are left out.
   */
  datatype Operation =
    | Cut(video: string)
    | Concatenate(videos: seq<string>)
    | Resize(video: string, width: Option<int>, height: Option<int>, scale: Option<real>)
    | Speed(video: string)
    | Volume(video: string)
    | ExtractAudio(video: string)
    | Composite(videos: seq<string>, combineMethod: string)
    | TextOverlay(video: string)
    | ImageOverlay(video: string, image: string)
    | ColorEffect(video: string, effectType: string)
    | Mirror(video: string, axis: string)
    | Rotate(video: string)
    | Crop(video: string)
    | Margin(video: string)
    | Fade(video: string, fadeType: string)
    | Loop(video: string)
    | TimeEffect(video: string, effectType: string, duration: Option<real>)
    | AudioFade(video: string, fadeType: string)
    | AudioLoop(video: string)

  const NoSizeMessage := "Must provide scale, width, or height"
  const NoVideosMessage := "No video paths provided"
  const NoAudioMessage := "Video has no audio"
  const AxisMessage := "Axis must be 'x' or 'y'"
  const FadeTypeMessage := "Fade type must be 'in' or 'out'"
  const FreezeDurationMessage := "Duration required for freeze effect"

  function UnknownEffectMessage(effectType: string): string { "Unknown effect type: " + effectType }
  function UnknownTimeEffectMessage(effectType: string): string { "Unknown time effect: " + effectType }
  function InvalidMethodMessage(combineMethod: string): string { "Invalid method: " + combineMethod }

  const ColorEffects: set<string> := {"blackwhite", "brightness", "invert", "contrast"}
  const TimeEffects: set<string> := {"reverse", "symmetrize", "freeze"}
  const CompositeMethods: set<string> := {"stack", "grid"}
  const Axes: set<string> := {"x", "y"}
  const FadeTypes: set<string> := {"in", "out"}

  /**
   * The paths an operation checks for existence, in the order it checks them:
   * the list operations check every listed video in order; every other
   * operation checks its video first, and only the image overlay checks a
   * second path, its image.
   */
  function Inputs(op: Operation): (r: seq<string>)
    ensures op.Concatenate? || op.Composite? ==> r == op.videos
    ensures !op.Concatenate? && !op.Composite? ==> 1 <= |r| <= 2 && r[0] == op.video
    ensures |r| == 2 && !op.Concatenate? && !op.Composite? <==> op.ImageOverlay?
    ensures op.ImageOverlay? ==> r[1] == op.image
  {
    match op
    case Concatenate(videos) => videos
    case Composite(videos, _) => videos
    case ImageOverlay(video, image) => [video, image]
    case _ => [op.video]
  }

  predicate AllExist(disk: Disk, paths: seq<string>) {
    forall i :: 0 <= i < |paths| ==> paths[i] in disk
  }

  /** The first path, in order, that does not exist. */
  function FirstMissing(disk: Disk, paths: seq<string>): (r: Option<string>)
    ensures r.None? <==> AllExist(disk, paths)
    ensures r.Some? ==> r.value in paths && r.value !in disk
  {
    if paths == [] then None
    else if paths[0] !in disk then Some(paths[0])
    else FirstMissing(disk, paths[1..])
  }

  /** The path reported missing is the earliest missing one: every path before it exists. */
  lemma {:induction false} FirstMissingIsFirst(disk: Disk, paths: seq<string>)
    requires FirstMissing(disk, paths).Some?
    ensures exists i :: 0 <= i < |paths| && paths[i] == FirstMissing(disk, paths).value
                        && forall j :: 0 <= j < i ==> paths[j] in disk
  {
    if paths[0] in disk {
      FirstMissingIsFirst(disk, paths[1..]);
      var i :| 0 <= i < |paths[1..]| && paths[1..][i] == FirstMissing(disk, paths[1..]).value
                 && forall j :: 0 <= j < i ==> paths[1..][j] in disk;
      assert paths[i + 1] == FirstMissing(disk, paths).value;
      assert forall j :: 0 <= j < i + 1 ==> paths[j] in disk by {
        forall j | 0 <= j < i + 1 ensures paths[j] in disk {
          if j > 0 { assert paths[j] == paths[1..][j - 1]; }
        }
      }
    } else {
      assert paths[0] == FirstMissing(disk, paths).value;
    }
  }

  /**
   * What each operation demands of its arguments once its inputs exist. An
   * operation that passes has at least one input, so its first input is
   * there to be read.
   */
  predicate ArgumentsValid(disk: Disk, op: Operation)
    requires AllExist(disk, Inputs(op))
    ensures ArgumentsValid(disk, op) ==> |Inputs(op)| > 0
  {
    match op
    case Resize(_, width, height, scale) => width.Some? || height.Some? || scale.Some?
    case Concatenate(videos) => videos != []
    case Composite(videos, m) => videos != [] && m in CompositeMethods
    case ExtractAudio(_) => disk[Inputs(op)[0]].hasAudio
    case ColorEffect(_, e) => e in ColorEffects
    case Mirror(_, axis) => axis in Axes
    case Fade(_, fadeType) => fadeType in FadeTypes
    case TimeEffect(_, e, duration) => e in TimeEffects && (e == "freeze" ==> duration.Some?)
    case AudioFade(_, fadeType) => disk[Inputs(op)[0]].hasAudio && fadeType in FadeTypes
    case AudioLoop(_) => disk[Inputs(op)[0]].hasAudio
    case _ => true
  }

  /** The `ValueError` message an operation raises for its arguments, if any. */
  function ArgumentError(disk: Disk, op: Operation): (r: Option<string>)
    requires AllExist(disk, Inputs(op))
    ensures r.None? <==> ArgumentsValid(disk, op)
    ensures r.None? ==> |Inputs(op)| > 0
  {
    match op
    case Resize(_, width, height, scale) =>
      if width.None? && height.None? && scale.None? then Some(NoSizeMessage) else None
    case Concatenate(videos) =>
      if videos == [] then Some(NoVideosMessage) else None
    case Composite(videos, m) =>
      if videos == [] then Some(NoVideosMessage)
      else if m !in CompositeMethods then Some(InvalidMethodMessage(m))
      else None
    case ExtractAudio(_) =>
      if !disk[Inputs(op)[0]].hasAudio then Some(NoAudioMessage) else None
    case ColorEffect(_, e) =>
      if e !in ColorEffects then Some(UnknownEffectMessage(e)) else None
    case Mirror(_, axis) =>
      if axis !in Axes then Some(AxisMessage) else None
    case Fade(_, fadeType) =>
      if fadeType !in FadeTypes then Some(FadeTypeMessage) else None
    case TimeEffect(_, e, duration) =>
      if e !in TimeEffects then Some(UnknownTimeEffectMessage(e))
      else if e == "freeze" && duration.None? then Some(FreezeDurationMessage)
      else None
    case AudioFade(_, fadeType) =>
      if !disk[Inputs(op)[0]].hasAudio then Some(NoAudioMessage)
      else if fadeType !in FadeTypes then Some(FadeTypeMessage)
      else None
    case AudioLoop(_) =>
      if !disk[Inputs(op)[0]].hasAudio then Some(NoAudioMessage) else None
    case _ => None
  }

  /** How an adapter call fails. */
  datatype AdapterError =
    | NotFound(path: string)
    | InvalidArgument(message: string)
    | ProcessingFailure(message: string)

  /** An adapter returns the path it wrote, or fails. */
  datatype AdapterResult = Wrote(output: string) | Failed(error: AdapterError)

  /** Extracted audio is written as `.mp3`; every other operation keeps its input's extension. */
  function OutputExtension(op: Operation): (r: Option<string>)
    ensures r.Some? <==> op.ExtractAudio?
    ensures r.Some? ==> r.value == ".mp3"
  {
    if op.ExtractAudio? then Some(".mp3") else None
  }

  /**
   * One adapter call. `output` is the caller's destination, `suffix` the
   * operation's name tag, `hex` the fresh UUID's hex form, and `engine` is
   * `None` when the media engine succeeds and `Some(message)` when it fails.
   * A derived output path is named after the first input.
   */
  function Run(disk: Disk, op: Operation, output: Option<string>, suffix: string, hex: string,
               engine: Option<string>): (r: AdapterResult)
    requires |hex| >= TokenLength
    ensures r.Failed? && r.error.NotFound? <==> !AllExist(disk, Inputs(op))
    ensures r.Failed? && r.error.NotFound? ==> r.error.path in Inputs(op) && r.error.path !in disk
    ensures r.Failed? && r.error.InvalidArgument? <==> AllExist(disk, Inputs(op)) && !ArgumentsValid(disk, op)
    ensures r.Failed? && r.error.ProcessingFailure? <==>
              AllExist(disk, Inputs(op)) && ArgumentsValid(disk, op) && engine.Some?
    ensures r.Failed? && r.error.InvalidArgument? ==>
              AllExist(disk, Inputs(op)) && ArgumentError(disk, op) == Some(r.error.message)
    ensures r.Failed? && r.error.ProcessingFailure? ==> engine == Some(r.error.message)
    ensures r.Wrote? ==> |Inputs(op)| > 0
    ensures r.Wrote? && output.Some? ==> r.output == output.value
    ensures r.Wrote? && output.None? ==> NamePrefix(Inputs(op)[0], suffix) <= r.output
  {
    match FirstMissing(disk, Inputs(op))
    case Some(p) => Failed(NotFound(p))
    case None =>
      match ArgumentError(disk, op)
      case Some(m) => Failed(InvalidArgument(m))
      case None =>
        match engine
        case Some(m) => Failed(ProcessingFailure(m))
        case None => Wrote(ResolveOutputPath(output, Inputs(op)[0], suffix, hex, OutputExtension(op)))
  }

  /**
   * A missing input is reported before anything else, whatever the other
   * arguments: the answer is `NotFound` of the earliest missing path.
   */
  lemma NotFoundComesFirst(disk: Disk, op: Operation, output: Option<string>, suffix: string, hex: string,
                           engine: Option<string>)
    requires |hex| >= TokenLength
    requires !AllExist(disk, Inputs(op))
    ensures var r := Run(disk, op, output, suffix, hex, engine);
      r.Failed? && r.error.NotFound?
      && exists i :: 0 <= i < |Inputs(op)| && Inputs(op)[i] == r.error.path
                     && forall j :: 0 <= j < i ==> Inputs(op)[j] in disk
  {
    FirstMissingIsFirst(disk, Inputs(op));
  }

  /** Image overlay checks its two paths independently: an existing video with a missing image is `NotFound(image)`. */
  lemma ImageOverlayChecksBothPaths(disk: Disk, video: string, image: string, output: Option<string>,
                                    suffix: string, hex: string, engine: Option<string>)
    requires |hex| >= TokenLength
    requires video in disk && image !in disk
    ensures Run(disk, ImageOverlay(video, image), output, suffix, hex, engine) == Failed(NotFound(image))
  {
    assert [video, image][1..] == [image];
    assert FirstMissing(disk, [image]) == Some(image);
  }

  /** Volume has no argument check: on a silent video it passes through instead of failing. */
  lemma VolumeNeverInvalid(disk: Disk, video: string, output: Option<string>, suffix: string, hex: string)
    requires |hex| >= TokenLength
    requires video in disk
    ensures Run(disk, Volume(video), output, suffix, hex, None).Wrote?
  {
  }

  /** The argument messages the test suite pins. */
  lemma PinnedArgumentMessages(disk: Disk, video: string)
    requires video in disk
    ensures ArgumentError(disk, Resize(video, None, None, None)) == Some("Must provide scale, width, or height")
    ensures ArgumentError(disk, ColorEffect(video, "invalid_effect")) == Some("Unknown effect type: invalid_effect")
    ensures ArgumentError(disk, Mirror(video, "z")) == Some("Axis must be 'x' or 'y'")
    ensures ArgumentError(disk, Fade(video, "invalid")) == Some("Fade type must be 'in' or 'out'")
  {
    assert UnknownEffectMessage("invalid_effect") == "Unknown effect type: invalid_effect";
    assert "invalid_effect" !in ColorEffects;
    assert "z" !in Axes && "invalid" !in FadeTypes;
  }

  /** The time-effect messages the test suite pins: an unknown effect, and a freeze without a duration. */
  lemma PinnedTimeEffectMessages(disk: Disk, video: string)
    requires video in disk
    ensures ArgumentError(disk, TimeEffect(video, "invalid_effect", None)) == Some("Unknown time effect: invalid_effect")
    ensures ArgumentError(disk, TimeEffect(video, "freeze", None)) == Some("Duration required for freeze effect")
  {
    assert UnknownTimeEffectMessage("invalid_effect") == "Unknown time effect: invalid_effect";
    assert "freeze" in TimeEffects;
    assert "invalid_effect" !in TimeEffects;
  }

  /** Empty input lists and an unknown composition method are rejected. */
  lemma PinnedListMessages(disk: Disk, video: string)
    requires video in disk
    ensures ArgumentError(disk, Concatenate([])) == Some("No video paths provided")
    ensures ArgumentError(disk, Composite([], "stack")) == Some("No video paths provided")
    ensures ArgumentError(disk, Composite([video], "invalid")).Some?
  {
    assert "invalid" !in CompositeMethods;
  }

  /** Every audio-requiring operation rejects a video without an audio track, with the same message. */
  lemma PinnedAudioMessages(disk: Disk, video: string)
    requires video in disk && !disk[video].hasAudio
    ensures ArgumentError(disk, ExtractAudio(video)) == Some("Video has no audio")
    ensures ArgumentError(disk, AudioFade(video, "in")) == Some("Video has no audio")
    ensures ArgumentError(disk, AudioLoop(video)) == Some("Video has no audio")
  {
  }

  /** An unknown effect's message names the offending value. */
  lemma UnknownEffectNamesValue(disk: Disk, video: string, e: string)
    requires video in disk && e !in ColorEffects
    ensures var m := ArgumentError(disk, ColorEffect(video, e)).value;
      |m| >= |e| && m[|m| - |e|..] == e
  {
  }

  /** The accepted values are exactly the documented ones. */
  lemma AcceptedValues(disk: Disk, video: string, v: string, d: Option<real>)
    requires video in disk && disk[video].hasAudio
    ensures ArgumentError(disk, ColorEffect(video, v)).None? <==> v == "blackwhite" || v == "brightness" || v == "invert" || v == "contrast"
    ensures ArgumentError(disk, Mirror(video, v)).None? <==> v == "x" || v == "y"
    ensures ArgumentError(disk, Fade(video, v)).None? <==> v == "in" || v == "out"
    ensures ArgumentError(disk, AudioFade(video, v)).None? <==> v == "in" || v == "out"
    ensures ArgumentError(disk, TimeEffect(video, v, d)).None? <==> v == "reverse" || v == "symmetrize" || (v == "freeze" && d.Some?)
    ensures ArgumentError(disk, Composite([video], v)).None? <==> v == "stack" || v == "grid"
  {
  }

  /** Without an explicit destination, extracted audio lands next to the video as an `.mp3` file. */
  lemma ExtractedAudioIsMp3(disk: Disk, video: string, suffix: string, hex: string)
    requires |hex| >= TokenLength
    requires video in disk && disk[video].hasAudio
    ensures var r := Run(disk, ExtractAudio(video), None, suffix, hex, None);
      r.Wrote? && r.output == UniqueOutputPath(video, suffix, hex, Some(".mp3"))
      && |r.output| >= 4 && r.output[|r.output| - 4..] == ".mp3"
  {
    var path := UniqueOutputPath(video, suffix, hex, Some(".mp3"));
    assert Run(disk, ExtractAudio(video), None, suffix, hex, None) == Wrote(path) by {
      assert Inputs(ExtractAudio(video)) == [video];
      assert FirstMissing(disk, [video]) == None;
      assert ArgumentError(disk, ExtractAudio(video)) == None;
      assert OutputExtension(ExtractAudio(video)) == Some(".mp3");
    }
    assert |path| >= 4 && path[|path| - 4..] == ".mp3" by {
      PathShape(video, suffix, hex, Some(".mp3"));
    }
  }
}
