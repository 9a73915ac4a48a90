/**
 * The editor service's `/video` handlers: saving a frame, writing a GIF, and
 * generating a text video into the safe directory under a UUID-based name.
 */
module EditorVideo {
  import opened Wrappers
  import opened ExceptionMapping
  import opened Schemas
  import OutputNaming
  import EditorVideoEdits

  /** `POST /video/save-frame`: forwards `(video_path, t, output_image_path)`; `output_path` is not forwarded. */
  function SaveFrame(request: SaveFrameRequest, process: (string, real, Option<string>) -> Outcome<string>)
    : (r: HttpResult<EditorResponse>)
    ensures AnswersThreeWay(process(request.videoPath, request.t, request.outputImagePath), r,
                            EditorVideoEdits.OutputEnvelope)
  {
    GuardThreeWay(process(request.videoPath, request.t, request.outputImagePath), EditorVideoEdits.OutputEnvelope);
    Guard(ThreeWay, process(request.videoPath, request.t, request.outputImagePath), EditorVideoEdits.OutputEnvelope)
  }

  /** `POST /video/write-gif`: forwards `(video_path, fps, program, output_path)`. */
  function WriteGif(request: WriteGifRequest, process: (string, Option<int>, string, Option<string>) -> Outcome<string>)
    : (r: HttpResult<EditorResponse>)
    ensures AnswersThreeWay(process(request.videoPath, request.fps, request.program, request.outputPath), r,
                            EditorVideoEdits.OutputEnvelope)
  {
    GuardThreeWay(process(request.videoPath, request.fps, request.program, request.outputPath),
                  EditorVideoEdits.OutputEnvelope);
    Guard(ThreeWay, process(request.videoPath, request.fps, request.program, request.outputPath),
          EditorVideoEdits.OutputEnvelope)
  }

  /** `str(SAFE_DIR / f"video_{uuid}.mp4")`, for a safe directory given without a trailing '/'. */
  function SafeFileName(safeDir: string, uuid: string): (r: string)
    ensures |r| == |safeDir| + |uuid| + 11
    ensures r[..|safeDir| + 1] == safeDir + "/"
    ensures r[|safeDir| + 1..] == "video_" + uuid + ".mp4"
  {
    var name := "video_" + uuid + ".mp4";
    assert (safeDir + "/" + name)[|safeDir| + 1..] == name;
    safeDir + "/" + name
  }

  /** Two requests share a file name exactly when they share the UUID. */
  lemma SafeFileNameInjective(safeDir: string, uuid1: string, uuid2: string)
    ensures SafeFileName(safeDir, uuid1) == SafeFileName(safeDir, uuid2) <==> uuid1 == uuid2
  {
    if SafeFileName(safeDir, uuid1) == SafeFileName(safeDir, uuid2) {
      var name1, name2 := "video_" + uuid1 + ".mp4", "video_" + uuid2 + ".mp4";
      assert name1 == name2;
      assert uuid1 == name1[6..|name1| - 4];
      assert uuid2 == name2[6..|name2| - 4];
    }
  }

  /** A UUID holds no '/', so the generated file lies directly in the safe directory. */
  lemma GeneratedFileIsInSafeDir(safeDir: string, uuid: string)
    requires '/' !in uuid
    ensures OutputNaming.Directory(SafeFileName(safeDir, uuid)) == safeDir + "/"
    ensures OutputNaming.FileName(SafeFileName(safeDir, uuid)) == "video_" + uuid + ".mp4"
  {
    var dir, name := safeDir + "/", "video_" + uuid + ".mp4";
    assert '/' !in name by {
      assert forall i :: 6 <= i < 6 + |uuid| ==> name[i] == uuid[i - 6];
    }
    assert SafeFileName(safeDir, uuid) == dir + name;
    OutputNaming.DirectoryOfJoin(dir, name);
  }

  /** `VideoResponse(status="success", file_path=os.path.abspath(result))` */
  function FileEnvelope(abspath: string -> string, result: string): (r: VideoResponse)
    ensures r.status == SuccessStatus && r.filePath == abspath(result)
  {
    VideoResponse(SuccessStatus, abspath(result))
  }

  /**
   * `POST /video/generate`: calls the generator with `(text, duration, filename)`.
   * There is no `FileNotFoundError` clause: only `ValueError` gets 400.
   */
  function GenerateVideoEndpoint(request: VideoRequest, safeDir: string, uuid: string,
                                 generate: (string, real, string) -> Outcome<string>,
                                 abspath: string -> string): (r: HttpResult<VideoResponse>)
    ensures AnswersNoNotFound(generate(request.text, request.duration, SafeFileName(safeDir, uuid)), r,
                              result => FileEnvelope(abspath, result))
  {
    var outcome := generate(request.text, request.duration, SafeFileName(safeDir, uuid));
    GuardNoNotFound(outcome, result => FileEnvelope(abspath, result));
    Guard(NoNotFound, outcome, result => FileEnvelope(abspath, result))
  }
}
