/**
 * The generation service's `/video/generate` handler: the text video is
 * written under a UUID-based name in the working directory.
 */
module GenVideo {
  import opened Wrappers
  import opened ExceptionMapping
  import Schemas

  /** The handler's own request model: `text`, and `duration` defaulting to 3.0 seconds. */
  datatype VideoRequest = VideoRequest(text: string, duration: real := Schemas.DefaultVideoDuration)

  /** The handler's own response model. */
  datatype VideoResponse = VideoResponse(status: string, filePath: string)

  /** `VideoResponse(status="success", file_path=os.path.abspath(result))` */
  function FileEnvelope(abspath: string -> string, result: string): (r: VideoResponse)
    ensures r.status == Schemas.SuccessStatus && r.filePath == abspath(result)
  {
    VideoResponse(Schemas.SuccessStatus, abspath(result))
  }

  /** `f"video_{uuid.uuid4()}.mp4"`: a bare file name, no directory. */
  function GeneratedFileName(uuid: string): (r: string)
    ensures |r| == |uuid| + 10
    ensures r[..6] == "video_" && r[6..|r| - 4] == uuid && r[|r| - 4..] == ".mp4"
  {
    "video_" + uuid + ".mp4"
  }

  /** The name holds no '/' when the UUID holds none, and different UUIDs give different names. */
  lemma GeneratedFileNameShape(uuid1: string, uuid2: string)
    ensures '/' !in uuid1 ==> '/' !in GeneratedFileName(uuid1)
    ensures GeneratedFileName(uuid1) == GeneratedFileName(uuid2) <==> uuid1 == uuid2
  {
    var n1, n2 := GeneratedFileName(uuid1), GeneratedFileName(uuid2);
    if '/' !in uuid1 {
      assert forall i :: 6 <= i < 6 + |uuid1| ==> n1[i] == uuid1[i - 6];
    }
    if n1 == n2 {
      assert uuid1 == n1[6..|n1| - 4] == n2[6..|n2| - 4] == uuid2;
    }
  }

  /**
   * `POST /video/generate`: calls the generator with `(text, duration, filename)`;
   * 400 for `ValueError`, 500 for everything else, a missing file included.
   */
  function GenerateVideoEndpoint(request: VideoRequest, uuid: string,
                                 generate: (string, real, string) -> Outcome<string>,
                                 abspath: string -> string): (r: HttpResult<VideoResponse>)
    ensures AnswersNoNotFound(generate(request.text, request.duration, GeneratedFileName(uuid)), r,
                              result => FileEnvelope(abspath, result))
  {
    var outcome := generate(request.text, request.duration, GeneratedFileName(uuid));
    GuardNoNotFound(outcome, result => FileEnvelope(abspath, result));
    Guard(NoNotFound, outcome, result => FileEnvelope(abspath, result))
  }
}
