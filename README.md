# moviepy-mcp: a Dafny model of the request and error logic

moviepy-mcp exposes video editing over HTTP (two FastAPI services, the
"editor" service and the "generation" service) and over MCP tools, with a
Next.js front end that talks to an LLM and to the tools. Almost all media
work is delegated to moviepy and PIL. This project models the parts that
make decisions of their own and proves what they promise:

- **VideoTool** (`video_tool.dfy`): the MCP tool `create_video`, which
  sanitises the text into a file name (`video_<safe>.mp4`) and renders
  success or failure as a string.
- **OutputNaming** (`output_naming.dfy`): the naming rule for derived output
  files, `<dir>/<stem>_<suffix>_<first 8 hex of a UUID><ext>`. The UUID's hex
  form is a parameter.
- **Adapters** (`adapters.dfy`): the decisions the `process_*` adapters
  make before any media work. Every input path must exist (checked in order,
  `FileNotFoundError`), then the arguments must be acceptable (`ValueError`,
  with fixed messages), then the engine runs and the output is written to
  the caller's path or to a derived one. The filesystem is a map from
  existing paths to media; the engine's failure is a parameter.
- **ExceptionMapping** (`exception_mapping.dfy`): the ordered
  `try`/`except` blocks of the handlers, where the first matching clause
  wins. There are three clause sets: 404/400/500, 404/500, and 400/500.
- **Schemas** (`schemas.dfy`): request and response bodies of both
  services. A pydantic default is a Dafny constructor default.
- **EditorVideoEdits**, **EditorVideo**, **GenVideoEdits**, **GenAudio**,
  **GenCompositing**, **GenVideo**: one function per HTTP handler. The
  adapter is a function parameter whose parameter list is the forwarded
  argument order. The generation service declares edits, audio and
  compositing handlers but its app mounts only the video router (see Left
  out).
- **FrontendApi** (`frontend_api.dfy`): `chatCompletion`, a method that
  normalises the base URL, builds the headers, tries `/chat/completions`,
  falls back to `/responses` and chooses which error to rethrow. It also
  holds `listTools` and `callTool`. Every network call is a function
  parameter from the request to its outcome.
- **ErrorFlow** (`error_flow.dfy`): the adapters plugged into the handlers.
  It gives the status each handler answers with, from the files on disk and
  the request's arguments.

## Model

| member | source | states |
|---|---|---|
| VideoTool.KeepAllowed | src/video_gen_service/mcp_server.py:15 | The filtered text is no longer than the input. It holds only alphanumerics, `' '`, `'_'` and `'-'`, all taken from the input. |
| VideoTool.KeepAllowedAppend | src/video_gen_service/mcp_server.py:15 | Filtering distributes over concatenation, so kept characters stay in their original order. |
| VideoTool.KeepAllowedCounts | src/video_gen_service/mcp_server.py:15 | Every kept character occurs exactly as often as in the input; every other character does not occur. |
| VideoTool.KeepAllowedFixesExactlyKept | src/video_gen_service/mcp_server.py:15 | Filtering leaves a text unchanged if and only if all of its characters are allowed. |
| VideoTool.TrimStart | src/video_gen_service/mcp_server.py:15 | The leading half of `strip()`: a suffix of the input, beginning with a non-whitespace character, after removing only whitespace. |
| VideoTool.TrimEnd | src/video_gen_service/mcp_server.py:15 | The trailing half of `strip()`: a prefix of the input, ending with a non-whitespace character, after removing only whitespace. |
| VideoTool.SpacesToUnderscores | src/video_gen_service/mcp_server.py:16 | Same length as the input; each `' '` becomes `'_'` and every other character is unchanged. |
| VideoTool.Truncate | src/video_gen_service/mcp_server.py:16 | `[:n]`: a prefix of at most `n` characters, which is the whole text when the text is short enough. |
| VideoTool.SafeText | src/video_gen_service/mcp_server.py:15-16 | The sanitised text has at most 50 characters, contains no space or other disallowed character, and is a prefix of the stripped, underscore-replaced filtered text. |
| VideoTool.Strip | src/video_gen_service/mcp_server.py:15 | Neither end of the stripped text is whitespace, and it is no longer than the input (that already-safe text is unchanged is stated by SafeIsStripped). |
| VideoTool.KeptWhitespaceIsSpace | src/video_gen_service/mcp_server.py:15 | The only whitespace that survives the filter is `' '`, so stripping removes only spaces. |
| VideoTool.SafeTextFixesSafe | src/video_gen_service/mcp_server.py:15-16 | A safe text of at most 50 characters is its own sanitised form. |
| VideoTool.SafeTextIdempotent | src/video_gen_service/mcp_server.py:15-16 | Sanitising twice gives the same result as sanitising once. |
| VideoTool.OutputFileName | src/video_gen_service/mcp_server.py:19 | The file name is `video_`, then the sanitised text, then `.mp4`. |
| VideoTool.SameFileIffSameSafeText | src/video_gen_service/mcp_server.py:19 | Two texts name the same file if and only if their sanitised forms are equal. |
| VideoTool.CreateVideo | src/video_gen_service/mcp_server.py:9-25 | `duration` defaults to 3.0. A missing text (`None`) fails before the `try`, so the error propagates. Otherwise a generated path is returned as `"Video generated successfully at: " + abspath(path)` and a generation error as `"Error generating video: " + message`; neither raises. |
| VideoTool.OutcomesAreDistinguishable | src/video_gen_service/mcp_server.py:21-25 | The returned string starts with the success prefix if and only if generation succeeded. |
| OutputNaming.Directory | tests/test_video_utils.py:143 | The directory part is a prefix of the path. |
| OutputNaming.FileName | tests/test_video_utils.py:143 | Directory followed by file name is the path. |
| OutputNaming.NameExtension | tests/test_video_utils.py:144 | The extension is a suffix of the file name. |
| OutputNaming.NameStem | tests/test_video_utils.py:143-144 | Stem followed by extension is the file name. |
| OutputNaming.PartsShape | tests/test_video_utils.py:140-160 | File name, stem and extension hold no `'/'`. The extension is empty, or it is a `'.'` followed by no other `'.'`. |
| OutputNaming.SplitRoundTrip | tests/test_video_utils.py:140-148 | Directory, stem and extension together give back the path. |
| OutputNaming.NoDotNoExtension | tests/test_video_utils.py:155-160 | A file name without `'.'` has an empty extension and is its own stem. |
| OutputNaming.Token | tests/test_video_utils.py:174-182 | The token is exactly the first 8 characters of the UUID's hex form. |
| OutputNaming.PathShape | tests/test_video_utils.py:140-148 | The derived path is `<dir><stem>_<suffix>_`, then the token, then the chosen extension. It starts with that prefix, ends with the extension, and is exactly 8 characters longer than the token-less name. |
| OutputNaming.ExplicitExtensionReplaces | tests/test_video_utils.py:150-153 | An explicit `ext` replaces the original extension and leaves the rest of the path unchanged. |
| OutputNaming.ChosenExtension | tests/test_video_utils.py:150-153 | An explicit extension is used exactly as given; without one, the input's own extension is kept. |
| OutputNaming.UniqueOutputPath | tests/test_video_utils.py:140-187 | The derived path is exactly 8 characters (the token) longer than the input's directory, stem, `_<suffix>_` and the chosen extension together; which characters these are is stated by PathShape, and that the token alone tells two derived paths apart by TokenDeterminesPath. |
| OutputNaming.TokenDeterminesPath | tests/test_video_utils.py:162-165 | Two calls give the same path if and only if their tokens are equal, so fresh tokens make repeated calls unique. |
| OutputNaming.DerivedPathIsSibling | tests/test_video_utils.py:143 | The derived file lies in the input's directory. |
| OutputNaming.NoDirectoryNoSlash | tests/test_video_utils.py:167-172 | A bare file name yields a bare file name with no `'/'` that starts with `<stem>_<suffix>_`. |
| OutputNaming.NoExtensionLastComponent | tests/test_video_utils.py:155-160 | For an input without an extension, the last `'_'`-separated component is the token and contains no `'.'`. |
| OutputNaming.JoinedPathDerivation | tests/test_video_utils.py:140-148 | For a path given as directory, stem and extension, the derived path is spelled out from those parts. |
| OutputNaming.PinnedPlainExample | tests/test_video_utils.py:174-182 | `("/path/to/video.mp4", "test")` with hex `1234567890abcdef` gives `/path/to/video_test_12345678.mp4`. |
| OutputNaming.PinnedExtensionExample | tests/test_video_utils.py:184-187 | The same call with `ext=".avi"` gives `/path/to/video_test_12345678.avi`. |
| OutputNaming.CustomExtensionExample | tests/test_video_utils.py:150-153 | For any UUID, `ext=".mov"` on `/path/to/video.mp4` gives a path that starts with `/path/to/video_test_` and ends with `.mov`. |
| OutputNaming.PinnedBareNameExample | tests/test_video_utils.py:167-172 | `video.mp4` gives `video_test_12345678.mp4`. |
| OutputNaming.ResolveOutputPath | tests/test_video_utils.py:111-117 | A caller's output path is used as given. Without one, the result starts with the derived-name prefix of the input. |
| Adapters.FirstMissing | tests/test_error_handling.py:71-132 | No path is reported if and only if all inputs exist. A reported path is one of the inputs and does not exist. |
| Adapters.FirstMissingIsFirst | tests/test_error_handling.py:97-102 | The reported path is the earliest missing input; every input before it exists. |
| Adapters.Inputs | tests/test_error_handling.py:71-131 | The list operations check each listed video in order. Every other operation checks its video first, and only the image overlay checks a second path, its image. |
| Adapters.ArgumentError | tests/test_error_handling.py:134-170 | A message is reported if and only if the arguments are not acceptable (no size for resize, empty list, unknown effect, axis, fade type or method, freeze without duration, no audio). An accepted call has an input. |
| Adapters.ArgumentsValid | tests/test_error_handling.py:134-170 | The acceptance rule each operation applies once its inputs exist; an accepted operation has at least one input (its message counterpart is ArgumentError). |
| Adapters.Run | tests/test_error_handling.py:71-170 | `NotFound` exactly when an input is missing, naming a missing input. `InvalidArgument` exactly when inputs exist but an argument is rejected, carrying the check's message. `ProcessingFailure` exactly when only the engine fails, carrying the engine's message. On success the output is the caller's path, or a derived one named after the first input. |
| Adapters.NotFoundComesFirst | tests/test_error_handling.py:71-132 | A missing input is reported before any argument check, and the path reported is the earliest missing one. |
| Adapters.ImageOverlayChecksBothPaths | tests/test_error_handling.py:100-102 | With the video present and the image missing, image overlay fails with `NotFound` of the image. |
| Adapters.VolumeNeverInvalid | src/video_gen_service/routers/audio.py:8-18 | Volume on an existing video with a working engine always writes: there is no argument check. |
| Adapters.PinnedArgumentMessages | tests/test_video_utils.py:224-281 | Exact messages: `Must provide scale, width, or height`, `Unknown effect type: invalid_effect`, `Axis must be 'x' or 'y'` and `Fade type must be 'in' or 'out'`. |
| Adapters.PinnedTimeEffectMessages | tests/test_video_utils.py:246-255 | `Unknown time effect: invalid_effect`, and `Duration required for freeze effect` for freeze without a duration. |
| Adapters.PinnedListMessages | tests/test_error_handling.py:138-145 | An empty concatenate or composite list gives `No video paths provided`; an invalid composite method is rejected. |
| Adapters.PinnedAudioMessages | tests/test_video_utils.py:209-222 | Extract, audio fade and audio loop on a silent video each give `Video has no audio`. |
| Adapters.UnknownEffectNamesValue | tests/test_video_utils.py:224-227 | The unknown-effect message names the rejected value after `Unknown effect type: `. |
| Adapters.AcceptedValues | src/video_gen_service/schemas.py:55-92 | Exactly these values are accepted: colour effects blackwhite, brightness, invert and contrast; axes x and y; fade types in and out; time effects reverse, symmetrize, and freeze with a duration; methods stack and grid (assumed, see Left out). |
| Adapters.ExtractedAudioIsMp3 | tests/test_video_utils.py:111-117 | Extracting audio with no destination writes a derived path that ends in `.mp3`. |
| Adapters.OutputExtension | tests/test_video_utils.py:111-117 | An explicit extension (`.mp3`) is chosen exactly for audio extraction; every other operation keeps its input's extension. |
| ExceptionMapping.Dispatch | src/videoEditor_mcp/routers/video_edits.py:131-136 | No status is given if and only if no clause's class matches the exception. |
| ExceptionMapping.DispatchIsFirstMatch | src/videoEditor_mcp/routers/video_edits.py:131-136 | The status given is that of the earliest matching clause. |
| ExceptionMapping.Guard | src/videoEditor_mcp/routers/video_edits.py:124-136 | A returned value is wrapped in the envelope. An exception becomes an HTTP error exactly when some clause catches it, with that clause's status and the exception's message. Any other exception propagates unchanged. |
| ExceptionMapping.CatchAllAnswersEverything | src/videoEditor_mcp/routers/video_edits.py:135-136 | A clause list ending in `except Exception` answers every exception. |
| ExceptionMapping.GuardThreeWay | src/videoEditor_mcp/routers/video_edits.py:124-136 | The three-clause block answers a return with the envelope, `FileNotFoundError` with 404, `ValueError` with 400 and anything else with 500, each carrying the message. |
| ExceptionMapping.GuardTwoWay | src/video_gen_service/routers/video_edits.py:11-21 | The two-clause block answers 404 for a missing file and 500 for everything else, `ValueError` included. |
| ExceptionMapping.GuardNoNotFound | src/video_gen_service/routers/video.py:17-28 | The generate block answers 400 for `ValueError` and 500 for everything else, `FileNotFoundError` included. |
| ExceptionMapping.AnswersAreFunctions | src/videoEditor_mcp/routers/video_edits.py:131-136 | Each table gives every outcome exactly one answer. |
| ExceptionMapping.TablesDifferOnlyWhereAClauseIsMissing | src/video_gen_service/routers/video_edits.py:18-21 | The three clause lists give the same status except where a clause is missing. |
| ExceptionMapping.MissingClausesNeverAnswer | src/video_gen_service/routers/video.py:25-28 | The 404/500 handlers never answer 400, and the generate handlers never answer 404. |
| Schemas.OmittedFieldsTakeDefaults | src/videoEditor_mcp/schemas.py:16-146 | Omitted fields take the declared defaults: `compose`, `stack`, `x`, `imageio`, duration 3.0, font size 50, `white`, `center`, opacity 1.0, saturation 1.4, black 0.006, thresholds 5.0 and 10.0, abscissa 0.5, margin colour black. |
| Schemas.ResponseDefaults | src/video_gen_service/schemas.py:101-104 | The editor envelope needs only a status. The generation envelope's output path is required and its details default to none. |
| EditorVideoEdits.OutputEnvelope | src/videoEditor_mcp/routers/video_edits.py:130 | Success carries status `success` and the adapter's path unchanged as `output_path`, with no data. |
| EditorVideoEdits.DataEnvelope | src/videoEditor_mcp/routers/video_edits.py:31 | Scene detection's spans go in `data` and `output_path` stays unset. |
| EditorVideoEdits.StatusOnlyEnvelope | src/videoEditor_mcp/routers/video_edits.py:116 | The undeclared `output=` keyword is dropped, so only the status is carried. |
| EditorVideoEdits.DetectScenesEndpoint | src/videoEditor_mcp/routers/video_edits.py:23-37 | Forwards `(video_path, luminosity_threshold)` and answers per the 404/400/500 table with the data envelope. |
| EditorVideoEdits.AccelDecelVideo | src/videoEditor_mcp/routers/video_edits.py:39-55 | Forwards `(video_path, new_duration, abscissa_fixed, output_path)`; 404/400/500. |
| EditorVideoEdits.BlinkVideo | src/videoEditor_mcp/routers/video_edits.py:57-73 | Forwards `(video_path, duration_on, duration_off, output_path)`; 404/400/500. |
| EditorVideoEdits.GammaCorrectionVideo | src/videoEditor_mcp/routers/video_edits.py:75-90 | Forwards `(video_path, gamma, output_path)`; 404/400/500. |
| EditorVideoEdits.PaintingVideo | src/videoEditor_mcp/routers/video_edits.py:92-108 | Forwards `(video_path, saturation, black, output_path)`; 404/400/500. |
| EditorVideoEdits.DetectHighlightsEndpoint | src/videoEditor_mcp/routers/video_edits.py:110-122 | Forwards `(video_path, threshold, output)`; 404/400/500; on success it reports the status only. |
| EditorVideoEdits.HighlightResultIsDropped | src/videoEditor_mcp/routers/video_edits.py:116 | Any two detection results give the same response. |
| EditorVideoEdits.DetectHighlightsReported | src/videoEditor_mcp/routers/video_edits.py:110-122 | With the spans placed in `data`, the 404/400/500 table holds with the data envelope. |
| EditorVideoEdits.ReportedHighlightsKeepResult | src/videoEditor_mcp/routers/video_edits.py:110-122 | With the spans in `data`, two responses are equal if and only if the spans are equal. |
| EditorVideoEdits.CutVideo | src/videoEditor_mcp/routers/video_edits.py:124-136 | Forwards `(video_path, start_time, end_time, output_path)`; 404/400/500. |
| EditorVideoEdits.ConcatenateVideos | src/videoEditor_mcp/routers/video_edits.py:138-150 | Forwards `(video_paths, method, output_path)`; 404/400/500. |
| EditorVideoEdits.ResizeVideo | src/videoEditor_mcp/routers/video_edits.py:152-164 | Forwards `(video_path, width, height, scale, output_path)`; 404/400/500. |
| EditorVideoEdits.SpeedVideo | src/videoEditor_mcp/routers/video_edits.py:166-178 | Forwards `(video_path, factor, output_path)`; 404/400/500. |
| EditorVideoEdits.ColorEffectVideo | src/videoEditor_mcp/routers/video_edits.py:180-196 | Forwards `(video_path, effect_type, factor, output_path)`; 404/400/500. |
| EditorVideoEdits.MirrorVideo | src/videoEditor_mcp/routers/video_edits.py:198-210 | Forwards `(video_path, axis, output_path)`; 404/400/500. |
| EditorVideoEdits.RotateVideo | src/videoEditor_mcp/routers/video_edits.py:212-224 | Forwards `(video_path, angle, output_path)`; 404/400/500. |
| EditorVideoEdits.CropVideo | src/videoEditor_mcp/routers/video_edits.py:226-238 | Forwards `(video_path, x1, y1, x2, y2, width, height, output_path)`; 404/400/500. |
| EditorVideoEdits.MarginVideo | src/videoEditor_mcp/routers/video_edits.py:240-252 | Forwards `(video_path, margin, color, opacity, output_path)`; 404/400/500. |
| EditorVideoEdits.FadeVideo | src/videoEditor_mcp/routers/video_edits.py:254-270 | Forwards `(video_path, fade_type, duration, output_path)`; 404/400/500. |
| EditorVideoEdits.LoopVideo | src/videoEditor_mcp/routers/video_edits.py:272-284 | Forwards `(video_path, n, duration, output_path)`; 404/400/500. |
| EditorVideoEdits.TimeEffectVideo | src/videoEditor_mcp/routers/video_edits.py:286-302 | Forwards `(video_path, effect_type, duration, output_path)`; 404/400/500. |
| EditorVideoEdits.SuccessEnvelopes | src/videoEditor_mcp/routers/video_edits.py:23-31 | A successful cut reports the adapter's path, scene detection reports its spans in `data`, and highlight detection reports neither. |
| EditorVideo.SaveFrame | src/videoEditor_mcp/routers/video.py:11-23 | Forwards `(video_path, t, output_image_path)`, not `output_path`; 404/400/500. |
| EditorVideo.WriteGif | src/videoEditor_mcp/routers/video.py:25-37 | Forwards `(video_path, fps, program, output_path)`; 404/400/500. |
| EditorVideo.SafeFileName | src/videoEditor_mcp/routers/video.py:43 | The file name is the safe directory, then `/video_`, then the UUID, then `.mp4`. |
| EditorVideo.SafeFileNameInjective | src/videoEditor_mcp/routers/video.py:43 | Two requests share a file if and only if they share the UUID. |
| EditorVideo.GeneratedFileIsInSafeDir | src/videoEditor_mcp/routers/video.py:43 | A UUID without `'/'` puts the file directly in the safe directory, named `video_<uuid>.mp4`. |
| EditorVideo.FileEnvelope | src/videoEditor_mcp/routers/video.py:46 | Success carries status `success` and `abspath` of the generator's result. |
| EditorVideo.GenerateVideoEndpoint | src/videoEditor_mcp/routers/video.py:39-50 | Generates into the safe file name; 400 for `ValueError` and 500 for everything else, `FileNotFoundError` included. |
| GenVideoEdits.OutputEnvelope | src/video_gen_service/routers/video_edits.py:17 | Success carries status `success` and the adapter's path as the required `output_path`. |
| GenVideoEdits.CutVideo | src/video_gen_service/routers/video_edits.py:11-21 | Forwards `(video_path, start_time, end_time, output_path)`; 404, otherwise 500 with no 400. |
| GenVideoEdits.ConcatenateVideos | src/video_gen_service/routers/video_edits.py:23-35 | Forwards `(video_paths, method, output_path)`; 404/400/500. |
| GenVideoEdits.ResizeVideo | src/video_gen_service/routers/video_edits.py:37-49 | Forwards `(video_path, width, height, scale, output_path)`; 404/400/500. |
| GenVideoEdits.SpeedVideo | src/video_gen_service/routers/video_edits.py:51-61 | Forwards `(video_path, factor, output_path)`; 404, otherwise 500 with no 400. |
| GenVideoEdits.ColorEffectVideo | src/video_gen_service/routers/video_edits.py:63-75 | Forwards `(video_path, effect_type, factor, output_path)`; 404/400/500. |
| GenAudio.AdjustVolume | src/video_gen_service/routers/audio.py:8-18 | Forwards `(video_path, factor, output_path)`; 404, otherwise 500. |
| GenAudio.ExtractAudio | src/video_gen_service/routers/audio.py:20-32 | Forwards `(video_path, output_audio_path)`; 404/400/500. |
| GenAudio.ExtractIgnoresOutputPath | src/video_gen_service/routers/audio.py:23-25 | The request's `output_path` has no influence on the answer. |
| GenCompositing.CompositeVideos | src/video_gen_service/routers/compositing.py:9-21 | Forwards `(video_paths, method, size, output_path)`; 404/400/500. |
| GenCompositing.TextOverlay | src/video_gen_service/routers/compositing.py:23-34 | Forwards `(video_path, text, fontsize, color, position, duration, start_time, output_path)`; 404, otherwise 500. |
| GenCompositing.ImageOverlay | src/video_gen_service/routers/compositing.py:36-48 | Forwards `(video_path, image_path, position, scale, opacity, duration, start_time, output_path)`; 404, otherwise 500. |
| GenVideo.GeneratedFileName | src/video_gen_service/routers/video.py:21 | The name is `video_`, then the UUID, then `.mp4`, with no directory. |
| GenVideo.GeneratedFileNameShape | src/video_gen_service/routers/video.py:21 | The name holds no `'/'` when the UUID holds none, and different UUIDs give different names. |
| GenVideo.FileEnvelope | src/video_gen_service/routers/video.py:13-15 | The handler's own response model: status `success` and `abspath` of the generator's result. |
| GenVideo.GenerateVideoEndpoint | src/video_gen_service/routers/video.py:9-28 | Generates into that name; 400 for `ValueError` and 500 for everything else, with no 404. |
| FrontendApi.BackendBaseUrl | frontend/src/lib/api.ts:3 | The backend URL is never empty. It is the configured URL when that is non-empty, and `http://localhost:8000` otherwise. |
| FrontendApi.ChatBaseUrl | frontend/src/lib/api.ts:25 | The base is `api_base` when that is non-empty, and `https://api.openai.com/v1` otherwise. |
| FrontendApi.WithoutTrailingSlash | frontend/src/lib/api.ts:28-30 | The URL is unchanged, or loses one final `'/'`; it loses one exactly when it ends in `'/'`. |
| FrontendApi.ChatBase | frontend/src/lib/api.ts:25-30 | The base is `https://api.openai.com/v1` when `api_base` is missing or empty. Otherwise it is `api_base`, or `api_base` without its one final `'/'`. |
| FrontendApi.WithoutTrailingSlashRemovesOne | frontend/src/lib/api.ts:28-30 | Exactly one slash goes: a URL ending in `//` keeps one, and a URL not ending in `/` is unchanged. |
| FrontendApi.RequestHeaders | frontend/src/lib/api.ts:32-38 | `Content-Type: application/json` is always present. `Authorization` is present, as `"Bearer " + key`, if and only if the key is non-empty. There are no other headers. |
| FrontendApi.Temperature | frontend/src/lib/api.ts:46 | The temperature sent is never 0. It is the request's when that is given and non-zero, and 0.7 otherwise. |
| FrontendApi.TemperatureIdempotent | frontend/src/lib/api.ts:46 | Applying the default twice changes nothing. |
| FrontendApi.FindContent | frontend/src/lib/api.ts:57 | `find` yields nothing if and only if no message has the role. |
| FrontendApi.FindContentIsFirst | frontend/src/lib/api.ts:57 | The system prompt comes from the earliest system message. |
| FrontendApi.Filter | frontend/src/lib/api.ts:58 | Every message kept has the role, and the result is no longer than the input. |
| FrontendApi.FilterMembers | frontend/src/lib/api.ts:58 | A message is kept if and only if it occurs in the input and has the role. |
| FrontendApi.FilterCounts | frontend/src/lib/api.ts:58 | Each message with the role is kept as often as it occurs; others never. |
| FrontendApi.FilterAppend | frontend/src/lib/api.ts:58 | Filtering a concatenation is the concatenation of the filtered parts, so kept messages stay in input order. |
| FrontendApi.PopOfFilterIsLast | frontend/src/lib/api.ts:58 | Filter-then-pop yields nothing if and only if there is no user message. Otherwise it yields the content of a user message with no later user message. |
| FrontendApi.SystemPrompt | frontend/src/lib/api.ts:57 | The fallback's prompt is the content of the first system message, or `''` when there is none. |
| FrontendApi.LastUserInput | frontend/src/lib/api.ts:58 | The fallback's input is the content of the last user message (as filtered and popped), or `''` when there is none. |
| FrontendApi.PrimaryError | frontend/src/lib/api.ts:43-53 | The primary error is the HTTP status error exactly when the primary request got an error status. |
| FrontendApi.PrimaryPost | frontend/src/lib/api.ts:43-47 | The first request goes to `<base>/chat/completions` with the request's model and its messages unchanged, a temperature that is never 0 (the request's own when it is non-zero), and the key's headers. |
| FrontendApi.FallbackPost | frontend/src/lib/api.ts:57-64 | The fallback goes to `<base>/responses` with the same headers and model, carrying only the first system message and the last user message, each `''` when absent. |
| FrontendApi.FallbackContent | frontend/src/lib/api.ts:67 | A non-empty `content` wins. Any answer other than `response` is non-empty. |
| FrontendApi.FallbackContentOrder | frontend/src/lib/api.ts:67 | The answer is the first non-empty one of `content`, first choice and `text`; failing all three it is `response`, as is. |
| FrontendApi.ChatCompletion | frontend/src/lib/api.ts:23-79 | The primary request goes to `<base>/chat/completions` with the request's messages, the defaulted temperature and the headers, and its first choice is the answer. Otherwise the fallback goes to `<base>/responses` and its reply is the answer. If the fallback fails too, a 401 from it is rethrown, and otherwise the primary error is rethrown. |
| FrontendApi.ListTools | frontend/src/lib/api.ts:81-97 | Thirteen tools, each of them a key of the endpoint table. |
| FrontendApi.EveryMappedNameIsListed | frontend/src/lib/api.ts:100-114 | Every key of the endpoint table is offered by `listTools`. |
| FrontendApi.ListedNamesAreDistinct | frontend/src/lib/api.ts:82-96 | No tool name is offered twice. |
| FrontendApi.EndpointsAreTruthy | frontend/src/lib/api.ts:100-117 | Every endpoint is a non-empty path starting with `'/'`, so a mapped name passes the `!endpoint` test. |
| FrontendApi.RecordLookup | frontend/src/lib/api.ts:116 | An own key gives its endpoint. A name that is neither a key nor an `Object.prototype` member gives `undefined`. |
| FrontendApi.InheritedNameSkipsUnknownToolCheck | frontend/src/lib/api.ts:116-119 | `toString` is not a tool, yet the code as written posts to the inherited function instead of throwing `Unknown tool`. |
| FrontendApi.CallToolAsWritten | frontend/src/lib/api.ts:116-120 | A tool name posts to its endpoint, and a name that is neither a tool nor an inherited member throws `Unknown tool: <name>`; it throws only for names that are not tools. |
| FrontendApi.CallTool | frontend/src/lib/api.ts:99-120 | Lookup by own key: a known name posts to its endpoint, and any other name throws `Unknown tool: <name>` without a request. |
| FrontendApi.CallToolAgreesOffPrototype | frontend/src/lib/api.ts:116-119 | For every name that is not an inherited member, the code as written and the own-key lookup agree. |
| ErrorFlow.AsOutcome | tests/test_error_handling.py:71-170 | A missing path raises `FileNotFoundError`, a rejected argument `ValueError` with its message, and an engine failure any other exception. A written path is returned. |
| ErrorFlow.ThreeWayStatusNamesFailure | src/videoEditor_mcp/routers/video_edits.py:152-164 | Under a 404/400/500 handler the status names the failure exactly: 404 a missing path, 400 a rejected argument, 500 an engine failure. Nothing escapes unhandled. |
| ErrorFlow.TwoWayStatusNamesFailure | src/video_gen_service/routers/video_edits.py:11-21 | Under a 404/500 handler a missing path is 404 and every other failure is 500; 400 never occurs. |
| ErrorFlow.ThreeWayStatusFromDisk | src/videoEditor_mcp/routers/video_edits.py:152-164 | End to end: 404 exactly when an input is missing, 400 exactly when inputs exist and an argument is rejected, 500 exactly when only the engine fails, success otherwise. |
| ErrorFlow.TwoWayStatusFromDisk | src/video_gen_service/routers/video_edits.py:11-21 | End to end: 404 exactly when an input is missing, 500 for any other failure. |
| ErrorFlow.ResizeWithoutSizeIsBadRequest | src/video_gen_service/routers/video_edits.py:37-49 | A resize without width, height or scale is `400 Must provide scale, width, or height` in both services' handlers. |
| ErrorFlow.CutOfMissingVideoIsNotFound | src/video_gen_service/routers/video_edits.py:11-21 | A cut of a missing video is a 404 with the `FileNotFoundError` text in both services' handlers. |
| ErrorFlow.GenCutNeverBadRequest | src/video_gen_service/routers/video_edits.py:18-21 | The generation service's cut never answers 400. It answers 404 exactly for a missing video, and success exactly when the video exists and the engine works. |
| ErrorFlow.MissingImageIsNotFound | src/video_gen_service/routers/compositing.py:36-48 | An image overlay with the video present and the image missing is a 404 about the image. |
| ErrorFlow.SilentExtractIsBadRequest | src/video_gen_service/routers/audio.py:20-32 | Extracting audio from a silent video is `400 Video has no audio`. |
| ErrorFlow.ExtractAnswersMp3Path | src/video_gen_service/routers/audio.py:20-26 | Extraction without `output_audio_path` answers success with the derived `.mp3` path next to the video. |
| ErrorFlow.CompositeRejections | src/video_gen_service/routers/compositing.py:9-21 | An empty list is `400 No video paths provided`, an unknown method is `400 Invalid method: <m>`, and a missing clip is 404. |

## Left out

- Media work is not modelled: PIL text images, moviepy clips, encoding and temporary files (`create_text_image`, `generate_simple_video`). `process_*` bodies are modelled only through their checks. The engine's own failure is a parameter.
- The adapter implementations (`process_*`, `get_unique_output_path`) are not part of this model. Their checks, messages and naming rule follow the assertions in `tests/test_video_utils.py` and `tests/test_error_handling.py`. Behaviour the tests do not pin is an assumption, listed below member by member.
- OutputNaming.NameExtension: splitting at the last `'.'` of the file name, as `os.path.splitext` does, is assumed; the tests use only single-extension names.
- OutputNaming.ChosenExtension: an explicit `ext` is appended as given; the tests pass it only with its leading dot.
- Adapters.VolumeNeverInvalid: no test pins any argument behaviour of `process_volume_video`, only `FileNotFoundError` for a missing path; that it has no argument check at all (any factor, a silent video) is assumed.
- Adapters.AcceptedValues: the accepted sets (colour effects, axes, fade types, time effects, composite methods) are taken from the request fields' descriptions in both schema files; the tests pin only one rejected value per check, so that exactly these values are accepted is assumed.
- Adapters.ArgumentsValid: cut, speed, volume, text overlay, image overlay, rotate, crop, margin and loop are assumed to have no argument check (a loop with neither `n` nor `duration` is accepted); the tests pin only `FileNotFoundError` for them. ErrorFlow.ThreeWayStatusFromDisk's "400 exactly when an argument is rejected" inherits this assumption for the editor's cut, rotate, crop, margin and loop handlers.
- ErrorFlow.AsOutcome: an engine failure becomes an exception that is neither `ValueError` nor `FileNotFoundError`. In the service an exception raised inside moviepy keeps its class, so a `ValueError` from the engine would get 400 and a `FileNotFoundError` 404; the model does not capture that.
- ErrorFlow.ThreeWayStatusFromDisk: "400 exactly when an argument is rejected" and "500 exactly when the engine fails" rely on the engine failure above being neither `ValueError` nor `FileNotFoundError`.
- ErrorFlow.TwoWayStatusFromDisk: "404 exactly when an input is missing" relies on the engine failure above not being a `FileNotFoundError`.
- Adapters.Run: checks `os.path.exists` on a map of existing paths. Only the arguments that some check reads are modelled; times, factors, sizes and colours are left out.
- Adapters.ArgumentError: pytest's `match=` searches for the text, so the real message may carry more text than the model's exact message.
- Adapters.ArgumentError: the check order is not pinned where two checks can both fail. The model checks audio before fade type for audio fade, and the empty list before the method for composite.
- Adapters.InvalidMethodMessage: no test pins the composite method message, and the model uses `Invalid method: <m>`.
- Adapters.ArgumentsValid: a resize with a width, height or scale of zero counts as given, because only omission is pinned.
- Adapters.Run: the suffix each adapter passes to the naming rule is a parameter, and a derived path is named after the first input.
- OutputNaming.Directory: `os.path` normalisation (repeated slashes, names starting with a dot) is not modelled. The directory is everything through the last `'/'` and the extension starts at the last `'.'` of the file name.
- EditorVideo.SafeFileName: joining `SAFE_DIR` is modelled as adding a `'/'` to a directory given without one.
- VideoTool.SafeText: `isalnum` is modelled on ASCII letters and digits only, and `strip()` on ASCII whitespace.
- The UUID, `os.path.abspath` and the generator are parameters. Nothing is random.
- Concurrency (`run_in_threadpool`, `asyncio.to_thread`) is not modelled: handlers are synchronous calls.
- Pydantic validation and coercion are not modelled (type checks, list to tuple, int to float, the error raised when a required envelope field is missing). Requests are assumed to be well typed.
- The chat request and response schemas are declared but not used by any modelled handler.
- Network I/O is not modelled: each `axios.post` is a function from the request to a reply, an error status or no response.
- FrontendApi.ChatCompletion: the `console.error` logging of the primary failure is not modelled, a reply body that is not an object is not modelled, and `temperature` is treated as falsy only when missing or zero (NaN is not modelled).
- Logging (`console.error`) has no effect on any result and is not modelled.
- The generation service's app (`src/video_gen_service/main.py:6`) mounts only the video router, so its edits, audio and compositing handlers are modelled as handler functions that no request reaches; the lemmas about "both services' handlers" speak of those functions, not of routes.
- UI components, app wiring, CORS and the MCP pass-through tools of the editor service are not modelled.

## Findings

| source | as written | input that shows it | evidently intended | confidence | as-written member | corrected member |
|---|---|---|---|---|---|---|
| frontend/src/lib/api.ts:116-117 | `mapping[toolName]` on an object literal also finds inherited `Object.prototype` members, which are truthy | `callTool("toString", args)` posts to a function value instead of throwing `Unknown tool: toString` | only the 13 own keys are tools, and any other name throws `Unknown tool: <name>` | not executed | FrontendApi.InheritedNameSkipsUnknownToolCheck | FrontendApi.CallTool |
| src/videoEditor_mcp/routers/video_edits.py:116 | the detected highlights are passed as `output=`, a keyword the response model does not declare, so they are dropped | any detection: two different results give the same `{"status": "success"}` response | report the detected spans in `data`, as detect-scenes does at line 31 | not executed | EditorVideoEdits.HighlightResultIsDropped | EditorVideoEdits.ReportedHighlightsKeepResult |
