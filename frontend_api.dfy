/**
 * The front end's request helpers: `chatCompletion` (base URL, headers,
 * primary request, fallback request and the choice of error to rethrow),
 * `listTools` and `callTool`. Network calls are a parameter that maps a
 * request to its outcome.
 */
module FrontendApi {
  import opened Wrappers

  const DefaultChatBaseUrl := "https://api.openai.com/v1"
  const DefaultBackendUrl := "http://localhost:8000"
  const DefaultTemperature: real := 0.7
  const ChatPath := "/chat/completions"
  const ResponsesPath := "/responses"
  const ContentTypeHeader := "Content-Type"
  const AuthorizationHeader := "Authorization"
  const JsonContentType := "application/json"
  const UnauthorizedStatus := 401

  /** JavaScript truthiness of an optional string: `undefined` and `''` are falsy. */
  predicate Truthy(s: Option<string>) {
    s.Some? && s.value != ""
  }

  /** `a || b` on optional strings. */
  function Or(a: Option<string>, b: Option<string>): (r: Option<string>)
    ensures Truthy(a) ==> r == a
    ensures !Truthy(a) ==> r == b
  {
    if Truthy(a) then a else b
  }

  /** `process.env.NEXT_PUBLIC_API_URL || 'http://localhost:8000'` */
  function BackendBaseUrl(env: Option<string>): (r: string)
    ensures r != ""
    ensures Truthy(env) ==> r == env.value
    ensures r == DefaultBackendUrl || (env.Some? && r == env.value)
  {
    Or(env, Some(DefaultBackendUrl)).value
  }

  /** `request.api_base || 'https://api.openai.com/v1'` */
  function ChatBaseUrl(apiBase: Option<string>): (r: string)
    ensures r != ""
    ensures Truthy(apiBase) ==> r == apiBase.value
    ensures r == DefaultChatBaseUrl || (apiBase.Some? && r == apiBase.value)
  {
    Or(apiBase, Some(DefaultChatBaseUrl)).value
  }

  /** `if (url.endsWith('/')) url = url.slice(0, -1)` */
  function WithoutTrailingSlash(url: string): (r: string)
    ensures r == url || r + "/" == url
    ensures r + "/" == url <==> |url| > 0 && url[|url| - 1] == '/'
  {
    if |url| > 0 && url[|url| - 1] == '/' then url[..|url| - 1] else url
  }

  /** Only one slash goes: a URL ending in two keeps one, and a URL without one is unchanged. */
  lemma WithoutTrailingSlashRemovesOne(url: string)
    ensures |url| >= 2 && url[|url| - 2..] == "//" ==>
              (WithoutTrailingSlash(url) == url[..|url| - 1] && WithoutTrailingSlash(url)[|url| - 2] == '/')
    ensures WithoutTrailingSlash(url + "/") == url
    ensures (|url| == 0 || url[|url| - 1] != '/') ==> WithoutTrailingSlash(url) == url
  {
    assert (url + "/")[..|url|] == url;
  }

  /**
   * The base every chat request is sent to: the configured base, or the
   * default one, with at most one trailing slash dropped.
   */
  function ChatBase(apiBase: Option<string>): (r: string)
    ensures r == ChatBaseUrl(apiBase) || r + "/" == ChatBaseUrl(apiBase)
    ensures !Truthy(apiBase) ==> r == DefaultChatBaseUrl
    ensures Truthy(apiBase) ==> r == apiBase.value || r + "/" == apiBase.value
  {
    WithoutTrailingSlash(ChatBaseUrl(apiBase))
  }

  type Headers = map<string, string>

  /**
   * The headers built from the API key: JSON content type always;
   * `Authorization: Bearer <key>` exactly when the key is non-empty; no
   * other header.
   */
  function RequestHeaders(apiKey: Option<string>): (h: Headers)
    ensures ContentTypeHeader in h && h[ContentTypeHeader] == JsonContentType
    ensures AuthorizationHeader in h <==> Truthy(apiKey)
    ensures AuthorizationHeader in h ==> h[AuthorizationHeader] == "Bearer " + apiKey.value
    ensures h.Keys <= {ContentTypeHeader, AuthorizationHeader}
  {
    var headers := map[ContentTypeHeader := JsonContentType];
    if Truthy(apiKey) then headers[AuthorizationHeader := "Bearer " + apiKey.value] else headers
  }

  /** `request.temperature || 0.7`: a missing or zero temperature becomes 0.7. */
  function Temperature(t: Option<real>): (r: real)
    ensures r != 0.0
    ensures t.Some? && t.value != 0.0 ==> r == t.value
    ensures r == DefaultTemperature || (t.Some? && r == t.value)
  {
    if t.Some? && t.value != 0.0 then t.value else DefaultTemperature
  }

  /** Applying the default twice changes nothing. */
  lemma TemperatureIdempotent(t: Option<real>)
    ensures Temperature(Some(Temperature(t))) == Temperature(t)
  {
  }

  datatype Role = User | Assistant | System

  datatype ChatMessage = ChatMessage(role: Role, content: string)

  datatype ChatRequest = ChatRequest(messages: seq<ChatMessage>, model: string, apiBase: Option<string>,
                                     apiKey: Option<string>, temperature: Option<real>)

  /** `messages.find(m => m.role === role)?.content` */
  function FindContent(messages: seq<ChatMessage>, role: Role): (r: Option<string>)
    ensures r.None? <==> forall i :: 0 <= i < |messages| ==> messages[i].role != role
  {
    if messages == [] then None
    else if messages[0].role == role then Some(messages[0].content)
    else FindContent(messages[1..], role)
  }

  /** `find` returns the earliest message with the role. */
  lemma {:induction false} FindContentIsFirst(messages: seq<ChatMessage>, role: Role)
    requires FindContent(messages, role).Some?
    ensures exists i :: 0 <= i < |messages| && messages[i].role == role
                        && messages[i].content == FindContent(messages, role).value
                        && forall j :: 0 <= j < i ==> messages[j].role != role
  {
    if messages[0].role != role {
      FindContentIsFirst(messages[1..], role);
      var i :| 0 <= i < |messages[1..]| && messages[1..][i].role == role
                 && messages[1..][i].content == FindContent(messages[1..], role).value
                 && forall j :: 0 <= j < i ==> messages[1..][j].role != role;
      assert messages[i + 1] == messages[1..][i];
      assert forall j :: 0 <= j < i + 1 ==> messages[j].role != role by {
        forall j | 0 <= j < i + 1 ensures messages[j].role != role {
          if j > 0 { assert messages[j] == messages[1..][j - 1]; }
        }
      }
    }
  }

  /**
   * `messages.filter(m => m.role === role)`. What it keeps is stated by
   * FilterMembers, FilterCounts and FilterAppend below.
   */
  function Filter(messages: seq<ChatMessage>, role: Role): (r: seq<ChatMessage>)
    ensures |r| <= |messages|
    ensures forall i :: 0 <= i < |r| ==> r[i].role == role
  {
    if messages == [] then []
    else Filter(messages[..|messages| - 1], role)
         + (if messages[|messages| - 1].role == role then [messages[|messages| - 1]] else [])
  }

  /** A message is kept if and only if it is one of the input's messages and has the role. */
  lemma FilterMembers(messages: seq<ChatMessage>, role: Role, m: ChatMessage)
    ensures m in Filter(messages, role) <==> m in messages && m.role == role
  {
    FilterCounts(messages, role, m);
    assert m in Filter(messages, role) <==> multiset(Filter(messages, role))[m] > 0;
    assert m in messages <==> multiset(messages)[m] > 0;
  }

  /** Filtering a concatenation filters each part in place, so the kept messages keep their order. */
  lemma {:induction false} FilterAppend(a: seq<ChatMessage>, b: seq<ChatMessage>, role: Role)
    ensures Filter(a + b, role) == Filter(a, role) + Filter(b, role)
  {
    if b == [] {
      assert a + b == a;
    } else {
      var init, last := b[..|b| - 1], b[|b| - 1];
      assert (a + b)[..|a + b| - 1] == a + init && (a + b)[|a + b| - 1] == last;
      FilterAppend(a, init, role);
    }
  }

  /** Each message is kept exactly as many times as it occurs with the role. */
  lemma {:induction false} FilterCounts(messages: seq<ChatMessage>, role: Role, m: ChatMessage)
    ensures multiset(Filter(messages, role))[m] == if m.role == role then multiset(messages)[m] else 0
  {
    if messages != [] {
      var init := messages[..|messages| - 1];
      FilterCounts(init, role, m);
      assert messages == init + [messages[|messages| - 1]];
    }
  }

  /** `.pop()?.content`: the last element of the filtered list, if any. */
  function PopContent(filtered: seq<ChatMessage>): Option<string> {
    if filtered == [] then None else Some(filtered[|filtered| - 1].content)
  }

  /** Message `i` has the role and no later message has it. */
  predicate IsLatest(messages: seq<ChatMessage>, role: Role, i: int) {
    0 <= i < |messages| && messages[i].role == role
    && forall j :: i < j < |messages| ==> messages[j].role != role
  }

  /** Appending a message of another role keeps the latest message with the role. */
  lemma LatestSurvivesOtherRole(messages: seq<ChatMessage>, role: Role, i: int)
    requires messages != [] && messages[|messages| - 1].role != role
    requires IsLatest(messages[..|messages| - 1], role, i)
    ensures IsLatest(messages, role, i)
  {
    var init := messages[..|messages| - 1];
    forall j | i < j < |messages| ensures messages[j].role != role {
      if j < |init| { assert messages[j] == init[j]; }
    }
  }

  /** Filtering then popping yields the latest message with the role: no later message has it. */
  lemma {:induction false} PopOfFilterIsLast(messages: seq<ChatMessage>, role: Role)
    ensures PopContent(Filter(messages, role)).None? <==> forall i :: 0 <= i < |messages| ==> messages[i].role != role
    ensures PopContent(Filter(messages, role)).Some? ==>
              exists i :: IsLatest(messages, role, i) && messages[i].content == PopContent(Filter(messages, role)).value
  {
    if messages != [] {
      var init, last := messages[..|messages| - 1], messages[|messages| - 1];
      PopOfFilterIsLast(init, role);
      if last.role != role {
        assert Filter(messages, role) == Filter(init, role);
        assert (forall i :: 0 <= i < |messages| ==> messages[i].role != role)
               <==> (forall i :: 0 <= i < |init| ==> init[i].role != role) by {
          assert forall i :: 0 <= i < |init| ==> init[i] == messages[i];
        }
        if PopContent(Filter(init, role)).Some? {
          var i :| IsLatest(init, role, i) && init[i].content == PopContent(Filter(init, role)).value;
          LatestSurvivesOtherRole(messages, role, i);
          assert messages[i] == init[i];
        }
      } else {
        var k := |messages| - 1;
        assert PopContent(Filter(messages, role)) == Some(last.content);
        assert IsLatest(messages, role, k) && messages[k].content == last.content;
      }
    }
  }

  /**
   * `request.messages.find(m => m.role === 'system')?.content || ''`: the
   * content of the first system message, or `''` when there is none.
   */
  function SystemPrompt(messages: seq<ChatMessage>): (r: string)
    ensures r == FindContent(messages, System).GetOr("")
  {
    Or(FindContent(messages, System), Some("")).value
  }

  /**
   * `request.messages.filter(m => m.role === 'user').pop()?.content || ''`:
   * the content of the last user message, or `''` when there is none.
   */
  function LastUserInput(messages: seq<ChatMessage>): (r: string)
    ensures r == PopContent(Filter(messages, User)).GetOr("")
  {
    Or(PopContent(Filter(messages, User)), Some("")).value
  }

  /** The bodies of the two requests. */
  datatype Payload =
    | ChatPayload(model: string, messages: seq<ChatMessage>, temperature: real)
    | ResponsesPayload(model: string, systemPrompt: string, input: string)

  /** One `axios.post(url, payload, { headers })`. */
  datatype Post = Post(url: string, payload: Payload, headers: Headers)

  /**
   * The reply body's fields the code reads; `None` is `undefined`.
   * `firstChoice` is `None` when `choices[0].message` does not exist, and
   * otherwise holds that message's `content`.
   */
  datatype ReplyData = ReplyData(content: Option<string>, firstChoice: Option<Option<string>>,
                                 text: Option<string>, response: Option<string>, model: Option<string>)

  /** What a request does: a reply, an error response with its status, or no response at all. */
  datatype NetOutcome = Replied(data: ReplyData) | StatusError(status: int) | NoResponse

  /** The error `chatCompletion` rethrows. */
  datatype ChatError =
    | HttpFailure(status: int)
    | NetworkFailure
    | MalformedReply

  datatype ChatResult = Answer(content: Option<string>, model: Option<string>) | Thrown(error: ChatError)

  /**
   * The request tried first: the chat-completions path under the chat base,
   * the conversation forwarded unchanged, and a temperature that is never 0.
   */
  function PrimaryPost(request: ChatRequest): (r: Post)
    ensures r.url == ChatBase(request.apiBase) + ChatPath
    ensures r.payload.ChatPayload? && r.payload.model == request.model && r.payload.messages == request.messages
    ensures r.payload.temperature != 0.0
    ensures request.temperature.Some? && request.temperature.value != 0.0 ==> r.payload.temperature == request.temperature.value
    ensures r.headers == RequestHeaders(request.apiKey)
  {
    Post(ChatBase(request.apiBase) + ChatPath,
         ChatPayload(request.model, request.messages, Temperature(request.temperature)),
         RequestHeaders(request.apiKey))
  }

  /**
   * The request tried when the first one throws: the responses path under
   * the same base, the same headers, and only the first system message and
   * the last user message (each `''` when absent) instead of the conversation.
   */
  function FallbackPost(request: ChatRequest): (r: Post)
    ensures r.url == ChatBase(request.apiBase) + ResponsesPath
    ensures r.headers == PrimaryPost(request).headers
    ensures r.payload.ResponsesPayload? && r.payload.model == request.model
    ensures r.payload.systemPrompt == FindContent(request.messages, System).GetOr("")
    ensures r.payload.input == PopContent(Filter(request.messages, User)).GetOr("")
  {
    Post(ChatBase(request.apiBase) + ResponsesPath,
         ResponsesPayload(request.model, SystemPrompt(request.messages), LastUserInput(request.messages)),
         RequestHeaders(request.apiKey))
  }

  /** The primary request succeeds when it is answered and `choices[0].message` exists. */
  predicate PrimaryAnswered(p: NetOutcome) {
    p.Replied? && p.data.firstChoice.Some?
  }

  /** The error the primary attempt threw: its HTTP error, or the `TypeError` of a reply without a first choice. */
  function PrimaryError(p: NetOutcome): (r: ChatError)
    requires !PrimaryAnswered(p)
    ensures p.StatusError? ==> r == HttpFailure(p.status)
    ensures r.HttpFailure? ==> p.StatusError?
  {
    match p
    case StatusError(status) => HttpFailure(status)
    case NoResponse => NetworkFailure
    case Replied(_) => MalformedReply
  }

  /** `data.content || data.choices?.[0]?.message?.content || data.text || data.response` */
  function FallbackContent(data: ReplyData): (r: Option<string>)
    ensures Truthy(data.content) ==> r == data.content
    ensures r != data.response ==> Truthy(r)
  {
    var choice := if data.firstChoice.Some? then data.firstChoice.value else None;
    Or(data.content, Or(choice, Or(data.text, data.response)))
  }

  /**
   * The fallback answer is the first truthy candidate in the order content,
   * first choice, text; only when none is truthy is `response` returned as is.
   */
  lemma FallbackContentOrder(data: ReplyData)
    ensures var choice := if data.firstChoice.Some? then data.firstChoice.value else None;
      && (Truthy(data.content) ==> FallbackContent(data) == data.content)
      && (!Truthy(data.content) && Truthy(choice) ==> FallbackContent(data) == choice)
      && (!Truthy(data.content) && !Truthy(choice) && Truthy(data.text) ==> FallbackContent(data) == data.text)
      && (!Truthy(data.content) && !Truthy(choice) && !Truthy(data.text) ==> FallbackContent(data) == data.response)
  {
  }

  /**
   * `chatCompletion(request)`. The primary request goes to `/chat/completions`;
   * if it throws, the fallback goes to `/responses`. When the fallback throws
   * too, its error is rethrown only if its status is 401, and otherwise the
   * primary error is.
   */
  method ChatCompletion(request: ChatRequest, send: Post -> NetOutcome) returns (r: ChatResult)
    ensures PrimaryAnswered(send(PrimaryPost(request))) ==>
              var data := send(PrimaryPost(request)).data;
              r == Answer(data.firstChoice.value, data.model)
    ensures !PrimaryAnswered(send(PrimaryPost(request))) && send(FallbackPost(request)).Replied? ==>
              var data := send(FallbackPost(request)).data;
              r == Answer(FallbackContent(data), data.model)
    ensures !PrimaryAnswered(send(PrimaryPost(request))) && send(FallbackPost(request)) == StatusError(UnauthorizedStatus) ==>
              r == Thrown(HttpFailure(UnauthorizedStatus))
    ensures !PrimaryAnswered(send(PrimaryPost(request))) && !send(FallbackPost(request)).Replied?
            && send(FallbackPost(request)) != StatusError(UnauthorizedStatus) ==>
              r == Thrown(PrimaryError(send(PrimaryPost(request))))
  {
    var baseUrl := if Truthy(request.apiBase) then request.apiBase.value else DefaultChatBaseUrl;
    if |baseUrl| > 0 && baseUrl[|baseUrl| - 1] == '/' {
      baseUrl := baseUrl[..|baseUrl| - 1];
    }
    assert baseUrl == ChatBase(request.apiBase);

    var headers: Headers := map[ContentTypeHeader := JsonContentType];
    if Truthy(request.apiKey) {
      headers := headers[AuthorizationHeader := "Bearer " + request.apiKey.value];
    }

    var temperature := if request.temperature.Some? && request.temperature.value != 0.0
                       then request.temperature.value else DefaultTemperature;
    var primary := send(Post(baseUrl + ChatPath, ChatPayload(request.model, request.messages, temperature), headers));
    if primary.Replied? && primary.data.firstChoice.Some? {
      return Answer(primary.data.firstChoice.value, primary.data.model);
    }
    var error := match primary
      case StatusError(status) => HttpFailure(status)
      case NoResponse => NetworkFailure
      case Replied(_) => MalformedReply;

    var systemMessage := Or(FindContent(request.messages, System), Some("")).value;
    var lastUserMessage := Or(PopContent(Filter(request.messages, User)), Some("")).value;
    var fallback := send(Post(baseUrl + ResponsesPath,
                              ResponsesPayload(request.model, systemMessage, lastUserMessage), headers));
    if fallback.Replied? {
      return Answer(FallbackContent(fallback.data), fallback.data.model);
    }
    if fallback.StatusError? && fallback.status == UnauthorizedStatus {
      return Thrown(HttpFailure(fallback.status));
    }
    return Thrown(error);
  }

  /** The tools `listTools` offers, with their descriptions. */
  const ListedTools: seq<(string, string)> := [
    ("generate_video", "Generates a simple video with text"),
    ("cut_video", "Cuts a video"),
    ("concatenate_videos", "Concatenates videos"),
    ("resize_video", "Resizes a video"),
    ("speed_video", "Changes video speed"),
    ("volume_video", "Changes video volume"),
    ("extract_audio", "Extracts audio"),
    ("text_overlay", "Overlays text"),
    ("image_overlay", "Overlays an image"),
    ("color_effect", "Applies color effects"),
    ("detect_scenes", "Detects scenes"),
    ("save_frame", "Saves a frame"),
    ("write_gif", "Writes a GIF")
  ]

  /** `callTool`'s `mapping`: tool name to backend endpoint. */
  const ToolEndpoints: map<string, string> := map[
    "generate_video" := "/video/generate",
    "cut_video" := "/video-edits/cut",
    "concatenate_videos" := "/video-edits/concatenate",
    "resize_video" := "/video-edits/resize",
    "speed_video" := "/video-edits/speed",
    "volume_video" := "/audio/volume",
    "extract_audio" := "/audio/extract",
    "text_overlay" := "/compositing/text-overlay",
    "image_overlay" := "/compositing/image-overlay",
    "color_effect" := "/video-edits/color-effect",
    "detect_scenes" := "/video-edits/detect-scenes",
    "save_frame" := "/video/save-frame",
    "write_gif" := "/video/write-gif"
  ]

  /** `listTools()` */
  function ListTools(): (r: seq<(string, string)>)
    ensures |r| == 13
    ensures forall i :: 0 <= i < |r| ==> r[i].0 in ToolEndpoints
  {
    ListedTools
  }

  /** Every name `callTool` maps is offered by `listTools`; `ListTools` states the converse. */
  lemma EveryMappedNameIsListed(name: string)
    requires name in ToolEndpoints
    ensures exists i :: 0 <= i < |ListTools()| && ListTools()[i].0 == name
  {
    var names := ListTools();
    assert names[0].0 == "generate_video" && names[1].0 == "cut_video"
        && names[2].0 == "concatenate_videos" && names[3].0 == "resize_video"
        && names[4].0 == "speed_video" && names[5].0 == "volume_video"
        && names[6].0 == "extract_audio" && names[7].0 == "text_overlay"
        && names[8].0 == "image_overlay" && names[9].0 == "color_effect"
        && names[10].0 == "detect_scenes" && names[11].0 == "save_frame"
        && names[12].0 == "write_gif";
  }

  /** No name is offered twice. */
  lemma ListedNamesAreDistinct()
    ensures forall i, j :: 0 <= i < j < |ListTools()| ==> ListTools()[i].0 != ListTools()[j].0
  {
  }

  /** Every mapped endpoint is a non-empty path, so a mapped name always passes the `!endpoint` test. */
  lemma EndpointsAreTruthy()
    ensures forall name :: name in ToolEndpoints ==> |ToolEndpoints[name]| > 0 && ToolEndpoints[name][0] == '/'
  {
  }

  /** What `callTool` gives back: the reply's data, or the error it throws. */
  datatype ToolResult<D> = ToolReply(data: D) | ToolError(message: string)

  /** `` `Unknown tool: ${toolName}` `` */
  function UnknownToolMessage(toolName: string): string {
    "Unknown tool: " + toolName
  }

  /** The value of `mapping[key]` in JavaScript: an own property, an inherited `Object.prototype` member, or `undefined`. */
  datatype JsValue = Undefined | Str(s: string) | Inherited(member: string)

  /** The members every object literal inherits from `Object.prototype`; each is a function or object, so truthy. */
  const ObjectPrototypeMembers: set<string> := {
    "constructor", "hasOwnProperty", "isPrototypeOf", "propertyIsEnumerable", "toLocaleString",
    "toString", "valueOf", "__proto__", "__defineGetter__", "__defineSetter__",
    "__lookupGetter__", "__lookupSetter__"
  }

  /** `record[key]` on an object literal. */
  function RecordLookup(record: map<string, string>, key: string): (r: JsValue)
    ensures key in record ==> r == Str(record[key])
    ensures key !in record && key !in ObjectPrototypeMembers ==> r == Undefined
  {
    if key in record then Str(record[key])
    else if key in ObjectPrototypeMembers then Inherited(key)
    else Undefined
  }

  predicate JsTruthy(v: JsValue) {
    match v
    case Undefined => false
    case Str(s) => s != ""
    case Inherited(_) => true
  }

  /**
   * `callTool(toolName, args)` as written: a tool name posts to its endpoint
   * and a name that is neither a tool nor inherited throws; an inherited
   * member also passes the check and posts to the inherited value.
   */
  function CallToolAsWritten<A, D>(toolName: string, args: A, post: (JsValue, A) -> D): (r: ToolResult<D>)
    ensures toolName in ToolEndpoints ==> r == ToolReply(post(Str(ToolEndpoints[toolName]), args))
    ensures toolName !in ToolEndpoints && toolName !in ObjectPrototypeMembers ==> r == ToolError(UnknownToolMessage(toolName))
    ensures r.ToolError? ==> toolName !in ToolEndpoints
  {
    EndpointsAreTruthy();
    var endpoint := RecordLookup(ToolEndpoints, toolName);
    if !JsTruthy(endpoint) then ToolError(UnknownToolMessage(toolName))
    else ToolReply(post(endpoint, args))
  }

  /**
   * A name that is not a tool but is an `Object.prototype` member passes the
   * unknown-tool check: `callTool("toString", args)` posts to a function
   * value instead of throwing `Unknown tool: toString`.
   */
  lemma InheritedNameSkipsUnknownToolCheck<A, D>(args: A, post: (JsValue, A) -> D)
    ensures "toString" !in ToolEndpoints
    ensures CallToolAsWritten("toString", args, post) == ToolReply(post(Inherited("toString"), args))
  {
    assert "toString" in ObjectPrototypeMembers;
  }

  /**
   * `callTool(toolName, args)` with the lookup restricted to the mapping's
   * own keys: a known name posts to its endpoint; any other name throws
   * `Unknown tool: <name>` without a request being made.
   */
  function CallTool<A, D>(toolName: string, args: A, post: (string, A) -> D): (r: ToolResult<D>)
    ensures r.ToolError? <==> toolName !in ToolEndpoints
    ensures toolName in ToolEndpoints ==> r == ToolReply(post(ToolEndpoints[toolName], args))
    ensures toolName !in ToolEndpoints ==> r == ToolError("Unknown tool: " + toolName)
  {
    if toolName in ToolEndpoints then ToolReply(post(ToolEndpoints[toolName], args))
    else ToolError(UnknownToolMessage(toolName))
  }

  /** On every name that is not an inherited member, the code as written and the corrected lookup agree. */
  lemma CallToolAgreesOffPrototype<A, D>(toolName: string, args: A, post: (string, A) -> D)
    requires toolName !in ObjectPrototypeMembers
    ensures CallToolAsWritten(toolName, args, (v: JsValue, a: A) => post(if v.Str? then v.s else "", a))
            == CallTool(toolName, args, post)
  {
    EndpointsAreTruthy();
  }
}
