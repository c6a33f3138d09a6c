/** `data/repository/ChatRepository.kt`: the transport to the chat service.
    It caches the configuration and the client built from it, maps stored
    messages to wire messages, builds the request, reads a server-sent-event
    stream line by line, and turns every outcome into a result value.  The
    HTTP calls and the client builder are parameters. */
module Chat {
  import opened Wrappers
  import opened Text
  import opened Models
  import opened ChatApi
  import opened EventStream

  // ---- errors ----

  /** Every failure the repository reports instead of throwing. */
  datatype ChatError = NotConfigured | ApiError(code: int) | EmptyResponse | Exception(message: string) {
    /** The failure's exception message. */
    function Message(): string {
      match this
      case NotConfigured => "API not configured"
      case ApiError(code) => "API error: " + IntToString(code)
      case EmptyResponse => "Empty response"
      case Exception(m) => m
    }
  }

  /** No built-in failure message is empty, and a status code can be read back
      from its message. */
  lemma ErrorMessages(code: Int32)
    ensures NotConfigured.Message() != "" && EmptyResponse.Message() != ""
    ensures var m := ApiError(code).Message();
            StartsWith(m, "API error: ") && ParseInt(m[11..]) == Some(code)
  {
    ParseIntToString(code);
    assert ApiError(code).Message()[11..] == IntToString(code);
  }

  // ---- request building ----

  /** The wire spelling of a role. */
  function RoleWire(role: MessageRole): string {
    match role
    case USER => "user"
    case ASSISTANT => "assistant"
    case SYSTEM => "system"
  }

  /** Reads a wire role back. */
  function RoleFromWire(s: string): Option<MessageRole> {
    if s == "user" then Some(USER)
    else if s == "assistant" then Some(ASSISTANT)
    else if s == "system" then Some(SYSTEM)
    else None
  }

  /** The role mapping is one-to-one: each role is recovered from its spelling. */
  lemma RoleWireRoundTrip(role: MessageRole)
    ensures RoleFromWire(RoleWire(role)) == Some(role)
  {
  }

  /** `messages.map { ChatMessage(role, content) }`. */
  function ToWire(messages: seq<Message>): (r: seq<ChatMessage>)
    ensures |r| == |messages|
    ensures forall i :: 0 <= i < |r| ==>
              RoleFromWire(r[i].role) == Some(messages[i].role) && r[i].content == messages[i].content
  {
    if messages == [] then []
    else [ChatMessage(RoleWire(messages[0].role), messages[0].content)] + ToWire(messages[1..])
  }

  /** The request for `messages` under `config`; `stream` is true for the
      streaming call and false for the simple one. The API key is not part
      of it. */
  function BuildRequest(messages: seq<Message>, config: ModelConfig, stream: bool): (r: ChatRequest)
    ensures r.model == config.model && r.stream == stream
    ensures r.temperature == Some(config.temperature) && r.maxTokens == Some(config.maxTokens)
    ensures |r.messages| == |messages|
    ensures forall i :: 0 <= i < |messages| ==>
              RoleFromWire(r.messages[i].role) == Some(messages[i].role)
              && r.messages[i].content == messages[i].content
  {
    ChatRequest(model := config.model, messages := ToWire(messages),
                temperature := Some(config.temperature), maxTokens := Some(config.maxTokens),
                stream := stream)
  }

  // ---- the configuration cache ----

  /** The cached configuration and the client built from it. */
  datatype Client = Client(config: Option<ModelConfig>, service: Option<Service>)

  /** `updateConfig`: on a configuration different from the cached one, the
      cache takes it first and then the client is rebuilt; when building
      throws, the old client stays and the exception's message comes back.
      An equal configuration changes nothing. */
  function UpdateClient(c: Client, config: ModelConfig, build: string -> Result<Service, string>): (r: (Client, Option<string>))
    ensures r.0.config == Some(config)
    ensures c.config == Some(config) ==> r == (c, None)
    ensures r.1.Some? ==> r.0.service == c.service && build(config.baseUrl) == Failure(r.1.value)
  {
    if c.config == Some(config) then (c, None)
    else match build(config.baseUrl)
      case Success(s) => (Client(Some(config), Some(s)), None)
      case Failure(e) => (Client(Some(config), c.service), Some(e))
  }

  /** A second update with the same configuration is a no-op. */
  lemma UpdateClientIdempotent(c: Client, config: ModelConfig, build: string -> Result<Service, string>)
    ensures var once := UpdateClient(c, config, build).0;
            UpdateClient(once, config, build) == (once, None)
  {
  }

  /** A configuration that differs from the cached one rebuilds the client
      from its base URL. */
  lemma UpdateClientRebuilds(c: Client, config: ModelConfig, build: string -> Result<Service, string>)
    requires c.config != Some(config) && build(config.baseUrl).Success?
    ensures UpdateClient(c, config, build).0.service == Some(build(config.baseUrl).value)
  {
  }

  // ---- the event stream ----

  /** What reading the stream yields: the concatenated chunks, unless reading
      fails before a `[DONE]` payload. */
  function StreamResult(body: LineStream): Result<string, ChatError> {
    if body.failure.Some? && !ReachesDone(body.lines) then Failure(Exception(body.failure.value))
    else Success(Concat(StreamChunks(body.lines)))
  }

  // ---- the simple call ----

  /** `sendMessageSimple` once the client is up: the first choice's message
      content on a 2xx status ("" without a body or a choice), the status
      otherwise, and a thrown exception as a failure. */
  function SimpleResult(service: Option<Service>, request: ChatRequest,
                        chat: (Service, ChatRequest) -> Call<ChatResponse>): (r: Result<string, ChatError>)
    ensures service.None? ==> r == Failure(NotConfigured)
    ensures service.Some? && chat(service.value, request).Returned? ==>
              var resp := chat(service.value, request).response;
              && (resp.IsSuccessful() <==> r.Success?)
              && (!resp.IsSuccessful() ==> r == Failure(ApiError(resp.code)))
    ensures service.Some? && chat(service.value, request).Threw? ==>
              r == Failure(Exception(chat(service.value, request).message))
  {
    match service
    case None => Failure(NotConfigured)
    case Some(s) =>
      match chat(s, request)
      case Threw(m) => Failure(Exception(m))
      case Returned(resp) =>
        if resp.IsSuccessful() then
          Success(match resp.body
                  case None => ""
                  case Some(b) => if b.choices == [] then "" else b.choices[0].message.content)
        else Failure(ApiError(resp.code))
  }

  /** On a 2xx reply the text is the first choice's content, or "" when the
      body or the choice list is missing. */
  lemma SimpleResultContent(s: Service, request: ChatRequest,
                            chat: (Service, ChatRequest) -> Call<ChatResponse>)
    requires chat(s, request).Returned? && chat(s, request).response.IsSuccessful()
    ensures var body := chat(s, request).response.body;
            SimpleResult(Some(s), request, chat)
              == Success(if body.Some? && body.value.choices != [] then body.value.choices[0].message.content else "")
  {
  }

  // ---- the streaming call ----

  /** `sendMessage` once the client is up: the status and the body are
      checked, then the stream is read. */
  function StreamingResult(service: Option<Service>, request: ChatRequest,
                           stream: (Service, ChatRequest) -> Call<LineStream>): (r: Result<string, ChatError>)
    ensures service.None? ==> r == Failure(NotConfigured)
    ensures service.Some? && stream(service.value, request).Threw? ==>
              r == Failure(Exception(stream(service.value, request).message))
    ensures service.Some? && stream(service.value, request).Returned? ==>
              var resp := stream(service.value, request).response;
              && (!resp.IsSuccessful() ==> r == Failure(ApiError(resp.code)))
              && (resp.IsSuccessful() && resp.body.None? ==> r == Failure(EmptyResponse))
              && (resp.IsSuccessful() && resp.body.Some? ==> r == StreamResult(resp.body.value))
  {
    match service
    case None => Failure(NotConfigured)
    case Some(s) =>
      match stream(s, request)
      case Threw(m) => Failure(Exception(m))
      case Returned(resp) =>
        if !resp.IsSuccessful() then Failure(ApiError(resp.code))
        else if resp.body.None? then Failure(EmptyResponse)
        else StreamResult(resp.body.value)
  }

  /** The chunks handed to `onChunk` by `sendMessage`. */
  function StreamingChunks(service: Option<Service>, request: ChatRequest,
                           stream: (Service, ChatRequest) -> Call<LineStream>): seq<string> {
    if service.None? then []
    else match stream(service.value, request)
      case Threw(_) => []
      case Returned(resp) =>
        if resp.IsSuccessful() && resp.body.Some? then StreamChunks(resp.body.value.lines) else []
  }

  /** A successful stream's text is the concatenation of the chunks passed to
      `onChunk`. */
  lemma StreamingTextIsChunks(service: Option<Service>, request: ChatRequest,
                              stream: (Service, ChatRequest) -> Call<LineStream>)
    requires StreamingResult(service, request, stream).Success?
    ensures StreamingResult(service, request, stream).value == Concat(StreamingChunks(service, request, stream))
  {
  }

  /** The handling of one line inside the reading loop: whether it is the
      `[DONE]` marker, and the content it hands to `onChunk`, if any. */
  method ReadLine(line: string) returns (stop: bool, content: Option<string>)
    ensures stop <==> Payload(line) == Some(Done)
    ensures !stop ==> LineChunks(line) == if content.Some? then [content.value] else []
  {
    stop := false;
    content := None;
    if StartsWith(line, DataPrefix) {
      var data := Trim(RemovePrefix(line, DataPrefix));
      if data == Done {
        stop := true;
        return;
      }
      content := ChunkOf(data);
    }
  }

  /** The reading loop of `sendMessage`: the chunks passed to `onChunk`, and
      the result. */
  method ReadStream(body: LineStream) returns (chunks: seq<string>, result: Result<string, ChatError>)
    ensures chunks == StreamChunks(body.lines)
    ensures result == StreamResult(body)
    ensures result.Success? ==> result.value == Concat(chunks)
  {
    var lines := body.lines;
    var full := "";
    chunks := [];
    var i := 0;
    var done := false;
    while i < |lines|
      invariant 0 <= i <= |lines|
      invariant full == Concat(chunks)
      invariant forall k :: 0 <= k < i ==> Payload(lines[k]) != Some(Done)
      invariant StreamChunks(lines) == chunks + StreamChunks(lines[i..])
    {
      var stop, content := ReadLine(lines[i]);
      if stop {
        StreamStep(lines, i);
        done := true;
        break;
      }
      match content {
        case Some(c) =>
          Advance(lines, i, chunks, [c]);
          AppendChunk(chunks, c);
          chunks := chunks + [c];
          full := full + c;
        case None =>
          Advance(lines, i, chunks, []);
          assert chunks + [] == chunks;
      }
      i := i + 1;
    }
    if body.failure.Some? && !done {
      result := Failure(Exception(body.failure.value));
    } else {
      result := Success(full);
    }
  }

  /** The repository: the configuration cache and the client. */
  class ChatRepository {
    var currentConfig: Option<ModelConfig>
    var apiService: Option<Service>
    /** The Retrofit builder: a client for a base URL, or the message of the
        exception it throws. */
    const buildService: string -> Result<Service, string>

    constructor (buildService: string -> Result<Service, string>)
      ensures currentConfig == None && apiService == None
      ensures this.buildService == buildService
    {
      currentConfig := None;
      apiService := None;
      this.buildService := buildService;
    }

    /** `updateConfig`; a builder exception comes back as its message. */
    method UpdateConfig(config: ModelConfig) returns (thrown: Option<string>)
      modifies this
      ensures (Client(currentConfig, apiService), thrown)
           == UpdateClient(Client(old(currentConfig), old(apiService)), config, buildService)
    {
      thrown := None;
      if currentConfig != Some(config) {
        currentConfig := Some(config);
        match buildService(config.baseUrl)
        case Success(s) =>
          apiService := Some(s);
        case Failure(e) =>
          thrown := Some(e);
      }
    }

    /** `sendMessage`: the result and the chunks passed to `onChunk`. */
    method SendMessage(messages: seq<Message>, config: ModelConfig,
                       stream: (Service, ChatRequest) -> Call<LineStream>)
      returns (result: Result<string, ChatError>, chunks: seq<string>)
      modifies this
      ensures var u := UpdateClient(Client(old(currentConfig), old(apiService)), config, buildService);
              && Client(currentConfig, apiService) == u.0
              && (u.1.Some? ==> result == Failure(Exception(u.1.value)) && chunks == [])
              && (u.1.None? ==>
                    var request := BuildRequest(messages, config, true);
                    result == StreamingResult(apiService, request, stream)
                    && chunks == StreamingChunks(apiService, request, stream))
    {
      var thrown := UpdateConfig(config);
      if thrown.Some? {
        return Failure(Exception(thrown.value)), [];
      }
      var request := BuildRequest(messages, config, true);
      chunks := [];
      match apiService
      case None =>
        result := Failure(NotConfigured);
      case Some(s) =>
        match stream(s, request)
        case Threw(m) =>
          result := Failure(Exception(m));
        case Returned(resp) =>
          if !resp.IsSuccessful() {
            result := Failure(ApiError(resp.code));
          } else if resp.body.None? {
            result := Failure(EmptyResponse);
          } else {
            chunks, result := ReadStream(resp.body.value);
          }
    }

    /** `sendMessageSimple`. */
    method SendMessageSimple(messages: seq<Message>, config: ModelConfig,
                             chat: (Service, ChatRequest) -> Call<ChatResponse>)
      returns (result: Result<string, ChatError>)
      modifies this
      ensures var u := UpdateClient(Client(old(currentConfig), old(apiService)), config, buildService);
              && Client(currentConfig, apiService) == u.0
              && result == SimpleOutcome(u, messages, config, chat)
    {
      var thrown := UpdateConfig(config);
      if thrown.Some? {
        return Failure(Exception(thrown.value));
      }
      result := SimpleResult(apiService, BuildRequest(messages, config, false), chat);
    }
  }

  /** `sendMessageSimple` from the cache update on: a builder exception
      becomes a failure, otherwise the call goes to the (possibly stale)
      client. */
  function SimpleOutcome(u: (Client, Option<string>), messages: seq<Message>, config: ModelConfig,
                         chat: (Service, ChatRequest) -> Call<ChatResponse>): (r: Result<string, ChatError>)
    ensures u.1.Some? ==> r == Failure(Exception(u.1.value))
    ensures u.1.None? && u.0.service.None? ==> r == Failure(NotConfigured)
    ensures r.Success? ==> u.1.None? && u.0.service.Some?
  {
    if u.1.Some? then Failure(Exception(u.1.value))
    else SimpleResult(u.0.service, BuildRequest(messages, config, false), chat)
  }
}
