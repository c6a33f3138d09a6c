/** The OpenAI-compatible request and response records of
    `data/api/ChatApi.kt`, and the HTTP exchange seen from the caller: a
    call either returns a response (a status code and a body that may be
    missing) or throws.  `ChatApiService` declares `chat` to return a
    `ChatResponse` and `chatStream` a `ResponseBody`, but `ChatRepository`
    reads `isSuccessful`, `code()` and `body()` from their results as from a
    Retrofit `Response`; the model follows the repository. */
module ChatApi {
  import opened Wrappers
  import opened Text
  import opened Models

  datatype ChatMessage = ChatMessage(role: string, content: string)

  datatype ChatRequest = ChatRequest(
    model: string,
    messages: seq<ChatMessage>,
    temperature: Option<Float> := None,
    maxTokens: Option<Int32> := None,
    stream: bool := false)

  datatype ChatMessageResponse = ChatMessageResponse(role: string, content: string)

  datatype ChatChoice = ChatChoice(index: Int32, message: ChatMessageResponse, finishReason: Option<string>)

  datatype ChatResponse = ChatResponse(id: string, model: string, choices: seq<ChatChoice>)

  /** A streamed body: the pieces `readUtf8Line` returns, in order, and,
      when reading fails after them, the exception's message.  A piece is
      whatever has arrived up to a newline, or up to the end of what has
      arrived when no newline has; it need not be one of the server's
      lines, and the model does not relate the two. */
  datatype LineStream = LineStream(lines: seq<string>, failure: Option<string>)

  /** An HTTP response: the status and the decoded body, if any. */
  datatype Response<T> = Response(code: int, body: Option<T>) {
    /** `Response.isSuccessful`: a 2xx status. */
    predicate IsSuccessful() {
      200 <= code < 300
    }
  }

  /** One call of the service: it returns a response or throws. */
  datatype Call<T> = Returned(response: Response<T>) | Threw(message: string)

  /** A configured client, built for one base URL. */
  datatype Service = Service(baseUrl: string)
}
