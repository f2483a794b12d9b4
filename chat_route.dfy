/**
 * The `POST /api/chat` handler of `src/app/api/chat/route.js`: it checks
 * the request's `messages`, forwards them to OpenRouter and maps the
 * completion, or the error it threw, to an HTTP response. The OpenRouter
 * call is a parameter: the completion it returned, or the error it threw.
 */
module ChatRoute {
  import opened Wrappers

  /** A chat message; the route passes messages through without reading them. */
  datatype ChatMessage = ChatMessage(role: string, content: string)

  /** The `messages` field of the body: an array, or any other value. */
  datatype MessagesField = NotAnArray | MessageArray(items: seq<ChatMessage>)

  /** `await request.json()`: an unparseable body, the JSON `null` (whose
      `.messages` throws), or an object or other value. */
  datatype RequestBody = Unparseable | NullBody | Parsed(messages: MessagesField)

  /** What `openrouter.chat.completions.create` did: a completion, whose
      `choices` may be missing, or a thrown `OpenAI.APIError` with its
      optional status, or any other thrown error with its optional code. */
  datatype CompletionOutcome =
    | Completed(choices: Option<seq<ChatMessage>>)
    | ApiError(status: Option<int>, message: string)
    | OtherError(code: Option<string>)

  datatype Body = MessageBody(message: ChatMessage) | ErrorBody(error: string)

  datatype Response = Response(status: int, body: Body)

  const MessagesRequired := "Messages are required and must be a non-empty array"
  const InvalidJson := "Invalid JSON body"
  const NoResponse := "AI did not return a response."
  const DefaultError := "Failed to get response from AI."
  const ApiErrorPrefix := "OpenRouter API Error: "
  const NetworkError := "Network error: Could not connect to OpenRouter API."

  /** The request is valid: `messages` is a non-empty array. */
  predicate ValidRequest(req: RequestBody) {
    req.Parsed? && req.messages.MessageArray? && |req.messages.items| > 0
  }

  /** `error.status || 500`: a missing or zero status becomes 500. */
  function ApiStatus(status: Option<int>): (r: int)
    ensures r != 0
    ensures status.Some? && status.value != 0 ==> r == status.value
    ensures status.None? || status == Some(0) ==> r == 500
  {
    if status.Some? && status.value != 0 then status.value else 500
  }

  /** The response to a thrown error. */
  function ErrorResponse(err: CompletionOutcome): (r: Response)
    requires !err.Completed?
    ensures r.body.ErrorBody?
    ensures err.ApiError? ==> r == Response(ApiStatus(err.status), ErrorBody(ApiErrorPrefix + err.message))
    ensures err.OtherError? && err.code in {Some("ENOTFOUND"), Some("ECONNRESET")} ==>
              r == Response(504, ErrorBody(NetworkError))
    ensures err.OtherError? && !(err.code in {Some("ENOTFOUND"), Some("ECONNRESET")}) ==>
              r == Response(500, ErrorBody(DefaultError))
  {
    match err
    case ApiError(status, message) => Response(ApiStatus(status), ErrorBody(ApiErrorPrefix + message))
    case OtherError(code) =>
      if code == Some("ENOTFOUND") || code == Some("ECONNRESET") then Response(504, ErrorBody(NetworkError))
      else Response(500, ErrorBody(DefaultError))
  }

  /** `POST`: `completion` is what OpenRouter would do; it is consulted only
      for a valid request. */
  function Post(req: RequestBody, completion: CompletionOutcome): (r: Response)
    ensures !ValidRequest(req) ==> r.status == 400 && r.body.ErrorBody?
    ensures (req.Unparseable? || req.NullBody?) ==> r.body == ErrorBody(InvalidJson)
    ensures req.Parsed? && !ValidRequest(req) ==> r.body == ErrorBody(MessagesRequired)
    ensures r.body.MessageBody? <==>
              ValidRequest(req) && completion.Completed? && completion.choices.Some? && |completion.choices.value| > 0
    ensures r.body.MessageBody? ==> r == Response(200, MessageBody(completion.choices.value[0]))
    ensures ValidRequest(req) && completion.Completed? && !r.body.MessageBody? ==>
              r == Response(500, ErrorBody(NoResponse))
    ensures ValidRequest(req) && !completion.Completed? ==> r == ErrorResponse(completion)
  {
    match req
    case Unparseable => Response(400, ErrorBody(InvalidJson))
    case NullBody => Response(400, ErrorBody(InvalidJson))
    case Parsed(messages) =>
      if !messages.MessageArray? || |messages.items| == 0 then Response(400, ErrorBody(MessagesRequired))
      else
        match completion
        case Completed(choices) =>
          if choices.None? || |choices.value| == 0 then Response(500, ErrorBody(NoResponse))
          else Response(200, MessageBody(choices.value[0]))
        case _ => ErrorResponse(completion)
  }

  /** The statuses the route can answer with: 200 only with a message, 400
      for a bad request, 500 or 504 for the route's own errors, and otherwise
      the non-zero status of an `APIError`. */
  lemma PostStatuses(req: RequestBody, completion: CompletionOutcome)
    ensures var r := Post(req, completion);
            || (r.status == 200 && r.body.MessageBody?)
            || (r.status == 400 && !ValidRequest(req))
            || r.status == 500 || r.status == 504
            || (completion.ApiError? && r.status == ApiStatus(completion.status) && r.status != 0)
    ensures var r := Post(req, completion);
            r.status == 400 && !completion.ApiError? ==> !ValidRequest(req)
  {
  }

  /** A valid request never gets 400 unless OpenRouter itself said 400. */
  lemma ValidRequestNot400(req: RequestBody, completion: CompletionOutcome)
    requires ValidRequest(req)
    requires !(completion.ApiError? && completion.status == Some(400))
    ensures Post(req, completion).status != 400
  {
  }
}
