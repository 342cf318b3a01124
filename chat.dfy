/**
 * The `/api/chat` handler: look the hotel up, build its context, send a
 * two-message completion request to the provider, take the first choice's
 * message content as the reply, and collapse every failure into one 500 answer.
 */
module Chat {
  import opened Wrappers
  import opened Records
  import opened Responses
  import ChatContext

  const Model := "gpt-3.5-turbo-16k"
  const ChatError := "An error occurred while processing your request"
  /** The message of the exception a property access on a missing envelope field throws. */
  const EnvelopeShapeError := "Cannot read properties of undefined"

  datatype Role = System | User

  datatype ChatMessage = ChatMessage(role: Role, content: string)

  /** The JSON body posted to the provider's chat-completions endpoint. */
  datatype CompletionRequest = CompletionRequest(model: string, messages: seq<ChatMessage>)

  /** The parts of the provider's response `data` the handler reads; any of them may be missing. */
  datatype ReplyMessage = ReplyMessage(content: Option<string>)
  datatype Choice = Choice(message: Option<ReplyMessage>)
  datatype Envelope = Envelope(choices: Option<seq<Choice>>)

  /** What the provider call yields: a response body, or the message of the error it threw (any status, network or setup failure). */
  datatype ProviderResult = Answered(envelope: Envelope) | Failed(message: string)

  /** The request for one chat turn: the fixed model and two messages, the context as system message first, then the user's message. */
  function CompletionRequestFor(context: string, message: string): (r: CompletionRequest)
    ensures r.model == Model
    ensures r.messages == [ChatMessage(System, context), ChatMessage(User, message)]
  {
    CompletionRequest(Model, [ChatMessage(System, context), ChatMessage(User, message)])
  }

  /**
   * `data.choices[0].message.content`: fails when `choices` is missing or empty or the first
   * choice has no message; a missing `content` is not a failure but an absent reply.
   */
  function ExtractReply(env: Envelope): (r: Result<Option<string>, string>)
    ensures r.Success? <==> env.choices.Some? && |env.choices.value| > 0 && env.choices.value[0].message.Some?
    ensures r.Success? ==> r.value == env.choices.value[0].message.value.content
    ensures r.Failure? ==> r.error == EnvelopeShapeError
  {
    match env.choices
    case None => Failure(EnvelopeShapeError)
    case Some(choices) =>
      if |choices| == 0 then Failure(EnvelopeShapeError)
      else
        match choices[0].message
        case None => Failure(EnvelopeShapeError)
        case Some(m) => Success(m.content)
  }

  /** The envelope of a provider answer whose single choice carries `text`. */
  function EnvelopeOf(text: string): Envelope {
    Envelope(Some([Choice(Some(ReplyMessage(Some(text))))]))
  }

  /** Extraction undoes wrapping a reply in an envelope, and only the first choice is read. */
  lemma ExtractReplyOfEnvelope(text: string, more: seq<Choice>)
    ensures ExtractReply(EnvelopeOf(text)) == Success(Some(text))
    ensures ExtractReply(Envelope(Some(EnvelopeOf(text).choices.value + more))) == Success(Some(text))
    ensures ExtractReply(Envelope(Some([]))) == Failure(EnvelopeShapeError)
  {
  }

  /** The single answer for every failure; `details` carries the error's message in development mode only. */
  function ServerError(message: string, devMode: bool): (r: Response)
    ensures r.status == 500 && r.body.ErrorBody? && r.body.error == ChatError
    ensures r.body.details.Some? <==> devMode
    ensures r.body.details.Some? ==> r.body.details.value == message
  {
    Response(500, ErrorBody(ChatError, if devMode then Some(message) else None))
  }

  /**
   * The answer once the provider was called: 200 with the extracted reply, or the
   * 500 answer. A provider error's own status is never passed through.
   */
  function ChatReply(provider: ProviderResult, devMode: bool): (r: Response)
    ensures r.status == 200 || r.status == 500
    ensures r.status == 200 <==> provider.Answered? && ExtractReply(provider.envelope).Success?
    ensures r.status == 200 ==> r.body == ReplyBody(ExtractReply(provider.envelope).value)
    ensures r.status == 500 ==> r.body.ErrorBody? && r.body.error == ChatError && (r.body.details.Some? <==> devMode)
    ensures provider.Failed? && devMode ==> r.body.details == Some(provider.message)
  {
    match provider
    case Failed(message) => ServerError(message, devMode)
    case Answered(envelope) =>
      match ExtractReply(envelope)
      case Failure(message) => ServerError(message, devMode)
      case Success(reply) => Response(200, ReplyBody(reply))
  }

  /**
   * `POST /api/chat`. `hotels` is the collection as the lookup sees it; `provider` is what the
   * provider call would yield. `sent` is the request posted to the provider, if one was.
   */
  method HandleChat(hotels: map<HotelId, Hotel>, message: string, hotelId: IdParam, provider: ProviderResult, devMode: bool)
    returns (sent: Option<CompletionRequest>, resp: Response)
    ensures hotelId.Unparsable? ==> sent == None && resp == ServerError(hotelId.reason, devMode)
    ensures hotelId.Parsed? && hotelId.id !in hotels ==> sent == None && resp == ErrorResponse(404, HotelNotFound)
    ensures hotelId.Parsed? && hotelId.id in hotels ==>
      && sent == Some(CompletionRequestFor(ChatContext.Context(hotels[hotelId.id]), message))
      && resp == ChatReply(provider, devMode)
  {
    sent := None;
    match hotelId
    case Unparsable(reason) =>
      resp := ServerError(reason, devMode);
    case Parsed(id) =>
      if id !in hotels {
        resp := ErrorResponse(404, HotelNotFound);
        return;
      }
      var context := ChatContext.BuildContext(hotels[id]);
      sent := Some(CompletionRequestFor(context, message));
      match provider
      case Failed(cause) =>
        resp := ServerError(cause, devMode);
      case Answered(envelope) =>
        var reply := ExtractReply(envelope);
        if reply.Failure? {
          resp := ServerError(reply.error, devMode);
        } else {
          resp := Response(200, ReplyBody(reply.value));
        }
  }
}
