/** `AIChatBot.send_message` (main.py:45-108): append the user message, post
    the whole history to the endpoint the input type selects, and record the
    reply. The network is a parameter: `chat` is what the chat-completions
    endpoint answers (its body as lines), `realtime` what the realtime
    endpoint answers (its JSON body); only the one the routing picks is read. */
module ChatBot {
  import opened Basics
  import opened Messages
  import opened Stream

  /** An HTTP exchange: an answer with a 2xx status, or a failure
      (`raise_for_status`, connection error, unreadable JSON body). */
  datatype Http<T> = Answered(body: T) | HttpFailure

  /** The JSON body of the realtime endpoint: which of the keys
      `audio_response` and `text_response` it holds, and their values. */
  datatype RealtimeBody = RealtimeBody(audioResponse: Option<string>, textResponse: Option<string>)

  /** How a turn ended. */
  datatype Outcome =
    | Streamed(full: string)   // the streamed reply was read to the end
    | PlayedAudio(audio: string) // an audio reply (base64) was handed to playback
    | ShownText(text: string)  // the realtime endpoint answered with text
    | NoReply                  // the realtime body held neither key
    | Failed                   // an exception reached the handlers at main.py:105-108

  /** One call of `send_message`: the request it posted, the history after
      the call, and how the turn ended. */
  datatype Exchange = Exchange(request: Request, history: seq<Message>, outcome: Outcome)

  /** The outcome of the non-streamed audio request (main.py:66-76); an
      `audio_response` takes precedence over a `text_response`. */
  function RealtimeOutcome(reply: Http<RealtimeBody>): Outcome
  {
    match reply
    case HttpFailure => Failed
    case Answered(body) =>
      if body.audioResponse.Some? then PlayedAudio(body.audioResponse.value)
      else if body.textResponse.Some? then ShownText(body.textResponse.value)
      else NoReply
  }

  /** The outcome of the streamed request (main.py:78-103). */
  function StreamOutcome(chat: Http<seq<Line>>, json: string -> Parsed): Outcome
  {
    match chat
    case HttpFailure => Failed
    case Answered(lines) =>
      match Assemble(lines, json)
      case Done(full) => Streamed(full)
      case Aborted => Failed
  }

  /** The history entries a turn's outcome adds after the user message. */
  function Recorded(outcome: Outcome): seq<Message>
  {
    match outcome
    case Streamed(full) => [AssistantMessage(full)]
    case ShownText(text) => [AssistantMessage(text)]
    case _ => []
  }

  /** `send_message(content, role, input_type)`. */
  function SendMessage(history: seq<Message>, content: string, role: string, inputType: string,
                       chat: Http<seq<Line>>, realtime: Http<RealtimeBody>,
                       json: string -> Parsed): (x: Exchange)
    ensures x.request.messages == history + [UserMessage(content, role, inputType)]
    ensures x.request.stream <==> inputType != "audio"
    ensures x.request.url == (if inputType == "audio" then RealtimeUrl else ChatCompletionsUrl)
    ensures |history| < |x.history| <= |history| + 2
    ensures x.history[..|history|] == history
    ensures x.history[|history|] == UserMessage(content, role, inputType)
    ensures |x.history| == |history| + 2 <==> x.outcome.Streamed? || x.outcome.ShownText?
    ensures |x.history| == |history| + 2 ==> x.history[|history| + 1].role == "assistant"
    ensures x.outcome.Streamed? ==>
      x.history == history + [UserMessage(content, role, inputType), AssistantMessage(x.outcome.full)]
    ensures x.outcome.ShownText? ==>
      x.history == history + [UserMessage(content, role, inputType), AssistantMessage(x.outcome.text)]
    ensures !x.outcome.Streamed? && !x.outcome.ShownText? ==>
      x.history == history + [UserMessage(content, role, inputType)]
    ensures inputType == "audio" ==> !x.outcome.Streamed?
    ensures inputType != "audio" ==> x.outcome.Streamed? || x.outcome.Failed?
  {
    var withUser := history + [UserMessage(content, role, inputType)];
    var request := BuildRequest(withUser, inputType);
    var outcome := if inputType == "audio" then RealtimeOutcome(realtime) else StreamOutcome(chat, json);
    Exchange(request, withUser + Recorded(outcome), outcome)
  }

  /** A streamed turn whose body is read to the end grows the history by
      exactly the user message and one assistant entry holding every line's
      text in arrival order. */
  lemma StreamedTurnSucceeds(history: seq<Message>, content: string, role: string, inputType: string,
                             lines: seq<Line>, realtime: Http<RealtimeBody>, json: string -> Parsed)
    requires inputType != "audio"
    requires !AnyRaises(Effects(lines, json))
    ensures SendMessage(history, content, role, inputType, Answered(lines), realtime, json).history ==
            history + [UserMessage(content, role, inputType), AssistantMessage(Contributions(Effects(lines, json)))]
  {
    FoldMatchesReference(Effects(lines, json));
  }

  /** A streamed turn that fails — an HTTP error, or a line that raises —
      keeps the user message and adds nothing else. */
  lemma StreamedTurnFails(history: seq<Message>, content: string, role: string, inputType: string,
                          chat: Http<seq<Line>>, realtime: Http<RealtimeBody>, json: string -> Parsed)
    requires inputType != "audio"
    requires chat.HttpFailure? || AnyRaises(Effects(chat.body, json))
    ensures SendMessage(history, content, role, inputType, chat, realtime, json).history ==
            history + [UserMessage(content, role, inputType)]
    ensures SendMessage(history, content, role, inputType, chat, realtime, json).outcome == Failed
  {
    if chat.Answered? {
      FoldMatchesReference(Effects(chat.body, json));
    }
  }

  /** An audio turn whose reply carries `audio_response` adds no assistant
      entry, whether or not `text_response` is also present. */
  lemma AudioReplyPlayed(history: seq<Message>, content: string, role: string,
                         chat: Http<seq<Line>>, body: RealtimeBody, json: string -> Parsed)
    requires body.audioResponse.Some?
    ensures SendMessage(history, content, role, "audio", chat, Answered(body), json).history ==
            history + [UserMessage(content, role, "audio")]
  {
  }

  /** An audio turn whose reply carries only `text_response` adds exactly one
      assistant entry holding that text. */
  lemma AudioReplyText(history: seq<Message>, content: string, role: string,
                       chat: Http<seq<Line>>, text: string, json: string -> Parsed)
    ensures SendMessage(history, content, role, "audio", chat, Answered(RealtimeBody(None, Some(text))), json).history ==
            history + [UserMessage(content, role, "audio"), AssistantMessage(text)]
  {
  }

  /** An audio turn whose reply holds neither key, or whose request fails,
      adds nothing beyond the user message. */
  lemma AudioReplyEmpty(history: seq<Message>, content: string, role: string,
                        chat: Http<seq<Line>>, realtime: Http<RealtimeBody>, json: string -> Parsed)
    requires realtime == HttpFailure || realtime == Answered(RealtimeBody(None, None))
    ensures SendMessage(history, content, role, "audio", chat, realtime, json).history ==
            history + [UserMessage(content, role, "audio")]
  {
  }

  /** An audio turn never reads the chat-completions endpoint, and any other
      turn never reads the realtime endpoint. */
  lemma RoutingIgnoresOtherEndpoint(history: seq<Message>, content: string, role: string, inputType: string,
                                    chat: Http<seq<Line>>, chat': Http<seq<Line>>,
                                    realtime: Http<RealtimeBody>, realtime': Http<RealtimeBody>,
                                    json: string -> Parsed)
    ensures inputType == "audio" ==>
      SendMessage(history, content, role, inputType, chat, realtime, json) ==
      SendMessage(history, content, role, inputType, chat', realtime, json)
    ensures inputType != "audio" ==>
      SendMessage(history, content, role, inputType, chat, realtime, json) ==
      SendMessage(history, content, role, inputType, chat, realtime', json)
  {
  }
}
