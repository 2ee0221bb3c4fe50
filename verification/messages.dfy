/** Conversation entries and the request envelope built from them
    (`AIChatBot.send_message`, main.py:45-82). */
module Messages {
  import opened Basics

  /** One entry of `conversation_history`: a dict with `role` and `content`
      and, for image and audio turns, a `content_type` key. */
  datatype Message = Message(role: string, content: string, contentType: Option<string>)

  /** The request body posted to the service, together with the URL it goes to. */
  datatype Request = Request(url: string, model: string, messages: seq<Message>, stream: bool)

  const RealtimeUrl: string := "https://api.openai.com/v1/realtime"
  const ChatCompletionsUrl: string := "https://api.openai.com/v1/chat/completions"
  const ModelName: string := "gpt-4o-realtime-preview-2024-12-17"

  /** The `content_type` tag a new user message gets for its input type. */
  function ContentTypeFor(inputType: string): Option<string>
  {
    if inputType == "image" then Some("image_url")
    else if inputType == "audio" then Some("audio")
    else None
  }

  /** The message `send_message` appends before any request is made. */
  function UserMessage(content: string, role: string, inputType: string): (m: Message)
    ensures m.role == role && m.content == content
    ensures m.contentType == Some("image_url") <==> inputType == "image"
    ensures m.contentType == Some("audio") <==> inputType == "audio"
    ensures m.contentType == None <==> inputType != "image" && inputType != "audio"
  {
    Message(role, content, ContentTypeFor(inputType))
  }

  /** The entry recorded for a reply of the service. */
  function AssistantMessage(text: string): Message
  {
    Message("assistant", text, None)
  }

  /** The envelope for a turn of the given input type, carrying the whole
      history as it stands at the call (the new user message included). */
  function BuildRequest(history: seq<Message>, inputType: string): (q: Request)
    ensures q.messages == history && q.model == ModelName
    ensures !q.stream <==> inputType == "audio"
    ensures q.url == RealtimeUrl <==> inputType == "audio"
    ensures q.url == ChatCompletionsUrl <==> inputType != "audio"
  {
    assert |RealtimeUrl| != |ChatCompletionsUrl|;
    var audio := inputType == "audio";
    Request(if audio then RealtimeUrl else ChatCompletionsUrl, ModelName, history, !audio)
  }

  /** Streaming and the endpoint always agree: a request is streamed exactly
      when it goes to the chat-completions endpoint. */
  lemma StreamedIffChatEndpoint(history: seq<Message>, inputType: string)
    ensures BuildRequest(history, inputType).stream <==>
            BuildRequest(history, inputType).url == ChatCompletionsUrl
  {
  }
}
