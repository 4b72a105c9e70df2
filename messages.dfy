/** The records that flow through the assistant: conversation turns, the
    price payload carried by tool turns, the model's tool-call requests, and
    the chat history list that the user-interface layer mutates in place. */
module Messages {

  datatype Option<+T> = None | Some(value: T)

  /** Role strings compared by the source. */
  const System := "system"
  const User := "user"
  const Assistant := "assistant"
  const Tool := "tool"

  /** The JSON object `{"destination_city": ..., "price": ...}` held by a
      tool turn. A destination that is absent or JSON `null` is `None`. */
  datatype Payload = Payload(destinationCity: Option<string>, price: string)

  /** A turn's content: plain text, or the serialised price payload of a tool
      turn. Plain text is taken never to parse as a price payload. */
  datatype Content = Text(text: string) | Json(payload: Payload)

  /** The parsed `arguments` of a tool call. `Unparsable` is text that
      `json.loads` rejects; `Parsed(None)` lacks a string `destination_city`. */
  datatype Args = Unparsable | Parsed(destinationCity: Option<string>)

  /** One entry of the model's `tool_calls`. */
  datatype ToolCall = ToolCall(id: string, name: string, arguments: Args)

  /** One message dictionary. `content == None` is a missing or `None`
      content; `toolCallId`, `city` and `toolCalls` are the optional keys
      `tool_call_id`, `city` and `tool_calls` (an empty list when absent). */
  datatype Message = Message(
    role: string,
    content: Option<Content>,
    toolCallId: Option<string>,
    city: Option<string>,
    toolCalls: seq<ToolCall>)

  /** A message with only a role and a text content. */
  function TextTurn(role: string, text: string): Message {
    Message(role, Some(Text(text)), None, None, [])
  }

  /** Python truthiness of a message content: `None` and `""` are false; a
      serialised payload is a non-empty JSON string. */
  predicate ContentTruthy(c: Option<Content>) {
    match c
    case None => false
    case Some(Text(s)) => s != ""
    case Some(Json(_)) => true
  }

  /** Python truthiness of an optional string. */
  predicate Truthy(s: Option<string>) {
    s.Some? && s.value != ""
  }

  predicate HasCity(call: ToolCall) {
    call.arguments.Parsed? && call.arguments.destinationCity.Some?
  }

  function CityOf(call: ToolCall): string
    requires HasCity(call)
  {
    call.arguments.destinationCity.value
  }

  /** The chat history list shared by the interface's stages; functions that
      extend it in place change `turns`. */
  class History {
    var turns: seq<Message>
  }
}
