/** The price tool and the chat round trip of core.py: the case-insensitive
    price lookup, the resolution of a batch of tool calls, and the message
    preparation that runs around the two language-model calls, which enter
    as oracle parameters. */
module Core {
  import opened Messages
  import opened Strings

  const SystemPrompt: string :=
    "You are a helpful assistant for an Airline called FlightAI. "
    + "Give short, courteous answers, no more than 1 sentence. "
    + "Always be accurate. If you don't know the answer, say so."

  const TicketPrices: map<string, string> :=
    map["london" := "$799", "paris" := "$899", "tokyo" := "$1400", "berlin" := "$499"]

  const Unknown := "Unknown"

  /** The price tool: look the lower-cased city up, "Unknown" when absent. */
  function GetTicketPrice(destinationCity: string): (price: string)
    ensures price == Unknown <==> Lower(destinationCity) !in TicketPrices
    ensures price != Unknown ==> price == TicketPrices[Lower(destinationCity)]
  {
    var city := Lower(destinationCity);
    if city in TicketPrices then TicketPrices[city] else Unknown
  }

  /** Two spellings that lower-case alike have the same price. */
  lemma PriceIgnoresCase(a: string, b: string)
    requires Lower(a) == Lower(b)
    ensures GetTicketPrice(a) == GetTicketPrice(b)
  {
  }

  /** Looking up an already lower-cased name gives the same price. */
  lemma PriceOfLowered(city: string)
    ensures GetTicketPrice(Lower(city)) == GetTicketPrice(city)
  {
    LowerIdempotent(city);
  }

  /** Examples of the lookup. */
  lemma PriceExamples()
    ensures GetTicketPrice("Berlin") == "$499"
    ensures GetTicketPrice("BERLIN") == "$499"
    ensures GetTicketPrice("berlin") == "$499"
    ensures GetTicketPrice("Paris") == "$899"
    ensures GetTicketPrice("Atlantis") == Unknown
  {
    assert Lower("Berlin") == "berlin";
    assert Lower("BERLIN") == "berlin";
    assert Lower("berlin") == "berlin";
    assert Lower("Paris") == "paris";
    assert Lower("Atlantis") == "atlantis";
  }

  /** The tool message answering one call. */
  function ToolResponse(call: ToolCall): (r: Message)
    requires HasCity(call)
    ensures r.role == Tool && r.toolCallId == Some(call.id) && r.toolCalls == []
    ensures r.content.Some? && r.content.value.Json?
    ensures r.content.value.payload.destinationCity == Some(CityOf(call))
    ensures r.content.value.payload.price == "Unknown" <==> Lower(CityOf(call)) !in TicketPrices
  {
    var city := CityOf(call);
    Message(Tool, Some(Json(Payload(Some(city), GetTicketPrice(city)))), Some(call.id), None, [])
  }

  /** `handle_tool_calls`: one tool response per call, in call order, and the
      city of the first call. A call without a string destination makes the
      source raise, so every call must carry one. */
  method HandleToolCalls(calls: seq<ToolCall>) returns (responses: seq<Message>, firstCity: Option<string>)
    requires forall i :: 0 <= i < |calls| ==> HasCity(calls[i])
    ensures |responses| == |calls|
    ensures forall i :: 0 <= i < |calls| ==>
      && responses[i].role == Tool
      && responses[i].toolCallId == Some(calls[i].id)
      && responses[i].content == Some(Json(Payload(Some(CityOf(calls[i])), GetTicketPrice(CityOf(calls[i])))))
      && responses[i] == ToolResponse(calls[i])
    ensures firstCity == if |calls| == 0 then None else Some(CityOf(calls[0]))
  {
    responses := [];
    firstCity := None;
    var k := 0;
    while k < |calls|
      invariant 0 <= k <= |calls|
      invariant |responses| == k
      invariant forall i :: 0 <= i < k ==> responses[i] == ToolResponse(calls[i])
      invariant firstCity == if k == 0 then None else Some(CityOf(calls[0]))
    {
      var city := CityOf(calls[k]);
      var price := GetTicketPrice(city);
      if firstCity.None? {
        firstCity := Some(city);
      }
      responses := responses + [Message(Tool, Some(Json(Payload(Some(city), price))), Some(calls[k].id), None, [])];
      k := k + 1;
    }
  }

  /** A history entry as Gradio hands it over: a message dictionary or some
      other value. */
  datatype Entry = Dict(msg: Message) | NotDict

  /** A dictionary whose content is missing or `None` gets content `""`. */
  function Normalized(m: Message): (r: Message)
    ensures r.(content := m.content) == m
    ensures m.content.Some? ==> r == m
    ensures m.content.None? ==> r.content == Some(Text(""))
  {
    if m.content.None? then m.(content := Some(Text(""))) else m
  }

  function Kept(e: Entry): seq<Message> {
    match e
    case Dict(m) => [Normalized(m)]
    case NotDict => []
  }

  /** The cleaned history: dictionaries in order, normalised; other entries dropped. */
  function Cleaned(h: seq<Entry>): (r: seq<Message>)
    ensures |r| <= |h|
    ensures forall k :: 0 <= k < |r| ==> r[k].content.Some?
  {
    if |h| == 0 then [] else Cleaned(h[..|h| - 1]) + Kept(h[|h| - 1])
  }

  /** Cleaning distributes over concatenation, so it keeps relative order. */
  lemma {:induction false} CleanedConcat(a: seq<Entry>, b: seq<Entry>)
    ensures Cleaned(a + b) == Cleaned(a) + Cleaned(b)
    decreases |b|
  {
    if |b| == 0 {
      assert a + b == a;
    } else {
      var b' := b[..|b| - 1];
      assert (a + b)[..|a + b| - 1] == a + b';
      CleanedConcat(a, b');
    }
  }

  /** Nothing is dropped exactly when every entry is a dictionary. */
  lemma {:induction false} CleanedKeepsLength(h: seq<Entry>)
    ensures |Cleaned(h)| == |h| <==> forall i :: 0 <= i < |h| ==> h[i].Dict?
    decreases |h|
  {
    if |h| > 0 {
      var h' := h[..|h| - 1];
      CleanedKeepsLength(h');
      if h[|h| - 1].NotDict? {
        assert |Cleaned(h)| < |h|;
      } else if |Cleaned(h')| < |h'| {
        assert |Cleaned(h)| < |h|;
        var i :| 0 <= i < |h'| && h'[i].NotDict?;
        assert h[i].NotDict?;
      }
    }
  }

  /** A history of dictionaries that all have content is left as it is. */
  lemma {:induction false} CleanedUnchanged(h: seq<Entry>)
    requires forall i :: 0 <= i < |h| ==> h[i].Dict? && h[i].msg.content.Some?
    ensures |Cleaned(h)| == |h|
    ensures forall i :: 0 <= i < |h| ==> Cleaned(h)[i] == h[i].msg
    decreases |h|
  {
    if |h| > 0 {
      CleanedUnchanged(h[..|h| - 1]);
    }
  }

  /** Wraps messages back into history entries. */
  function Entries(ms: seq<Message>): (r: seq<Entry>)
    ensures |r| == |ms| && forall i :: 0 <= i < |ms| ==> r[i] == Dict(ms[i])
  {
    seq(|ms|, i requires 0 <= i < |ms| => Dict(ms[i]))
  }

  /** Cleaning a cleaned history changes nothing. */
  lemma CleanedIdempotent(h: seq<Entry>)
    ensures Cleaned(Entries(Cleaned(h))) == Cleaned(h)
  {
    var c := Cleaned(h);
    CleanedUnchanged(Entries(c));
  }

  /** The history-cleaning loop of `chat`. */
  method CleanHistory(history: seq<Entry>) returns (cleaned: seq<Message>)
    ensures cleaned == Cleaned(history)
  {
    cleaned := [];
    var i := 0;
    while i < |history|
      invariant 0 <= i <= |history|
      invariant cleaned == Cleaned(history[..i])
    {
      assert history[..i + 1][..i] == history[..i];
      match history[i] {
        case Dict(m) =>
          if m.content.Some? {
            cleaned := cleaned + [m];
          } else {
            cleaned := cleaned + [m.(content := Some(Text("")))];
          }
        case NotDict =>
      }
      i := i + 1;
    }
    assert history[..i] == history;
  }

  /** The index of the most recent user message, if any. */
  function LatestUser(c: seq<Message>): (r: Option<nat>)
    ensures r.Some? ==>
      && r.value < |c| && c[r.value].role == User
      && forall j :: r.value < j < |c| ==> c[j].role != User
    ensures r.None? ==> forall j :: 0 <= j < |c| ==> c[j].role != User
  {
    if |c| == 0 then None
    else if c[|c| - 1].role == User then Some(|c| - 1)
    else LatestUser(c[..|c| - 1])
  }

  /** The content of the most recent user message (`None` when there is none). */
  function LatestUserContent(c: seq<Message>): Option<Content> {
    match LatestUser(c)
    case None => None
    case Some(i) => c[i].content
  }

  /** The reversed scan of `chat` that stops at the first user message. */
  method LastUserMessage(c: seq<Message>) returns (last: Option<Content>)
    ensures last == LatestUserContent(c)
  {
    last := None;
    var i := |c|;
    while i > 0
      invariant 0 <= i <= |c|
      invariant last == None
      invariant forall j :: i <= j < |c| ==> c[j].role != User
    {
      i := i - 1;
      if c[i].role == User {
        last := c[i].content;
        break;
      }
    }
  }

  /** The first-round answer of the model: `finish_reason` other than
      "tool_calls" gives `Direct`. */
  datatype ModelResponse =
    | Direct(content: Option<string>)
    | ToolCallsRequested(content: Option<string>, calls: seq<ToolCall>)

  /** What `chat` returns. `EarlyExit` is the 3-tuple `(history, None, "")`;
      `Replied` is the 4-tuple `(history, None, reply, city)`; `Raised` is the
      exception a call without a destination city throws. `rounds` lists the
      message lists sent to the model, in order. */
  datatype ChatResult =
    | EarlyExit(history: seq<Entry>)
    | Replied(history: seq<Entry>, reply: Option<string>, city: Option<string>, rounds: seq<seq<Message>>)
    | Raised(rounds: seq<seq<Message>>)

  function SystemTurn(): Message {
    TextTurn(System, SystemPrompt)
  }

  /** The assistant message echoing the requested tool calls. */
  function ToolCallTurn(content: Option<string>, calls: seq<ToolCall>): (r: Message)
    ensures r.role == Assistant && r.toolCalls == calls && r.toolCallId.None?
    ensures content.Some? ==> r.content == Some(Text(content.value))
    ensures content.None? ==> r.content == Some(Text(""))
  {
    Message(Assistant, Some(Text(if content.Some? then content.value else "")), None, None, calls)
  }

  /** The second-round messages: the first round, the echo of the calls,
      then one tool response per call in order. */
  ghost predicate IsSecondRound(first: seq<Message>, content: Option<string>, calls: seq<ToolCall>, second: seq<Message>)
    requires forall i :: 0 <= i < |calls| ==> HasCity(calls[i])
  {
    && |second| == |first| + 1 + |calls|
    && second[..|first|] == first
    && second[|first|] == ToolCallTurn(content, calls)
    && forall i :: 0 <= i < |calls| ==> second[|first| + 1 + i] == ToolResponse(calls[i])
  }

  /** The first round, the echo of the calls and their responses, in that
      order, form the second round. */
  lemma SecondRoundAssembled(first: seq<Message>, content: Option<string>, calls: seq<ToolCall>, responses: seq<Message>)
    requires forall i :: 0 <= i < |calls| ==> HasCity(calls[i])
    requires |responses| == |calls|
    requires forall i :: 0 <= i < |calls| ==> responses[i] == ToolResponse(calls[i])
    ensures IsSecondRound(first, content, calls, first + [ToolCallTurn(content, calls)] + responses)
  {
    var second := first + [ToolCallTurn(content, calls)] + responses;
    assert second[..|first|] == first;
    forall i | 0 <= i < |calls|
      ensures second[|first| + 1 + i] == ToolResponse(calls[i])
    {
      assert second[|first| + 1 + i] == responses[i];
    }
  }

  /** The tool-call branch of `chat` up to the second model call: resolve
      the calls, then append the echo of the calls and each tool response to
      the first round's messages. */
  method SecondRound(first: seq<Message>, content: Option<string>, calls: seq<ToolCall>)
    returns (messages: seq<Message>, city: Option<string>)
    requires forall i :: 0 <= i < |calls| ==> HasCity(calls[i])
    ensures IsSecondRound(first, content, calls, messages)
    ensures city == if |calls| == 0 then None else Some(CityOf(calls[0]))
  {
    var toolResponses;
    toolResponses, city := HandleToolCalls(calls);
    messages := first + [ToolCallTurn(content, calls)];
    var k := 0;
    while k < |toolResponses|
      invariant 0 <= k <= |toolResponses|
      invariant messages == first + [ToolCallTurn(content, calls)] + toolResponses[..k]
    {
      messages := messages + [toolResponses[k]];
      k := k + 1;
    }
    assert toolResponses[..k] == toolResponses;
    SecondRoundAssembled(first, content, calls, toolResponses);
  }

  /** `chat`: clean the history, exit early when the latest user message is
      missing or empty, otherwise run one or two model rounds. The history is
      returned as given. */
  method Chat(history: seq<Entry>, complete: seq<Message> -> ModelResponse, completeFinal: seq<Message> -> Option<string>)
    returns (r: ChatResult)
    ensures r.EarlyExit? <==> !ContentTruthy(LatestUserContent(Cleaned(history)))
    ensures r.EarlyExit? || r.Replied? ==> r.history == history
    ensures !r.EarlyExit? ==> |r.rounds| >= 1 && r.rounds[0] == [SystemTurn()] + Cleaned(history)
    ensures !r.EarlyExit? && complete(r.rounds[0]).Direct? ==>
      r == Replied(history, complete(r.rounds[0]).content, None, [r.rounds[0]])
    ensures !r.EarlyExit? && complete(r.rounds[0]).ToolCallsRequested? ==>
      var calls := complete(r.rounds[0]).calls;
      && (r.Raised? <==> exists i :: 0 <= i < |calls| && !HasCity(calls[i]))
      && (r.Raised? ==> r.rounds == [r.rounds[0]])
      && (r.Replied? ==>
        && |r.rounds| == 2
        && IsSecondRound(r.rounds[0], complete(r.rounds[0]).content, calls, r.rounds[1])
        && r.reply == completeFinal(r.rounds[1])
        && r.city == if |calls| == 0 then None else Some(CityOf(calls[0])))
  {
    var cleaned := CleanHistory(history);
    var lastUserMessage := LastUserMessage(cleaned);
    if !ContentTruthy(lastUserMessage) {
      return EarlyExit(history);
    }
    var messages := [SystemTurn()] + cleaned;
    var first := messages;
    var response := complete(messages);
    match response
    case Direct(content) =>
      r := Replied(history, content, None, [first]);
    case ToolCallsRequested(content, calls) =>
      if exists i :: 0 <= i < |calls| && !HasCity(calls[i]) {
        return Raised([first]);
      }
      var city;
      messages, city := SecondRound(first, content, calls);
      var reply := completeFinal(messages);
      r := Replied(history, reply, city, [first, messages]);
  }
}
