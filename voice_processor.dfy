/** The narration step of voice_processor.py: synthesise speech for the reply,
    and only once that has succeeded commit the reply (and, after a tool call,
    the price turn) to the chat history and start playback. Speech synthesis
    enters as its outcome; playback is the flag the method returns. */
module VoiceProcessor {
  import opened Messages
  import opened Strings
  import Core

  /** The module's own copy of the price table. */
  const TicketPrices: map<string, string> :=
    map["london" := "$799", "paris" := "$899", "tokyo" := "$1400", "berlin" := "$499"]

  /** The module's own copy of the price tool. */
  function GetTicketPrice(destinationCity: string): (price: string)
    ensures price == "Unknown" <==> Lower(destinationCity) !in TicketPrices
  {
    var city := Lower(destinationCity);
    if city in TicketPrices then TicketPrices[city] else "Unknown"
  }

  /** The copy agrees with the price tool of the chat core on every input. */
  lemma PricesAgree(destinationCity: string)
    ensures GetTicketPrice(destinationCity) == Core.GetTicketPrice(destinationCity)
  {
  }

  /** The outcome of the speech request and of saving the audio to a file. */
  datatype Synthesis = Synthesized | SynthesisFailed(error: string)

  const NoResponse := "No response to play"
  const AudioErrorPrefix := "Audio error: "
  /** The status prefix exactly as the source file spells it: the note emoji
      stored as four mis-decoded characters, then " Playing: ". */
  const PlayingPrefix := "\U{F0}\U{178}\U{17D}\U{B5} Playing: "

  /** `reply[:50]`: the first fifty characters, or all of a shorter reply. */
  function Preview(reply: string): (p: string)
    ensures |p| == if |reply| < 50 then |reply| else 50
    ensures p <= reply
  {
    if |reply| < 50 then reply else reply[..50]
  }

  function PlayingStatus(reply: string): string {
    PlayingPrefix + Preview(reply) + "..."
  }

  /** The tool turn recorded after a priced reply. */
  function PriceTurn(city: string): Message {
    Message(Tool, Some(Json(Payload(Some(city), GetTicketPrice(city)))), Some("temp_id"), None, [])
  }

  /** Whether the reply is committed and played: `reply and reply.strip()`
      holds and synthesis succeeded. */
  predicate Commits(reply: string, synthesis: Synthesis) {
    HasNonSpace(reply) && synthesis.Synthesized?
  }

  /** The assistant turn holding the reply, with the city when there is one. */
  function ReplyTurn(reply: string, cityInfo: Option<string>): Message {
    if Truthy(cityInfo) then Message(Assistant, Some(Text(reply)), None, cityInfo, [])
    else TextTurn(Assistant, reply)
  }

  /** The history after the call, as a function of the history before it. */
  function Committed(reply: string, cityInfo: Option<string>, turns: seq<Message>, synthesis: Synthesis): (r: seq<Message>)
    ensures |r| == |turns| + (if !Commits(reply, synthesis) then 0 else if Truthy(cityInfo) then 2 else 1)
    ensures r[..|turns|] == turns
    ensures Commits(reply, synthesis) ==> r[|r| - 1] == ReplyTurn(reply, cityInfo)
    ensures Commits(reply, synthesis) && Truthy(cityInfo) ==> r[|turns|] == PriceTurn(cityInfo.value)
  {
    if !Commits(reply, synthesis) then turns
    else if Truthy(cityInfo) then turns + [PriceTurn(cityInfo.value), ReplyTurn(reply, cityInfo)]
    else turns + [ReplyTurn(reply, cityInfo)]
  }

  /** The status string the call returns. */
  function NarrationStatus(reply: string, synthesis: Synthesis): (status: string)
    ensures status == NoResponse <==> !HasNonSpace(reply)
    ensures HasNonSpace(reply) && synthesis.SynthesisFailed? ==>
      && |status| >= |AudioErrorPrefix|
      && status[..|AudioErrorPrefix|] == AudioErrorPrefix
      && status[|AudioErrorPrefix|..] == synthesis.error
    ensures Commits(reply, synthesis) ==> |status| >= |PlayingPrefix| && status[..|PlayingPrefix|] == PlayingPrefix
  {
    if !HasNonSpace(reply) then NoResponse
    else match synthesis
      case SynthesisFailed(error) =>
        assert (AudioErrorPrefix + error)[0] != NoResponse[0];
        AudioErrorPrefix + error
      case Synthesized =>
        assert PlayingStatus(reply)[0] != NoResponse[0];
        PlayingStatus(reply)
  }

  /** `generate_audio_and_update_chat`: extends the caller's history in place.
      `playbackStarted` is the start of the playback thread. */
  method GenerateAudioAndUpdateChat(reply: string, cityInfo: Option<string>, history: History, synthesis: Synthesis)
    returns (status: string, playbackStarted: bool)
    modifies history
    ensures history.turns == Committed(reply, cityInfo, old(history.turns), synthesis)
    ensures status == NarrationStatus(reply, synthesis)
    ensures playbackStarted <==> Commits(reply, synthesis)
  {
    if reply != [] && HasNonSpace(reply) {
      match synthesis
      case SynthesisFailed(error) =>
        return AudioErrorPrefix + error, false;
      case Synthesized =>
        if Truthy(cityInfo) {
          var toolResponse := PriceTurn(cityInfo.value);
          history.turns := history.turns + [toolResponse];
          history.turns := history.turns + [Message(Assistant, Some(Text(reply)), None, cityInfo, [])];
        } else {
          history.turns := history.turns + [TextTurn(Assistant, reply)];
        }
        return PlayingStatus(reply), true;
    }
    return NoResponse, false;
  }

  /** A reply that is empty or only whitespace is not narrated: the history
      is unchanged and the status says there was nothing to play. */
  lemma BlankReplyChangesNothing(reply: string, cityInfo: Option<string>, turns: seq<Message>, synthesis: Synthesis)
    requires !HasNonSpace(reply)
    ensures Committed(reply, cityInfo, turns, synthesis) == turns
    ensures NarrationStatus(reply, synthesis) == NoResponse
  {
  }

  /** A failed synthesis commits nothing and reports the error. */
  lemma FailedSynthesisChangesNothing(reply: string, cityInfo: Option<string>, turns: seq<Message>, error: string)
    requires HasNonSpace(reply)
    ensures Committed(reply, cityInfo, turns, SynthesisFailed(error)) == turns
    ensures NarrationStatus(reply, SynthesisFailed(error)) == AudioErrorPrefix + error
  {
  }

  /** After a priced reply is synthesised, exactly two turns are added: the
      tool turn with the city's price and id "temp_id", then the reply. */
  lemma PricedReplyAddsTwoTurns(reply: string, city: string, turns: seq<Message>)
    requires HasNonSpace(reply) && city != ""
    ensures var after := Committed(reply, Some(city), turns, Synthesized);
      && |after| == |turns| + 2
      && after[..|turns|] == turns
      && after[|turns|].role == Tool
      && after[|turns|].toolCallId == Some("temp_id")
      && after[|turns|].content == Some(Json(Payload(Some(city), GetTicketPrice(city))))
      && after[|turns| + 1] == Message(Assistant, Some(Text(reply)), None, Some(city), [])
    ensures NarrationStatus(reply, Synthesized) == PlayingStatus(reply)
  {
  }

  /** After an unpriced reply is synthesised, exactly one assistant turn is added. */
  lemma PlainReplyAddsOneTurn(reply: string, cityInfo: Option<string>, turns: seq<Message>)
    requires HasNonSpace(reply) && !Truthy(cityInfo)
    ensures Committed(reply, cityInfo, turns, Synthesized) == turns + [TextTurn(Assistant, reply)]
  {
  }

  /** Committing is append-only, and the history grows exactly when the reply
      is narrated; the newest turn is then the assistant's reply. */
  lemma CommitAppendsOnly(reply: string, cityInfo: Option<string>, turns: seq<Message>, synthesis: Synthesis)
    ensures var after := Committed(reply, cityInfo, turns, synthesis);
      && after[..|turns|] == turns
      && (|after| > |turns| <==> Commits(reply, synthesis))
      && (|after| > |turns| ==> after[|after| - 1].role == Assistant && after[|after| - 1].content == Some(Text(reply)))
  {
  }
}
