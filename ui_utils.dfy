/** The two entry points of ui_utils.py that add a user turn to the chat
    history in place. The recogniser's output is an input string. */
module UiUtils {
  import opened Messages

  /** The strings the recogniser returns on failure, as listed in the source. */
  const FailureMarkers: seq<string> :=
    ["No speech detected", "Could not understand audio", "Error with speech recognition:", "Error:"]

  const Microphone := "\U{1F3A4} "
  const RecognizedPrefix := "Voice recognized: "
  const FailedPrefix := "Voice input failed: "

  /** `do_entry`: clears the textbox and appends the typed message. */
  method DoEntry(message: string, history: History) returns (textbox: string)
    modifies history
    ensures textbox == ""
    ensures history.turns == old(history.turns) + [TextTurn(User, message)]
  {
    history.turns := history.turns + [TextTurn(User, message)];
    textbox := "";
  }

  /** The recogniser's text is accepted when it is non-empty and is none of
      the markers; membership is exact string equality. */
  predicate Accepted(voiceText: string) {
    voiceText != "" && voiceText !in FailureMarkers
  }

  /** The history after the call, as a function of the history before it. */
  function AfterVoice(voiceText: string, turns: seq<Message>): (r: seq<Message>)
    ensures |r| == |turns| + (if Accepted(voiceText) then 1 else 0)
    ensures r[..|turns|] == turns
    ensures Accepted(voiceText) ==> r[|turns|] == TextTurn(User, Microphone + voiceText)
  {
    if Accepted(voiceText) then turns + [TextTurn(User, Microphone + voiceText)] else turns
  }

  /** The status string the call returns. */
  function VoiceStatus(voiceText: string): (status: string)
    ensures |status| >= |RecognizedPrefix| + |voiceText| && status[|status| - |voiceText|..] == voiceText
    ensures Accepted(voiceText) <==> status[..|RecognizedPrefix|] == RecognizedPrefix
  {
    assert FailedPrefix[6] != RecognizedPrefix[6];
    (if Accepted(voiceText) then RecognizedPrefix else FailedPrefix) + voiceText
  }

  /** `handle_voice_input`: appends the recognised text as a user turn, or
      leaves the history alone and reports the failure. */
  method HandleVoiceInput(voiceText: string, history: History) returns (status: string)
    modifies history
    ensures history.turns == AfterVoice(voiceText, old(history.turns))
    ensures status == VoiceStatus(voiceText)
  {
    if voiceText != "" && voiceText !in FailureMarkers {
      history.turns := history.turns + [TextTurn(User, Microphone + voiceText)];
      return RecognizedPrefix + voiceText;
    } else {
      return FailedPrefix + voiceText;
    }
  }

  /** Both branches keep the earlier turns in order; the history grows by one
      user turn exactly when the text is accepted. */
  lemma VoiceInputAppendsOnly(voiceText: string, turns: seq<Message>)
    ensures var after := AfterVoice(voiceText, turns);
      && after[..|turns|] == turns
      && (|after| == |turns| + 1 <==> Accepted(voiceText))
      && (|after| != |turns| + 1 <==> after == turns)
  {
  }

  /** The timeout and not-understood outcomes, and empty text, are rejected. */
  lemma RecognizerFailuresRejected()
    ensures !Accepted("")
    ensures !Accepted("No speech detected")
    ensures !Accepted("Could not understand audio")
    ensures VoiceStatus("Could not understand audio") == "Voice input failed: Could not understand audio"
  {
    assert FailureMarkers[0] == "No speech detected";
    assert FailureMarkers[1] == "Could not understand audio";
    assert !Accepted("Could not understand audio");
  }

  /** The recogniser's detailed error strings never equal a marker, so they
      are accepted and appended as user turns. */
  lemma DetailedErrorsAccepted(detail: string)
    ensures Accepted("Error with speech recognition: " + detail)
    ensures Accepted("Error: " + detail)
  {
    var e1 := "Error with speech recognition: " + detail;
    var e2 := "Error: " + detail;
    assert |e1| > |FailureMarkers[2]| && |e1| > |FailureMarkers[1]| && |e1| > |FailureMarkers[0]|;
    assert e1 != FailureMarkers[3] by { assert e1[5] != FailureMarkers[3][5]; }
    assert e2 != FailureMarkers[3] by { assert |e2| > |FailureMarkers[3]|; }
    assert e2 != FailureMarkers[0] by { assert e2[0] != FailureMarkers[0][0]; }
    assert e2 != FailureMarkers[1] by { assert e2[0] != FailureMarkers[1][0]; }
    assert e2 != FailureMarkers[2] by { assert |e2| >= 7 && e2[6] != FailureMarkers[2][6]; }
  }
}
