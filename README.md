# FlightAI assistant: the conversation layer, in Dafny

FlightAI is a voice and chat assistant for an airline. A user types a message or speaks one. The assistant asks a language model for a reply. The language model may call a price tool. The reply is then spoken aloud, and a picture of the destination is generated. This project models the logic between the external services. That logic works on the conversation history, a list of message dictionaries with a `role`, a `content` and optionally a `tool_call_id`, a `city` or `tool_calls`. It proves properties of:

- **the price tool and tool-call resolution** (`core.py`, module `Core`): a lookup in a fixed table that ignores letter case and falls back to `"Unknown"`. It also models how a batch of tool calls becomes tool responses, and the preparation that `chat` does around its two model round trips: history cleaning, finding the latest user message, the early exit, and building the second-round message list. The two model calls are parameters (`complete`, `completeFinal`) that map a message list to the model's answer. The result records every message list that was sent, so a call made without any model round is visible.
- **commit after synthesis** (`voice_processor.py`, module `VoiceProcessor`): the reply is added to the caller's history only after speech synthesis has succeeded. Synthesis is an input outcome (`Synthesized` / `SynthesisFailed(error)`). The start of the playback thread is a returned flag.
- **choosing the destination for the image** (`image_generator.py`, module `ImageGenerator`): a scan from the newest turn to the oldest for a tool turn whose payload names a city. The image service is a parameter from the request's number within the scan and its prompt to an image. It returns `None` where the source's bare `except` catches an error. Numbering the requests lets a failed request and a later successful one for the same city both be represented.
- **user-turn entry** (`ui_utils.py`, module `UiUtils`): appending a typed message, and appending recognised speech unless it is one of the recogniser's failure markers. The recogniser's string is an input.

Shared records are in `Messages`. They include the `History` class, whose `turns` field stands for the Python list that `do_entry`, `handle_voice_input` and `generate_audio_and_update_chat` extend in place. `Strings` holds the two Python string operations the core uses: `str.lower` and the whitespace test behind `str.strip`.

Modelling choices:

- JSON is not modelled as text. A tool turn's content is the record `Payload(destinationCity, price)`. Parsing it gives an `Option`. Plain-text content never parses as a payload.
- A history passed to `chat` is a sequence of `Entry` values, `Dict(message)` or `NotDict`. This lets non-dictionary entries be dropped as the source drops them.
- `chat` returns a 3-tuple `(history, None, "")` on its early exit (core.py:77). On its other paths it returns a 4-tuple (core.py:124, core.py:129). The model keeps these apart: the early exit is the `EarlyExit` variant of `ChatResult`, and the other paths are `Replied`. In app.py the call is wired to four output slots, so the 3-tuple does not fit there.
- A tool call whose arguments do not parse, or lack a string `destination_city`, makes `handle_tool_calls` raise. `HandleToolCalls` requires every call to carry a city. `Chat` turns that exception into its `Raised` variant.
- The success status of `generate_audio_and_update_chat` starts with four characters, U+00F0 U+0178 U+017D U+00B5. These are the music-note emoji stored in a wrong encoding in voice_processor.py:86. The model keeps them as written.
- When synthesis fails, the history is left unchanged and the reply is not committed (voice_processor.py:87-89).
- Marker filtering in `handle_voice_input` is exact membership. Two of the markers end in a colon, but the recogniser returns `"Error with speech recognition: <detail>"` and `"Error: <detail>"`, so those error strings are accepted and appended as user turns (`UiUtils.DetailedErrorsAccepted`).

## Model

| member | source | states |
|---|---|---|
| `Core.GetTicketPrice` | core.py:14-20 | the price is "Unknown" exactly when the lower-cased city is not a key of the table; otherwise it is the table's entry for the lower-cased city |
| `Core.PriceIgnoresCase` | core.py:19-20 | two names that lower-case to the same string get the same price, so the lookup ignores letter case |
| `Core.PriceOfLowered` | core.py:19-20 | looking up the lower-cased name gives the same price as looking up the original name |
| `Core.PriceExamples` | core.py:14-20 | "Berlin", "BERLIN" and "berlin" cost "$499", "Paris" costs "$899", "Atlantis" is "Unknown" |
| `Strings.Lower` | core.py:19 | the result has the input's length and no upper-case ASCII letter; every other character is kept, and each upper-case letter becomes the same letter in lower case |
| `Strings.IsSpace` | voice_processor.py:52 | space, tab, newline and carriage return are whitespace for `strip`; ASCII letters, digits and `_` are not |
| `Strings.HasNonSpace` | voice_processor.py:52 | `reply.strip()` is non-empty exactly when the reply is not made only of whitespace; an empty reply never is |
| `Strings.LowerIdempotent` | core.py:19 | lower-casing twice equals lower-casing once |
| `Core.ToolResponse` | core.py:50-54 | the response to one call is a tool turn with the call's id and no tool calls, whose payload carries the call's city and a price that is "Unknown" exactly when the lower-cased city is not in the table |
| `Core.HandleToolCalls` | core.py:40-55 | one response per call, in the same order; response i is a tool turn whose tool_call_id is call i's id and whose payload is call i's city with that city's price; the first city is the first call's city, or None when there are no calls |
| `Core.Normalized` | core.py:62-67 | cleaning a message changes only its content; a present content is kept, and a missing content becomes "" |
| `Core.Cleaned` | core.py:60-67 | the cleaned history is no longer than the input, and every cleaned message has content |
| `Core.CleanHistory` | core.py:60-67 | the cleaning loop produces exactly the cleaned history |
| `Core.CleanedConcat` | core.py:61-67 | cleaning distributes over concatenation, so entries that are kept keep their relative order |
| `Core.CleanedKeepsLength` | core.py:61-67 | the cleaned history has the input's length exactly when every entry is a dictionary |
| `Core.CleanedUnchanged` | core.py:62-63 | a history made only of dictionaries that all have content is passed through unchanged, position by position |
| `Core.CleanedIdempotent` | core.py:60-67 | cleaning an already cleaned history changes nothing |
| `Core.LatestUser` | core.py:70-74 | the result is the index of a user message with no user message after it, or None when there is no user message at all |
| `Core.LastUserMessage` | core.py:70-74 | the reversed scan with `break` returns the content of the latest user message, or None when there is none |
| `Core.ToolCallTurn` | core.py:97-111 | the echo of the calls is an assistant turn carrying exactly the requested calls, whose content is the model's content, or "" when the model gave none |
| `Core.SecondRound` | core.py:95-114 | the messages for the second model call are the first round, then the echo of the calls, then the response to each call in call order; the city is the first call's, or None when there are no calls |
| `Core.SecondRoundAssembled` | core.py:112-114 | appending the echo and then every response of `handle_tool_calls` to the first round gives the second-round message list |
| `Core.Chat` | core.py:57-129 | exits early, with no model call, exactly when the latest user content is missing or empty; the history is returned unchanged; the first round sends the system message followed by the cleaned history; a direct answer gives its content and no city; with tool calls, it raises exactly when some call lacks a city; otherwise the second round sends the first round, the assistant echo of all calls (content "" when the model gave none) and the tool responses in order, the reply is the final answer, and the city is the first call's |
| `VoiceProcessor.GetTicketPrice` | voice_processor.py:44-48 | this module's copy answers "Unknown" exactly when the lower-cased city is not in its table |
| `VoiceProcessor.PricesAgree` | voice_processor.py:44-48 | this module's copy of the price tool agrees with core.py's on every input |
| `VoiceProcessor.Preview` | voice_processor.py:86 | the status preview is the reply's first 50 characters, or the whole reply when it is shorter |
| `VoiceProcessor.Committed` | voice_processor.py:52-79 | the old turns are kept as a prefix; nothing is added unless the reply is narrated, then one turn, or two when there is a city; the price turn for the city comes first and the reply turn is newest |
| `VoiceProcessor.NarrationStatus` | voice_processor.py:52-90 | the status is "No response to play" exactly when the reply is blank; after a failed synthesis it is "Audio error: " followed by the error; after narration it starts with the playing prefix |
| `VoiceProcessor.GenerateAudioAndUpdateChat` | voice_processor.py:50-90 | the new history is the committed history of the old one; the status is the narration status; playback starts exactly when the reply is not blank and synthesis succeeded |
| `VoiceProcessor.BlankReplyChangesNothing` | voice_processor.py:52-90 | an empty or whitespace-only reply leaves the history unchanged, with status "No response to play" |
| `VoiceProcessor.FailedSynthesisChangesNothing` | voice_processor.py:53-89 | failed synthesis leaves the history unchanged, with status "Audio error: " followed by the error |
| `VoiceProcessor.PricedReplyAddsTwoTurns` | voice_processor.py:67-77 | with a city, exactly two turns are appended after the unchanged old turns: a tool turn with id "temp_id" and the city's price, then the assistant reply carrying the city; the status is the playing status |
| `VoiceProcessor.PlainReplyAddsOneTurn` | voice_processor.py:78-79 | without a city, exactly one assistant turn with the reply is appended |
| `VoiceProcessor.CommitAppendsOnly` | voice_processor.py:66-79 | every earlier turn keeps its position and value; the history grows exactly when the reply is narrated, and the newest turn is then the assistant's reply |
| `ImageGenerator.ArtistPrompt` | image_generator.py:15 | the prompt is the fixed opening text, the city, the fixed middle text, the city again and the fixed closing text, in that order, and nothing else |
| `ImageGenerator.PromptInjective` | image_generator.py:15 | different cities give different prompts |
| `ImageGenerator.Artist` | image_generator.py:11-22 | one image request is the service's answer to that request's number and the template prompt with the city in both places |
| `ImageGenerator.ParsePayload` | image_generator.py:35 | a payload is obtained only from content that serialises exactly that payload, and serialised payload content always parses back to it; text or missing content does not parse |
| `ImageGenerator.ToolCity` | image_generator.py:32-37 | a turn offers a city exactly when its role is tool, its content parses, and the payload's city is truthy; the city offered is the payload's |
| `ImageGenerator.Scan` | image_generator.py:31-42 | the loop, newest turn first: a turn that offers no city is skipped, the first successful request gives the image, and a failed request goes on to the older turns with the next request number; with no offering turn there is no image. `ScanFound` and `ScanExhausted` characterise its result |
| `ImageGenerator.GenerateImage` | image_generator.py:25-42 | an empty history yields no image without any request; otherwise the result is `Scan` from request 0 |
| `ImageGenerator.ScanFound` | image_generator.py:31-40 | an image comes from a turn that offers a city and whose request succeeded, where the request of every newer offering turn failed; request numbers count the offering turns already passed |
| `ImageGenerator.ScanExhausted` | image_generator.py:31-42 | no image means the request failed for every turn that offers a city |
| `ImageGenerator.SelectedDecides` | image_generator.py:31-40 | the newest turn that offers a city and whose request succeeds decides the image |
| `ImageGenerator.NewestCityWins` | image_generator.py:31-38 | when the first request, the one for the newest turn that offers a city, succeeds, the image is that city's |
| `ImageGenerator.NoCityNoImage` | image_generator.py:42 | with no turn that offers a city there is no image |
| `ImageGenerator.SkippedTurn` | image_generator.py:32-40 | a turn that offers no city, wherever it sits, is skipped without using up a request number |
| `ImageGenerator.UnqualifiedTurnIgnored` | image_generator.py:32-40 | removing a turn that offers no city (not a tool turn, unparsable, or without a truthy city) does not change the scan |
| `ImageGenerator.FailureFallsBack` | image_generator.py:37-40 | a failed request for the newest offering turn is swallowed; the result is that of the older turns, whose requests come one number later |
| `ImageGenerator.RetryOfSameCity` | image_generator.py:31-40 | with two tool turns for the same city, a failed request for the newer one followed by a successful one for the older one gives the older one's image |
| `ImageGenerator.PricedCommitDrivesImage` | voice_processor.py:67-77 | after a priced reply has been narrated, the next image is the image of that reply's city, provided the first request succeeds |
| `UiUtils.DoEntry` | ui_utils.py:1-4 | the textbox becomes "" and the history becomes the old history plus one user turn holding the message |
| `UiUtils.AfterVoice` | ui_utils.py:11-16 | the old turns are kept as a prefix, and exactly one turn, the user turn "🎤 " + text, is added when the text is accepted; nothing is added otherwise |
| `UiUtils.VoiceStatus` | ui_utils.py:11-16 | the status ends with the recognised text, and starts with "Voice recognized: " exactly when the text is accepted |
| `UiUtils.HandleVoiceInput` | ui_utils.py:6-16 | the new history and the status are those for the recognised text: one user turn "🎤 " + text and "Voice recognized: " + text when accepted, otherwise no change and "Voice input failed: " + text |
| `UiUtils.VoiceInputAppendsOnly` | ui_utils.py:11-16 | both branches keep the earlier turns in order; the history grows by one turn exactly when the text is accepted, and is otherwise unchanged |
| `UiUtils.RecognizerFailuresRejected` | ui_utils.py:11 | empty text, "No speech detected" and "Could not understand audio" are rejected with the failure status |
| `UiUtils.DetailedErrorsAccepted` | ui_utils.py:11 | "Error with speech recognition: " + detail and "Error: " + detail are never equal to a marker, so they are accepted |

## Left out

- The language-model calls (core.py:85-91, core.py:116-120) are oracle parameters. The model does not cover network errors, the `temperature` and `max_tokens` settings, or the model's own behaviour.
- Speech synthesis, the temporary audio file and the playback thread (voice_processor.py:55-64, voice_processor.py:82-84, voice_processor.py:92-102) are reduced to a synthesis outcome and a "playback started" flag. An exception raised after the history has been appended, such as a failing thread start, is not modelled.
- The image request and the base64 and image decoding (image_generator.py:13-22) are reduced to a parameter from request number and prompt to image, or to `None` when any of them raises. The service's own non-determinism is captured only through the request number.
- A history entry that is not a dictionary makes `generate_image_async` raise at image_generator.py:32, because `msg.get` is called outside the `try`. The scan's input is a sequence of messages, so that exception is not represented.
- The diagnostic `print` calls (core.py:18, voice_processor.py:88) are output only and are not modelled.
- Microphone capture and the recogniser (voice_processor.py:18-42) are out of scope. Their resulting string is the input of `HandleVoiceInput`.
- JSON text is not modelled. Payloads and tool-call arguments are records. A JSON value of another shape, such as a list, or a non-string `destination_city`, is not represented.
- `Strings.Lower` lower-cases ASCII letters only. Python's `str.lower` also maps some non-ASCII characters, for example the Kelvin sign to `k`. With those characters the model's lookup can answer "Unknown" where the source finds a price.
- Python's distinction between a missing key and a key holding `None` is not modelled, for `content` and for `tool_calls`. The source treats both cases alike everywhere in the core.
- `GenerateAudioAndUpdateChat` takes the reply as a string. `chat` can return a reply of `None`, because `message.content` can be `None` (core.py:121, core.py:126). The source treats `None` at voice_processor.py:52 like the empty string: it returns "No response to play" and changes nothing. `BlankReplyChangesNothing` covers that case, so the model does not repeat it for `None`.
- A history that is `None` rather than a list, as the Clear button leaves it, is not modelled.
- app.py's Gradio layout and event chaining, and test_voice.py's hardware smoke tests, are not part of this model.
