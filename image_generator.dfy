/** The destination image of image_generator.py: a newest-to-oldest scan of
    the history for a tool turn whose payload names a city, and the image
    request for that city. The image service is the parameter `generate`,
    from the request's number within the scan and its prompt to an image, or
    `None` when the request or its decoding raises. */
module ImageGenerator {
  import opened Messages
  import VoiceProcessor

  const PromptStart := "An image representing a vacation in "
  const PromptMiddle := ", showing tourist spots and everything unique about "
  const PromptEnd := ", in a vibrant pop-art style"

  /** The prompt `artist` sends: the fixed template with the city in both
      of its places. */
  function ArtistPrompt(city: string): (prompt: string)
    ensures |prompt| == |PromptStart| + |PromptMiddle| + |PromptEnd| + 2 * |city|
    ensures prompt[..|PromptStart|] == PromptStart
    ensures prompt[|PromptStart|..|PromptStart| + |city|] == city
    ensures prompt[|PromptStart| + |city|..|PromptStart| + |city| + |PromptMiddle|] == PromptMiddle
    ensures prompt[|PromptStart| + |city| + |PromptMiddle|..|PromptStart| + 2 * |city| + |PromptMiddle|] == city
    ensures prompt[|prompt| - |PromptEnd|..] == PromptEnd
  {
    PromptStart + city + PromptMiddle + city + PromptEnd
  }

  /** Different cities give different prompts. */
  lemma PromptInjective(a: string, b: string)
    requires ArtistPrompt(a) == ArtistPrompt(b)
    ensures a == b
  {
    assert |a| == |b|;
    assert a == ArtistPrompt(a)[|PromptStart|..|PromptStart| + |a|];
  }

  /** `artist(city)`: one request to the image service, the `attempt`-th of
      the scan (counting from 0), with the prompt for `city`; `None` when the
      request or the decoding of its answer raises. Numbering the requests
      lets two requests with the same prompt fare differently. */
  function Artist<I>(generate: (nat, string) -> Option<I>, attempt: nat, city: string): (r: Option<I>)
    ensures r == generate(attempt, PromptStart + city + PromptMiddle + city + PromptEnd)
  {
    generate(attempt, ArtistPrompt(city))
  }

  /** `json.loads` of a turn's content, as a price payload: a serialised
      payload parses back to itself; text and a missing content do not parse. */
  function ParsePayload(content: Option<Content>): (r: Option<Payload>)
    ensures r.Some? ==> content == Some(Json(r.value))
    ensures content.Some? && content.value.Json? ==> r == Some(content.value.payload)
  {
    match content
    case Some(Json(p)) => Some(p)
    case _ => None
  }

  /** The city a turn offers the scan: a tool turn whose content parses and
      whose `destination_city` is truthy. */
  function ToolCity(m: Message): (r: Option<string>)
    ensures r.Some? ==> m.role == Tool && r.value != ""
    ensures r.Some? ==> ParsePayload(m.content).Some? && ParsePayload(m.content).value.destinationCity == r
    ensures m.role == Tool && ParsePayload(m.content).Some? && Truthy(ParsePayload(m.content).value.destinationCity) ==>
      r == ParsePayload(m.content).value.destinationCity
  {
    if m.role != Tool then None
    else match ParsePayload(m.content)
      case None => None
      case Some(p) => if Truthy(p.destinationCity) then p.destinationCity else None
  }

  /** The number of turns in `s` that offer a city. */
  function Offers(s: seq<Message>): (n: nat)
    ensures n <= |s|
  {
    if |s| == 0 then 0
    else Offers(s[..|s| - 1]) + (if ToolCity(s[|s| - 1]).Some? then 1 else 0)
  }

  lemma {:induction false} NoOffers(s: seq<Message>)
    requires forall j :: 0 <= j < |s| ==> ToolCity(s[j]).None?
    ensures Offers(s) == 0
    decreases |s|
  {
    if |s| > 0 {
      NoOffers(s[..|s| - 1]);
    }
  }

  /** The loop of `generate_image_async` over `history`, newest turn first,
      when `attempt` image requests have already been made. */
  function Scan<I>(history: seq<Message>, generate: (nat, string) -> Option<I>, attempt: nat): (r: Option<I>)
    ensures (forall i :: 0 <= i < |history| ==> ToolCity(history[i]).None?) ==> r.None?
    decreases |history|
  {
    if |history| == 0 then None
    else
      var earlier := history[..|history| - 1];
      match ToolCity(history[|history| - 1])
      case None => Scan(earlier, generate, attempt)
      case Some(city) =>
        match Artist(generate, attempt, city)
        case Some(image) => Some(image)
        case None => Scan(earlier, generate, attempt + 1)
  }

  /** `generate_image_async`: no image for an empty history, otherwise the
      scan starting with no request made. */
  function GenerateImage<I>(history: seq<Message>, generate: (nat, string) -> Option<I>): (r: Option<I>)
    ensures history == [] ==> r.None?
    ensures history != [] ==> r == Scan(history, generate, 0)
  {
    if |history| == 0 then None else Scan(history, generate, 0)
  }

  /** One step of the scan, on the newest turn of a non-empty history. */
  lemma ScanStep<I>(history: seq<Message>, generate: (nat, string) -> Option<I>, attempt: nat)
    requires |history| > 0
    ensures var n := |history|;
      var city := ToolCity(history[n - 1]);
      && (city.None? ==> Scan(history, generate, attempt) == Scan(history[..n - 1], generate, attempt))
      && (city.Some? && Artist(generate, attempt, city.value).None? ==>
            Scan(history, generate, attempt) == Scan(history[..n - 1], generate, attempt + 1))
      && (city.Some? && Artist(generate, attempt, city.value).Some? ==>
            Scan(history, generate, attempt) == Artist(generate, attempt, city.value))
  {
  }

  /** The request the scan makes for turn `i`: one more than those made for
      the offering turns newer than it. */
  function AttemptAt(history: seq<Message>, attempt: nat, i: int): nat
    requires 0 <= i < |history|
  {
    attempt + Offers(history[i + 1..])
  }

  /** Turn `i` is the one whose image is returned: it offers a city whose
      request succeeds, and the request of every newer offering turn failed. */
  ghost predicate Selected<I>(history: seq<Message>, generate: (nat, string) -> Option<I>, attempt: nat, i: int) {
    && 0 <= i < |history|
    && ToolCity(history[i]).Some?
    && Artist(generate, AttemptAt(history, attempt, i), ToolCity(history[i]).value).Some?
    && forall j :: i < j < |history| && ToolCity(history[j]).Some? ==>
        Artist(generate, AttemptAt(history, attempt, j), ToolCity(history[j]).value).None?
  }

  /** Dropping the newest turn moves every older turn's request number down
      by one when the newest turn offers a city. */
  lemma AttemptAtEarlier(history: seq<Message>, attempt: nat, i: int)
    requires 0 <= i < |history| - 1
    ensures var n := |history|;
      AttemptAt(history, attempt, i)
        == AttemptAt(history[..n - 1], attempt + (if ToolCity(history[n - 1]).Some? then 1 else 0), i)
  {
    var n := |history|;
    var tail := history[i + 1..];
    assert tail[..|tail| - 1] == history[..n - 1][i + 1..];
    assert tail[|tail| - 1] == history[n - 1];
  }

  /** One step of the scan: every older turn's request number after
      dropping the newest turn. */
  lemma AttemptsOfEarlier(history: seq<Message>, attempt: nat)
    requires |history| > 0
    ensures var n := |history|;
      var next := attempt + (if ToolCity(history[n - 1]).Some? then 1 else 0);
      && AttemptAt(history, attempt, n - 1) == attempt
      && forall i :: 0 <= i < n - 1 ==> AttemptAt(history, attempt, i) == AttemptAt(history[..n - 1], next, i)
  {
    var n := |history|;
    assert history[n..] == [];
    forall i | 0 <= i < n - 1
      ensures AttemptAt(history, attempt, i)
        == AttemptAt(history[..n - 1], attempt + (if ToolCity(history[n - 1]).Some? then 1 else 0), i)
    {
      AttemptAtEarlier(history, attempt, i);
    }
  }

  /** A turn selected among the older turns stays selected when the newest
      turn offers no city or its request fails. */
  lemma SelectedLifts<I>(history: seq<Message>, generate: (nat, string) -> Option<I>, attempt: nat, k: int)
    requires |history| > 0
    requires var city := ToolCity(history[|history| - 1]);
      city.None? || Artist(generate, attempt, city.value).None?
    requires Selected(history[..|history| - 1], generate,
                      attempt + (if ToolCity(history[|history| - 1]).Some? then 1 else 0), k)
    ensures Selected(history, generate, attempt, k)
  {
    var n := |history|;
    var earlier := history[..n - 1];
    var next := attempt + (if ToolCity(history[n - 1]).Some? then 1 else 0);
    AttemptAtEarlier(history, attempt, k);
    assert earlier[k] == history[k];
    forall j | k < j < n && ToolCity(history[j]).Some?
      ensures Artist(generate, AttemptAt(history, attempt, j), ToolCity(history[j]).value).None?
    {
      if j < n - 1 {
        AttemptAtEarlier(history, attempt, j);
        assert earlier[j] == history[j];
      } else {
        assert history[j + 1..] == [];
      }
    }
  }

  /** An image comes from the selected turn. */
  lemma {:induction false} ScanFound<I>(history: seq<Message>, generate: (nat, string) -> Option<I>, attempt: nat)
    requires Scan(history, generate, attempt).Some?
    ensures exists i ::
      && Selected(history, generate, attempt, i)
      && Scan(history, generate, attempt) == Artist(generate, AttemptAt(history, attempt, i), ToolCity(history[i]).value)
    decreases |history|
  {
    var n := |history|;
    var earlier := history[..n - 1];
    var city := ToolCity(history[n - 1]);
    var next := attempt + (if city.Some? then 1 else 0);
    ScanStep(history, generate, attempt);
    if city.Some? && Artist(generate, attempt, city.value).Some? {
      assert history[n..] == [];
      assert Selected(history, generate, attempt, n - 1);
      assert Scan(history, generate, attempt) == Artist(generate, AttemptAt(history, attempt, n - 1), city.value);
    } else {
      assert Scan(history, generate, attempt) == Scan(earlier, generate, next);
      ScanFound(earlier, generate, next);
      var k :| Selected(earlier, generate, next, k)
        && Scan(earlier, generate, next) == Artist(generate, AttemptAt(earlier, next, k), ToolCity(earlier[k]).value);
      SelectedLifts(history, generate, attempt, k);
      AttemptAtEarlier(history, attempt, k);
      assert earlier[k] == history[k];
      assert Scan(history, generate, attempt) == Artist(generate, AttemptAt(history, attempt, k), ToolCity(history[k]).value);
    }
  }

  /** No image means the request for every offering turn failed. */
  lemma {:induction false} ScanExhausted<I>(history: seq<Message>, generate: (nat, string) -> Option<I>, attempt: nat)
    requires Scan(history, generate, attempt).None?
    ensures forall i :: 0 <= i < |history| && ToolCity(history[i]).Some? ==>
      Artist(generate, AttemptAt(history, attempt, i), ToolCity(history[i]).value).None?
    decreases |history|
  {
    if |history| > 0 {
      var n := |history|;
      var earlier := history[..n - 1];
      var city := ToolCity(history[n - 1]);
      var next := attempt + (if city.Some? then 1 else 0);
      AttemptsOfEarlier(history, attempt);
      ScanStep(history, generate, attempt);
      assert Scan(history, generate, attempt) == Scan(earlier, generate, next);
      ScanExhausted(earlier, generate, next);
    }
  }

  /** The selected turn decides the result. */
  lemma SelectedDecides<I>(history: seq<Message>, generate: (nat, string) -> Option<I>, attempt: nat, i: int)
    requires Selected(history, generate, attempt, i)
    ensures Scan(history, generate, attempt) == Artist(generate, AttemptAt(history, attempt, i), ToolCity(history[i]).value)
  {
    var r := Scan(history, generate, attempt);
    if r.Some? {
      ScanFound(history, generate, attempt);
      var k :| Selected(history, generate, attempt, k)
        && r == Artist(generate, AttemptAt(history, attempt, k), ToolCity(history[k]).value);
      assert !(k < i) && !(i < k);
    } else {
      ScanExhausted(history, generate, attempt);
    }
  }

  /** When the first request, the one for the newest offering turn, succeeds,
      the image is that of its city. */
  lemma NewestCityWins<I>(history: seq<Message>, generate: (nat, string) -> Option<I>, i: int)
    requires 0 <= i < |history| && ToolCity(history[i]).Some?
    requires forall j :: i < j < |history| ==> ToolCity(history[j]).None?
    requires Artist(generate, 0, ToolCity(history[i]).value).Some?
    ensures GenerateImage(history, generate) == Artist(generate, 0, ToolCity(history[i]).value)
  {
    NoOffers(history[i + 1..]);
    SelectedDecides(history, generate, 0, i);
  }

  /** Without a turn that offers a city there is no image. */
  lemma NoCityNoImage<I>(history: seq<Message>, generate: (nat, string) -> Option<I>)
    requires forall i :: 0 <= i < |history| ==> ToolCity(history[i]).None?
    ensures GenerateImage(history, generate) == None
  {
    if GenerateImage(history, generate).Some? {
      ScanFound(history, generate, 0);
    }
  }

  /** A turn that offers no city, with `newer` turns after it, is skipped by
      the scan without using up a request number. */
  lemma {:induction false} SkippedTurn<I>(older: seq<Message>, m: Message, newer: seq<Message>,
                                          generate: (nat, string) -> Option<I>, attempt: nat)
    requires ToolCity(m).None?
    ensures Scan(older + [m] + newer, generate, attempt) == Scan(older + newer, generate, attempt)
    decreases |newer|
  {
    var withM := older + [m] + newer;
    var withoutM := older + newer;
    ScanStep(withM, generate, attempt);
    if |newer| == 0 {
      assert withM[..|withM| - 1] == withoutM;
    } else {
      var rest := newer[..|newer| - 1];
      var last := newer[|newer| - 1];
      assert withM[..|withM| - 1] == older + [m] + rest && withM[|withM| - 1] == last;
      assert withoutM[..|withoutM| - 1] == older + rest && withoutM[|withoutM| - 1] == last;
      ScanStep(withoutM, generate, attempt);
      var city := ToolCity(last);
      if city.Some? && Artist(generate, attempt, city.value).None? {
        SkippedTurn(older, m, rest, generate, attempt + 1);
      } else {
        SkippedTurn(older, m, rest, generate, attempt);
      }
    }
  }

  /** A turn that offers no city (not a tool turn, unparsable, or without a
      truthy city) can be removed without changing the scan. */
  lemma UnqualifiedTurnIgnored<I>(history: seq<Message>, generate: (nat, string) -> Option<I>, attempt: nat, i: int)
    requires 0 <= i < |history| && ToolCity(history[i]).None?
    ensures Scan(history[..i] + history[i + 1..], generate, attempt) == Scan(history, generate, attempt)
  {
    assert history == history[..i] + [history[i]] + history[i + 1..];
    SkippedTurn(history[..i], history[i], history[i + 1..], generate, attempt);
  }

  /** A failed request for the newest offering turn is swallowed: the scan
      goes on to the older turns with the next request. */
  lemma FailureFallsBack<I>(history: seq<Message>, m: Message, generate: (nat, string) -> Option<I>, attempt: nat)
    requires ToolCity(m).Some? && Artist(generate, attempt, ToolCity(m).value).None?
    ensures Scan(history + [m], generate, attempt) == Scan(history, generate, attempt + 1)
  {
    assert (history + [m])[..|history|] == history;
  }

  /** Two tool turns for the same city where the newer request fails and the
      older one succeeds: the image comes from the older turn. */
  lemma RetryOfSameCity<I>(image: I)
    ensures var paris := Message(Tool, Some(Json(Payload(Some("Paris"), "$899"))), Some("temp_id"), None, []);
      GenerateImage([paris, paris], (k: nat, prompt: string) => if k == 0 then None else Some(image)) == Some(image)
  {
    var paris := Message(Tool, Some(Json(Payload(Some("Paris"), "$899"))), Some("temp_id"), None, []);
    var h := [paris, paris];
    var generate := (k: nat, prompt: string) => if k == 0 then None else Some(image);
    assert ToolCity(paris) == Some("Paris");
    assert Artist(generate, 0, "Paris") == None;
    assert Artist(generate, 1, "Paris") == Some(image);
    assert h[..1] == [paris];
    assert Scan(h, generate, 0) == Scan([paris], generate, 1);
  }

  /** Once a priced reply has been narrated, the image is that of its city
      whenever the first request succeeds. */
  lemma PricedCommitDrivesImage<I>(reply: string, city: string, turns: seq<Message>, generate: (nat, string) -> Option<I>)
    requires VoiceProcessor.Commits(reply, VoiceProcessor.Synthesized) && city != ""
    requires Artist(generate, 0, city).Some?
    ensures GenerateImage(VoiceProcessor.Committed(reply, Some(city), turns, VoiceProcessor.Synthesized), generate)
      == Artist(generate, 0, city)
  {
    var after := VoiceProcessor.Committed(reply, Some(city), turns, VoiceProcessor.Synthesized);
    assert ToolCity(after[|turns|]) == Some(city);
    assert ToolCity(after[|turns| + 1]).None?;
    NewestCityWins(after, generate, |turns|);
  }
}
