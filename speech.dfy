/** Speech recognition of Telegram voice messages and audio files: the recognised text
    is pieced together from the service's result list. Every failure of the token,
    the request or the answer gives the empty string; nothing is raised. */
module Speech {
  import opened Wrappers
  import opened Strings
  import opened Tokens

  /** One entry of the service's `result` list; either field may be absent or null. */
  datatype SpeechResult = SpeechResult(normalizedText: Option<string>, text: Option<string>)

  /** An answer of the recognition endpoint: its status, its `result` list (empty when
      absent) and its top-level `text` (when present). */
  datatype SpeechAnswer = SpeechAnswer(status: int, results: seq<SpeechResult>, text: Option<string>)

  /** What was sent to the recognition endpoint: the audio and its content type. */
  datatype SpeechRequest = SpeechRequest(audio: seq<bv8>, contentType: string)

  const VOICE_CONTENT_TYPE: string := "audio/ogg;codecs=opus"
  const DEFAULT_CONTENT_TYPE: string := "audio/mpeg"

  /** The content types accepted for audio files, by their Telegram MIME type. */
  const MIME_MAP: map<string, string> := map[
    "audio/mpeg" := "audio/mpeg",
    "audio/mp3" := "audio/mpeg",
    "audio/ogg" := "audio/ogg;codecs=opus",
    "audio/wav" := "audio/wav",
    "audio/x-wav" := "audio/wav"]

  /** The content type sent for an audio file: from the table, or "audio/mpeg". */
  function ContentTypeFor(mime: string): (t: string)
    ensures mime in MIME_MAP ==> t == MIME_MAP[mime]
    ensures mime !in MIME_MAP ==> t == DEFAULT_CONTENT_TYPE
    ensures t in MIME_MAP.Values
  {
    assert MIME_MAP["audio/mpeg"] == DEFAULT_CONTENT_TYPE;
    if mime in MIME_MAP then MIME_MAP[mime] else DEFAULT_CONTENT_TYPE
  }

  /** The text one result contributes: the normalised text unless it is absent or
      empty, then the plain text, empty when absent. */
  function PartOf(r: SpeechResult): string {
    if r.normalizedText.Some? && r.normalizedText.value != "" then r.normalizedText.value
    else r.text.GetOr("")
  }

  /** The non-empty contributions, in result order. */
  function Parts(results: seq<SpeechResult>): (parts: seq<string>)
    ensures |parts| <= |results|
    ensures forall p :: p in parts ==> p != ""
  {
    if results == [] then []
    else
      var p := PartOf(results[|results| - 1]);
      Parts(results[..|results| - 1]) + (if p != "" then [p] else [])
  }

  /** The recognised text: the contributions joined by single spaces, stripped. */
  function Recognised(results: seq<SpeechResult>): string {
    Strip(Join(Parts(results), " "))
  }

  /** Collects the contributions one result at a time and joins them. */
  method ExtractText(results: seq<SpeechResult>) returns (text: string)
    ensures text == Recognised(results)
  {
    var textParts: seq<string> := [];
    var k := 0;
    while k < |results|
      invariant 0 <= k <= |results|
      invariant textParts == Parts(results[..k])
    {
      assert results[..k + 1][..k] == results[..k];
      var r := results[k];
      var t := if r.normalizedText.Some? && r.normalizedText.value != "" then r.normalizedText.value
               else r.text.GetOr("");
      if t != "" {
        textParts := textParts + [t];
      }
      k := k + 1;
    }
    assert results[..k] == results;
    text := Strip(Join(textParts, " "));
  }

  /** The text of a voice answer: the top-level text when the result list is empty,
      otherwise the recognised text; a non-200 answer or a failed request gives "". */
  function VoiceText(answer: Result<SpeechAnswer>): string {
    match answer
    case Err(_) => ""
    case Ok(a) =>
      if a.status != 200 then ""
      else if a.results == [] then a.text.GetOr("")
      else Recognised(a.results)
  }

  /** The text of an audio answer: as for voice, but with no top-level fallback. */
  function AudioText(answer: Result<SpeechAnswer>): string {
    match answer
    case Err(_) => ""
    case Ok(a) => if a.status != 200 then "" else Recognised(a.results)
  }

  /** Recognises a voice message. Empty audio gives "" with no token and no request.
      Otherwise a token is obtained through the cache (`auth` is the OAuth answer,
      arriving at `doneAt`); without one the result is "" and nothing is sent. With
      one, the audio is sent as Ogg Opus and `answer` is what came back. */
  method RecognizeVoice(cache: TokenCache, audio: seq<bv8>, now: int, auth: AuthResponse, doneAt: int,
                        answer: Result<SpeechAnswer>)
    returns (sent: Option<SpeechRequest>, text: string)
    modifies cache
    ensures audio == [] ==> sent.None? && text == "" && cache.State() == old(cache.State())
    ensures audio != [] ==>
              cache.State() == (if Reusable(old(cache.State()), now) then old(cache.State())
                                else AfterFetch(old(cache.State()), auth, doneAt))
    ensures sent.Some? <==> audio != [] && TokenFor(old(cache.State()), now, auth).Ok?
    ensures sent.Some? ==> sent.value == SpeechRequest(audio, VOICE_CONTENT_TYPE) && text == VoiceText(answer)
    ensures sent.None? ==> text == ""
  {
    if audio == [] {
      return None, "";
    }
    var token := cache.GetToken(now, auth, doneAt);
    if token.Err? {
      return None, "";
    }
    sent := Some(SpeechRequest(audio, VOICE_CONTENT_TYPE));
    if answer.Err? || answer.value.status != 200 {
      return sent, "";
    }
    var a := answer.value;
    if a.results == [] {
      return sent, a.text.GetOr("");
    }
    text := ExtractText(a.results);
  }

  /** Recognises an audio file of MIME type `mime`, as for voice but sent with the
      mapped content type and without the top-level text fallback. */
  method RecognizeAudio(cache: TokenCache, audio: seq<bv8>, mime: string, now: int, auth: AuthResponse,
                        doneAt: int, answer: Result<SpeechAnswer>)
    returns (sent: Option<SpeechRequest>, text: string)
    modifies cache
    ensures audio == [] ==> sent.None? && text == "" && cache.State() == old(cache.State())
    ensures audio != [] ==>
              cache.State() == (if Reusable(old(cache.State()), now) then old(cache.State())
                                else AfterFetch(old(cache.State()), auth, doneAt))
    ensures sent.Some? <==> audio != [] && TokenFor(old(cache.State()), now, auth).Ok?
    ensures sent.Some? ==> sent.value == SpeechRequest(audio, ContentTypeFor(mime)) && text == AudioText(answer)
    ensures sent.None? ==> text == ""
  {
    if audio == [] {
      return None, "";
    }
    var contentType := if mime in MIME_MAP then MIME_MAP[mime] else DEFAULT_CONTENT_TYPE;
    var token := cache.GetToken(now, auth, doneAt);
    if token.Err? {
      return None, "";
    }
    sent := Some(SpeechRequest(audio, contentType));
    if answer.Err? || answer.value.status != 200 {
      return sent, "";
    }
    text := ExtractText(answer.value.results);
  }

  /** Contributions are taken result by result, so their order is the results' order. */
  lemma {:induction false} PartsInOrder(a: seq<SpeechResult>, b: seq<SpeechResult>)
    ensures Parts(a + b) == Parts(a) + Parts(b)
    decreases |b|
  {
    if b == [] {
      assert a + b == a;
    } else {
      var init := b[..|b| - 1];
      assert (a + b)[..|a + b| - 1] == a + init;
      PartsInOrder(a, init);
    }
  }

  /** A single result contributes its normalised text, or its plain text when the
      normalised one is empty, stripped. */
  lemma SingleResult(r: SpeechResult)
    ensures Recognised([r]) == Strip(PartOf(r))
  {
    assert [r][..0] == [];
  }

  /** The two paths differ only when the result list is empty: then voice falls back
      to the top-level text and audio gives "". */
  lemma VoiceAndAudioAgree(answer: Result<SpeechAnswer>)
    ensures answer.Ok? && answer.value.results != [] ==> VoiceText(answer) == AudioText(answer)
    ensures answer.Ok? && answer.value.status == 200 && answer.value.results == [] ==>
              AudioText(answer) == "" && VoiceText(answer) == answer.value.text.GetOr("")
  {
    assert Join([], " ") == "";
    assert Strip("") == "";
  }
}
