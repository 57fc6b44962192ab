/** The speech proxy handler (`api/gemini-tts-function.js`): the same checks as
    the text proxy on `text`, then one request for audio output, with an
    accent instruction and the Kore voice for Arabic and the text verbatim
    with the Puck voice otherwise; the reply's inline audio data is returned,
    or null. */
module SpeechProxy {
  import opened Wrappers
  import opened JsValue
  import opened Proxy

  const Model := "gemini-2.5-flash-preview-tts"
  const MissingText := Response(400, ErrorBody("Missing \"text\" in body"))
  const UpstreamFailed := "Failed to fetch from Gemini TTS API"
  const AccentInstruction := "Say in a warm, natural Lebanese accent: "

  /** `lang === 'ar'`. */
  predicate IsArabic(lang: Value)
    ensures IsArabic(lang) <==> lang.Str? && lang.s == "ar"
  {
    lang == Str("ar")
  }

  /** The prompt: for Arabic the template literal
      `Say in a warm, natural Lebanese accent: ${text}`, which throws (None)
      when `text` has no string form; otherwise the text as received (not
      converted to a string). */
  function SpeechPrompt(text: Value, lang: Value): (p: Option<Value>)
    ensures !IsArabic(lang) ==> p == Some(text)
    ensures IsArabic(lang) ==> (p.None? <==> ToString(text).None?)
    ensures IsArabic(lang) && p.Some? ==> p.value == Str(AccentInstruction + ToString(text).value)
  {
    if !IsArabic(lang) then Some(text)
    else match ToString(text)
      case None => None
      case Some(s) => Some(Str(AccentInstruction + s))
  }

  /** The prebuilt voice: Kore for Arabic, Puck for anything else. */
  function VoiceName(lang: Value): (v: string)
    ensures v == "Kore" <==> IsArabic(lang)
    ensures v == "Puck" <==> !IsArabic(lang)
  {
    if IsArabic(lang) then "Kore" else "Puck"
  }

  /** The body sent upstream: the prompt in the only part of the only content,
      audio as the only response modality, the chosen voice, and the model. */
  function Payload(prompt: Value, voice: string): (p: Value)
    ensures p.Obj? && p.props.Keys == {"contents", "generationConfig", "model"}
  {
    Obj(map[
      "contents" := Arr([Obj(map["parts" := Arr([Obj(map["text" := prompt])])])]),
      "generationConfig" := Obj(map[
        "responseModalities" := Arr([Str("AUDIO")]),
        "speechConfig" := Obj(map["voiceConfig" := Obj(map["prebuiltVoiceConfig" :=
          Obj(map["voiceName" := Str(voice)])])])]),
      "model" := Str(Model)])
  }

  /** `result?.candidates?.[0]?.content?.parts?.[0]?.inlineData?.data || null`. */
  function AudioData(result: Value): (a: Value)
    ensures Truthy(FromFirstPart(result, [Name("inlineData"), Name("data")])) ==>
      a == FromFirstPart(result, [Name("inlineData"), Name("data")])
    ensures !Truthy(FromFirstPart(result, [Name("inlineData"), Name("data")])) ==> a == Null
  {
    Or(FromFirstPart(result, [Name("inlineData"), Name("data")]), Null)
  }

  /** The handler: method (405), then `text` (400), then the key (500), each
      answering before anything after it is looked at; then the prompt, whose
      exception is a 500 with no request; only then the upstream request,
      whose failure is relayed with its status, whose exception is a 500, and
      whose success is 200 with the audio data or null. */
  function Handle(req: Request, apiKey: Option<string>, upstream: Upstream): (x: Exchange)
    ensures req.httpMethod != "POST" ==> x == Exchange(MethodNotAllowed, None)
    ensures req.httpMethod == "POST" && !Truthy(BodyField(req, "text")) ==> x == Exchange(MissingText, None)
    ensures req.httpMethod == "POST" && Truthy(BodyField(req, "text")) && !HasKey(apiKey) ==>
      x == Exchange(MissingKey, None)
    ensures (req.httpMethod == "POST" && Truthy(BodyField(req, "text")) && HasKey(apiKey)
             && SpeechPrompt(BodyField(req, "text"), BodyField(req, "lang")).None?) ==>
      x == Exchange(InternalError, None)
    ensures x.call.Some? <==>
      (req.httpMethod == "POST" && Truthy(BodyField(req, "text")) && HasKey(apiKey)
       && SpeechPrompt(BodyField(req, "text"), BodyField(req, "lang")).Some?)
    ensures x.call.Some? ==> x.call.value == Call(ApiUrl(Model, apiKey.value),
      Payload(SpeechPrompt(BodyField(req, "text"), BodyField(req, "lang")).value, VoiceName(BodyField(req, "lang"))))
    ensures x.call.Some? && upstream.UpstreamErr? ==>
      x.response == Response(upstream.status, ErrorWithDetails(UpstreamFailed, upstream.text))
    ensures x.call.Some? && upstream.UpstreamOk? ==>
      x.response == Response(200, Obj(map["audioDataB64" := AudioData(upstream.result)]))
    ensures x.call.Some? && upstream.Throws? ==> x.response == InternalError
  {
    if req.httpMethod != "POST" then Exchange(MethodNotAllowed, None)
    else
      var text := BodyField(req, "text");
      var lang := BodyField(req, "lang");
      if !Truthy(text) then Exchange(MissingText, None)
      else if !HasKey(apiKey) then Exchange(MissingKey, None)
      else match SpeechPrompt(text, lang)
      case None => Exchange(InternalError, None)
      case Some(prompt) =>
        var call := Call(ApiUrl(Model, apiKey.value), Payload(prompt, VoiceName(lang)));
        match upstream
        case UpstreamErr(status, errorText) =>
          Exchange(Response(status, ErrorWithDetails(UpstreamFailed, errorText)), Some(call))
        case UpstreamOk(result) =>
          Exchange(Response(200, Obj(map["audioDataB64" := AudioData(result)])), Some(call))
        case Throws =>
          Exchange(InternalError, Some(call))
  }

  /** A request that is not a POST is answered the same way whatever its body,
      the key and the upstream service. */
  lemma MethodCheckedFirst(r1: Request, k1: Option<string>, u1: Upstream, r2: Request, k2: Option<string>, u2: Upstream)
    requires r1.httpMethod == r2.httpMethod && r1.httpMethod != "POST"
    ensures Handle(r1, k1, u1) == Handle(r2, k2, u2)
    ensures Handle(r1, k1, u1).response.status == 405 && Handle(r1, k1, u1).call.None?
  {
  }

  /** A POST without a truthy text gets 400 whatever the language, the key and
      the upstream service. */
  lemma TextCheckedBeforeKey(req: Request, k1: Option<string>, u1: Upstream, k2: Option<string>, u2: Upstream)
    requires req.httpMethod == "POST" && !Truthy(BodyField(req, "text"))
    ensures Handle(req, k1, u1) == Handle(req, k2, u2)
    ensures Handle(req, k1, u1).response.status == 400 && Handle(req, k1, u1).call.None?
  {
  }

  /** The prompt travels as the text of the only part of the only content,
      and audio is the only response modality. */
  lemma PayloadCarriesPrompt(prompt: Value, voice: string)
    ensures var p := Payload(prompt, voice);
      && OptPath(p, [Name("contents"), Index(0), Name("parts"), Index(0), Name("text")]) == prompt
      && OptPath(p, [Name("generationConfig"), Name("responseModalities")]) == Arr([Str("AUDIO")])
  {
    assert KeyString(Index(0)) == "0";
    var path := [Name("contents"), Index(0), Name("parts"), Index(0), Name("text")];
    assert path[1..] == [Index(0), Name("parts"), Index(0), Name("text")];
    assert path[1..][1..] == [Name("parts"), Index(0), Name("text")];
    assert path[1..][1..][1..] == [Index(0), Name("text")];
    assert path[1..][1..][1..][1..] == [Name("text")];
    var modalities := [Name("generationConfig"), Name("responseModalities")];
    assert modalities[1..] == [Name("responseModalities")];
  }

  /** The voice travels as the prebuilt voice of the speech configuration. */
  lemma PayloadCarriesVoice(prompt: Value, voice: string)
    ensures OptPath(Payload(prompt, voice), [Name("generationConfig"), Name("speechConfig"),
      Name("voiceConfig"), Name("prebuiltVoiceConfig"), Name("voiceName")]) == Str(voice)
  {
    var p := Payload(prompt, voice);
    var path := [Name("generationConfig"), Name("speechConfig"), Name("voiceConfig"),
                 Name("prebuiltVoiceConfig"), Name("voiceName")];
    var named := Obj(map["voiceName" := Str(voice)]);
    var prebuilt := Obj(map["prebuiltVoiceConfig" := named]);
    var speech := Obj(map["voiceConfig" := prebuilt]);
    var config := Obj(map[
      "responseModalities" := Arr([Str("AUDIO")]),
      "speechConfig" := speech]);
    assert OptGet(p, path[0]) == config;
    assert path[1..] == [Name("speechConfig"), Name("voiceConfig"), Name("prebuiltVoiceConfig"), Name("voiceName")];
    assert OptGet(config, path[1..][0]) == speech;
    assert path[1..][1..] == [Name("voiceConfig"), Name("prebuiltVoiceConfig"), Name("voiceName")];
    assert OptGet(speech, path[1..][1..][0]) == prebuilt;
    assert path[1..][1..][1..] == [Name("prebuiltVoiceConfig"), Name("voiceName")];
    assert OptGet(prebuilt, path[1..][1..][1..][0]) == named;
    assert path[1..][1..][1..][1..] == [Name("voiceName")];
  }

  /** For a string text, the forwarded prompt is the accent instruction followed
      by the text exactly when the language is "ar", the text verbatim
      otherwise, and the voice is Kore exactly for "ar". */
  lemma ArabicGetsAccentAndKore(text: string, lang: Value)
    ensures SpeechPrompt(Str(text), lang).Some?
    ensures var p := Payload(SpeechPrompt(Str(text), lang).value, VoiceName(lang));
      && OptPath(p, [Name("contents"), Index(0), Name("parts"), Index(0), Name("text")])
         == Str(if lang == Str("ar") then AccentInstruction + text else text)
      && OptPath(p, [Name("generationConfig"), Name("speechConfig"), Name("voiceConfig"),
                     Name("prebuiltVoiceConfig"), Name("voiceName")])
         == Str(if lang == Str("ar") then "Kore" else "Puck")
  {
    PayloadCarriesPrompt(SpeechPrompt(Str(text), lang).value, VoiceName(lang));
    PayloadCarriesVoice(SpeechPrompt(Str(text), lang).value, VoiceName(lang));
  }

  /** With an upstream service that behaves as `fetch` does, the response is 200
      exactly when the request was forwarded and answered ok, and every other
      response carries an `error` message. A reply without audio is still a
      200, with `audioDataB64: null`. */
  lemma SuccessIffUpstreamOk(req: Request, apiKey: Option<string>, upstream: Upstream)
    requires WellFormed(upstream)
    ensures var x := Handle(req, apiKey, upstream);
      && (x.response.status == 200 <==> x.call.Some? && upstream.UpstreamOk?)
      && (x.response.status != 200 ==> x.response.body.Obj? && "error" in x.response.body.props)
  {
  }

  /** A reply whose first part carries inline data `d` (not empty) is answered
      with exactly that data, unless the prompt threw before the request. */
  lemma RelaysInlineData(req: Request, apiKey: string, d: string)
    requires req.httpMethod == "POST" && Truthy(BodyField(req, "text")) && apiKey != ""
    requires d != ""
    ensures Handle(req, Some(apiKey), UpstreamOk(ReplyWithPart(Obj(map["inlineData" := Obj(map["data" := Str(d)])])))).response
      == if SpeechPrompt(BodyField(req, "text"), BodyField(req, "lang")).None? then InternalError
         else Response(200, Obj(map["audioDataB64" := Str(d)]))
  {
    var part := Obj(map["inlineData" := Obj(map["data" := Str(d)])]);
    var path := [Name("inlineData"), Name("data")];
    FirstPartOfReply(part, path);
    assert path[1..] == [Name("data")];
    assert [Name("data")][1..] == [];
  }

  /** A reply without candidates yields `audioDataB64: null`, not an error,
      unless the prompt threw before the request. */
  lemma NullAudioWithoutCandidates(req: Request, apiKey: string, result: Value)
    requires req.httpMethod == "POST" && Truthy(BodyField(req, "text")) && apiKey != ""
    requires Nullish(result) || (result.Obj? && "candidates" !in result.props)
    ensures Handle(req, Some(apiKey), UpstreamOk(result)).response
      == if SpeechPrompt(BodyField(req, "text"), BodyField(req, "lang")).None? then InternalError
         else Response(200, Obj(map["audioDataB64" := Null]))
  {
    NoCandidates(result, [Name("inlineData"), Name("data")]);
  }

  /** A text with its own `toString` member has no string form: for "ar" the
      template literal throws, so the answer is 500 and nothing is requested;
      for any other language the object is forwarded as received. */
  lemma UnconvertibleText(req: Request, apiKey: string, upstream: Upstream)
    requires req.httpMethod == "POST" && apiKey != ""
    requires BodyField(req, "text").Obj? && "toString" in BodyField(req, "text").props
    ensures IsArabic(BodyField(req, "lang")) ==> Handle(req, Some(apiKey), upstream) == Exchange(InternalError, None)
    ensures !IsArabic(BodyField(req, "lang")) ==> Handle(req, Some(apiKey), upstream).call.Some?
  {
  }
}
