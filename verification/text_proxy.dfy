/** The text proxy handler (`api/gemini-function.js`): POST only, a truthy
    `prompt` in the body, an API key in the environment; then one request to
    the generative-language API asking for a JSON reply, whose first
    candidate's first text part is returned. */
module TextProxy {
  import opened Wrappers
  import opened JsValue
  import opened Proxy

  const Model := "gemini-2.5-flash-preview-05-20"
  const MissingPrompt := Response(400, ErrorBody("Missing \"prompt\" in body"))
  const UpstreamFailed := "Failed to fetch from Gemini API"

  /** The body sent upstream: one content with one part holding the prompt as
      received, and a request for an `application/json` reply. */
  function Payload(prompt: Value): (p: Value)
    ensures p.Obj? && p.props.Keys == {"contents", "generationConfig"}
  {
    Obj(map[
      "contents" := Arr([Obj(map["parts" := Arr([Obj(map["text" := prompt])])])]),
      "generationConfig" := Obj(map["responseMimeType" := Str("application/json")])])
  }

  /** `result?.candidates?.[0]?.content?.parts?.[0]?.text || ''`: the first
      candidate's first part's text when it is truthy, the empty string
      otherwise. */
  function ReplyText(result: Value): (t: Value)
    ensures Truthy(FromFirstPart(result, [Name("text")])) ==> t == FromFirstPart(result, [Name("text")])
    ensures !Truthy(FromFirstPart(result, [Name("text")])) ==> t == Str("")
  {
    Or(FromFirstPart(result, [Name("text")]), Str(""))
  }

  /** The handler. Its checks come in the source's order, each answering before
      anything after it is looked at: the method (405), the prompt (400), the
      key (500). Only past all three is the upstream request made; its outcome
      is relayed with its own status, answered with the extracted text, or
      turned into a 500. */
  function Handle(req: Request, apiKey: Option<string>, upstream: Upstream): (x: Exchange)
    ensures req.httpMethod != "POST" ==> x == Exchange(MethodNotAllowed, None)
    ensures req.httpMethod == "POST" && !Truthy(BodyField(req, "prompt")) ==> x == Exchange(MissingPrompt, None)
    ensures req.httpMethod == "POST" && Truthy(BodyField(req, "prompt")) && !HasKey(apiKey) ==>
      x == Exchange(MissingKey, None)
    ensures x.call.Some? <==> req.httpMethod == "POST" && Truthy(BodyField(req, "prompt")) && HasKey(apiKey)
    ensures x.call.Some? ==> x.call.value == Call(ApiUrl(Model, apiKey.value), Payload(BodyField(req, "prompt")))
    ensures x.call.Some? && upstream.UpstreamErr? ==>
      x.response == Response(upstream.status, ErrorWithDetails(UpstreamFailed, upstream.text))
    ensures x.call.Some? && upstream.UpstreamOk? ==>
      x.response == Response(200, Obj(map["text" := ReplyText(upstream.result)]))
    ensures x.call.Some? && upstream.Throws? ==> x.response == InternalError
  {
    if req.httpMethod != "POST" then Exchange(MethodNotAllowed, None)
    else
      var prompt := BodyField(req, "prompt");
      if !Truthy(prompt) then Exchange(MissingPrompt, None)
      else if !HasKey(apiKey) then Exchange(MissingKey, None)
      else
        var call := Call(ApiUrl(Model, apiKey.value), Payload(prompt));
        match upstream
        case UpstreamErr(status, text) =>
          Exchange(Response(status, ErrorWithDetails(UpstreamFailed, text)), Some(call))
        case UpstreamOk(result) =>
          Exchange(Response(200, Obj(map["text" := ReplyText(result)])), Some(call))
        case Throws =>
          Exchange(InternalError, Some(call))
  }

  /** A request that is not a POST is answered the same way whatever its body,
      the key and the upstream service: none of them is examined. */
  lemma MethodCheckedFirst(r1: Request, k1: Option<string>, u1: Upstream, r2: Request, k2: Option<string>, u2: Upstream)
    requires r1.httpMethod == r2.httpMethod && r1.httpMethod != "POST"
    ensures Handle(r1, k1, u1) == Handle(r2, k2, u2)
    ensures Handle(r1, k1, u1).response.status == 405 && Handle(r1, k1, u1).call.None?
  {
  }

  /** A POST without a truthy prompt (a null or missing body included) gets 400
      whatever the key and the upstream service. */
  lemma PromptCheckedBeforeKey(req: Request, k1: Option<string>, u1: Upstream, k2: Option<string>, u2: Upstream)
    requires req.httpMethod == "POST" && !Truthy(BodyField(req, "prompt"))
    ensures Handle(req, k1, u1) == Handle(req, k2, u2)
    ensures Handle(req, k1, u1).response.status == 400 && Handle(req, k1, u1).call.None?
  {
  }

  /** The forwarded payload carries the prompt verbatim in its only part of its
      only content, and asks for JSON. */
  lemma PayloadCarriesPrompt(prompt: Value)
    ensures var p := Payload(prompt);
      && OptPath(p, [Name("contents"), Index(0), Name("parts"), Index(0), Name("text")]) == prompt
      && Get(p, Name("contents")) == Arr([Obj(map["parts" := Arr([Obj(map["text" := prompt])])])])
      && OptPath(p, [Name("generationConfig"), Name("responseMimeType")]) == Str("application/json")
  {
    var p := Payload(prompt);
    assert KeyString(Index(0)) == "0";
    var path := [Name("contents"), Index(0), Name("parts"), Index(0), Name("text")];
    assert path[1..] == [Index(0), Name("parts"), Index(0), Name("text")];
    assert path[1..][1..] == [Name("parts"), Index(0), Name("text")];
    assert path[1..][1..][1..] == [Index(0), Name("text")];
    assert path[1..][1..][1..][1..] == [Name("text")];
    var cfg := [Name("generationConfig"), Name("responseMimeType")];
    assert cfg[1..] == [Name("responseMimeType")];
  }

  /** With an upstream service that behaves as `fetch` does, the response is 200
      exactly when the request was forwarded and answered ok; every other
      response carries an `error` message. */
  lemma SuccessIffUpstreamOk(req: Request, apiKey: Option<string>, upstream: Upstream)
    requires WellFormed(upstream)
    ensures var x := Handle(req, apiKey, upstream);
      && (x.response.status == 200 <==> x.call.Some? && upstream.UpstreamOk?)
      && (x.response.status != 200 ==> x.response.body.Obj? && "error" in x.response.body.props)
  {
  }

  /** A reply whose first candidate's first part has text `t` is answered 200
      with exactly that text; an empty text gives `'' || ''`, the same `''`. */
  lemma RelaysCandidateText(req: Request, apiKey: string, t: string)
    requires req.httpMethod == "POST" && Truthy(BodyField(req, "prompt")) && apiKey != ""
    ensures Handle(req, Some(apiKey), UpstreamOk(ReplyWithPart(Obj(map["text" := Str(t)])))).response
      == Response(200, Obj(map["text" := Str(t)]))
  {
    var part := Obj(map["text" := Str(t)]);
    FirstPartOfReply(part, [Name("text")]);
    assert OptPath(part, [Name("text")]) == Str(t) by {
      assert [Name("text")][1..] == [];
    }
  }

  /** A reply without candidates is still a success, with empty text. */
  lemma EmptyTextWithoutCandidates(req: Request, apiKey: string, result: Value)
    requires req.httpMethod == "POST" && Truthy(BodyField(req, "prompt")) && apiKey != ""
    requires Nullish(result) || (result.Obj? && "candidates" !in result.props)
    ensures Handle(req, Some(apiKey), UpstreamOk(result)).response == Response(200, Obj(map["text" := Str("")]))
  {
    NoCandidates(result, [Name("text")]);
  }
}
