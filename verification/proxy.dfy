/** What the two serverless handlers share: the request they receive, the
    response they emit through `res.status(...).json(...)`, the call they make
    to the generative-language API and the outcomes of that call. */
module Proxy {
  import opened Wrappers
  import opened JsValue

  /** The incoming request: its HTTP method (`req.method`) and its parsed JSON body. */
  datatype Request = Request(httpMethod: string, body: Value)

  /** The one response a handler emits: a status code and a JSON body. */
  datatype Response = Response(status: int, body: Value)

  /** What the upstream request turns out to be: an ok response with its parsed
      JSON, a response that is not ok with its status and body text, or an
      exception (a rejected fetch, a body that is not JSON, ...). */
  datatype Upstream = UpstreamOk(result: Value) | UpstreamErr(status: int, text: string) | Throws

  /** An upstream outcome as `fetch` can produce it: a response that is not ok
      has a status outside 200-299. */
  predicate WellFormed(u: Upstream) {
    u.UpstreamErr? ==> !(200 <= u.status < 300)
  }

  /** The request a handler sends upstream: its URL and its JSON payload. */
  datatype Call = Call(url: string, payload: Value)

  /** Everything a handler invocation does that can be observed. */
  datatype Exchange = Exchange(response: Response, call: Option<Call>)

  const ApiBase := "https://generativelanguage.googleapis.com/v1beta/models/"

  function ApiUrl(model: string, apiKey: string): (u: string)
    ensures |u| == |ApiBase| + |model| + |":generateContent?key="| + |apiKey|
    ensures u[..|ApiBase|] == ApiBase
    ensures u[|ApiBase|..|ApiBase| + |model|] == model
    ensures u[|u| - |apiKey|..] == apiKey
  {
    ApiBase + model + ":generateContent?key=" + apiKey
  }

  /** `process.env.GEMINI_API_KEY` is usable: defined and not empty. */
  predicate HasKey(apiKey: Option<string>)
    ensures !HasKey(apiKey) <==> apiKey == None || apiKey == Some("")
  {
    apiKey.Some? && apiKey.value != ""
  }

  function ErrorBody(message: string): Value {
    Obj(map["error" := Str(message)])
  }

  function ErrorWithDetails(message: string, details: string): Value {
    Obj(map["error" := Str(message), "details" := Str(details)])
  }

  const MethodNotAllowed := Response(405, ErrorBody("Method Not Allowed"))
  const MissingKey := Response(500, ErrorBody("Missing GEMINI_API_KEY environment variable"))
  const InternalError := Response(500, ErrorBody("Internal Server Error"))

  /** `const { name } = req.body || {}`. */
  function BodyField(req: Request, name: string): (v: Value)
    ensures !Truthy(req.body) ==> v == Undefined
    ensures req.body.Obj? ==> v == if name in req.body.props then req.body.props[name] else Undefined
  {
    Get(Or(req.body, Obj(map[])), Name(name))
  }

  /** The path `candidates?.[0]?.content?.parts?.[0]` into an upstream result. */
  const FirstPartPath := [Name("candidates"), Index(0), Name("content"), Name("parts"), Index(0)]

  /** `result?.candidates?.[0]?.content?.parts?.[0]?.<rest>`. */
  function FromFirstPart(result: Value, rest: seq<Key>): (r: Value)
    ensures r == OptPath(OptPath(result, FirstPartPath), rest)
  {
    OptPathAppend(result, FirstPartPath, rest);
    OptPath(result, FirstPartPath + rest)
  }

  /** A reply in the documented shape: the first candidate's first part is `part`. */
  function ReplyWithPart(part: Value): Value {
    Obj(map["candidates" := Arr([Obj(map["content" := Obj(map["parts" := Arr([part])])])])])
  }

  /** On a reply of the documented shape the path reaches the first part. */
  lemma FirstPartOfReply(part: Value, rest: seq<Key>)
    ensures FromFirstPart(ReplyWithPart(part), rest) == OptPath(part, rest)
  {
    var r := ReplyWithPart(part);
    OptPathAppend(r, FirstPartPath, rest);
    assert KeyString(Index(0)) == "0";
    var p := FirstPartPath;
    assert OptPath(r, p) == part by {
      var c := Arr([Obj(map["content" := Obj(map["parts" := Arr([part])])])]);
      assert OptGet(r, p[0]) == c;
      assert p[1..] == [Index(0), Name("content"), Name("parts"), Index(0)];
      var c0 := Obj(map["content" := Obj(map["parts" := Arr([part])])]);
      assert OptGet(c, Index(0)) == c0;
      assert p[1..][1..] == [Name("content"), Name("parts"), Index(0)];
      var ct := Obj(map["parts" := Arr([part])]);
      assert OptGet(c0, Name("content")) == ct;
      assert p[1..][1..][1..] == [Name("parts"), Index(0)];
      assert OptGet(ct, Name("parts")) == Arr([part]);
      assert p[1..][1..][1..][1..] == [Index(0)];
      assert OptGet(Arr([part]), Index(0)) == part;
      assert p[1..][1..][1..][1..][1..] == [];
    }
  }

  /** A reply without a `candidates` member yields undefined at the end of the
      path, however long. */
  lemma NoCandidates(result: Value, rest: seq<Key>)
    requires Nullish(result) || (result.Obj? && "candidates" !in result.props)
    ensures FromFirstPart(result, rest) == Undefined
  {
    var p := FirstPartPath + rest;
    assert p[0] == Name("candidates");
    assert OptGet(result, p[0]) == Undefined;
    OptPathShortCircuits(Undefined, p[1..]);
  }
}
