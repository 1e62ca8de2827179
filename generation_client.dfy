/** The generation client (`generateImage`, src/App.tsx:67-101): the request it
    builds, the checks it makes, and the image payloads it extracts. The HTTP
    exchange itself is not modelled: the service's reply is an input value. */
module GenerationClient {
  import opened Wrappers
  import opened StylePresets
  import opened Schema

  /** The generation model the requests name. */
  const EngineId: string := "stable-diffusion-v1-5"

  /** The service host used when no override is configured. */
  const DefaultApiHost: string := "https://api.stability.ai"

  /** The configured host: `API_HOST ?? default`. Only an absent override
      falls back; an empty one is kept. */
  function ApiHost(hostOverride: Option<string>): (h: string)
    ensures hostOverride.Some? ==> h == hostOverride.value
    ensures hostOverride.None? ==> h == DefaultApiHost
  {
    hostOverride.GetOr(DefaultApiHost)
  }

  /** The key passes `if (!apiKey)` exactly when it is present and not the
      empty string, both of which JavaScript treats as false. */
  predicate HasApiKey(apiKey: Option<string>)
    ensures HasApiKey(apiKey) <==> apiKey != None && apiKey != Some("")
  {
    apiKey.Some? && apiKey.value != ""
  }

  const PathMiddle: string := "/v1/generation/"
  const PathSuffix: string := "/text-to-image"

  /** The endpoint `{apiHost}/v1/generation/{engineId}/text-to-image`. */
  function EndpointPath(apiHost: string, engineId: string): (url: string)
    ensures |url| == |apiHost| + |PathMiddle| + |engineId| + |PathSuffix|
    ensures url[..|apiHost|] == apiHost
    ensures url[|apiHost|..|apiHost| + |PathMiddle|] == PathMiddle
    ensures url[|apiHost| + |PathMiddle|..|url| - |PathSuffix|] == engineId
    ensures url[|url| - |PathSuffix|..] == PathSuffix
  {
    apiHost + PathMiddle + engineId + PathSuffix
  }

  /** For a fixed host, the endpoint determines the engine it names. */
  lemma EndpointDeterminesEngine(apiHost: string, e1: string, e2: string)
    requires EndpointPath(apiHost, e1) == EndpointPath(apiHost, e2)
    ensures e1 == e2
  {
  }

  /** One entry of `text_prompts`. */
  datatype TextPrompt = TextPrompt(text: string)

  /** The JSON body, field by field: `text_prompts`, `steps`, `style_preset`. */
  datatype RequestBody = RequestBody(textPrompts: seq<TextPrompt>, steps: int, stylePreset: StylePreset)

  /** A POST request: its target, its headers in order, and its body. */
  datatype HttpRequest = HttpRequest(verb: string, url: string, headers: seq<(string, string)>, body: RequestBody)

  /** The body sent for a request: the prompt as the one `text_prompts`
      entry, the step count and the preset passed through. */
  function BodyOf(req: GenerationRequest): (b: RequestBody)
    ensures |b.textPrompts| == 1 && b.textPrompts[0].text == req.textPrompts
    ensures b.steps == req.steps && b.stylePreset == req.stylePreset
  {
    RequestBody([TextPrompt(req.textPrompts)], req.steps, req.stylePreset)
  }

  /** Reads a request back out of a body, when it has the one-prompt shape. */
  function RequestOf(b: RequestBody): (r: Option<GenerationRequest>)
    ensures r.Some? <==> |b.textPrompts| == 1
  {
    if |b.textPrompts| == 1 then Some(GenerationRequest(b.textPrompts[0].text, b.steps, b.stylePreset))
    else None
  }

  /** The body is an exact encoding of the request: reading it back gives the
      request, and the only body that reads back as a request is its own. */
  lemma BodyRoundTrip(req: GenerationRequest, b: RequestBody)
    ensures RequestOf(BodyOf(req)) == Some(req)
    ensures RequestOf(b) == Some(req) ==> b == BodyOf(req)
  {
  }

  /** The request `generateImage` sends (src/App.tsx:70-88). */
  function BuildRequest(apiHost: string, apiKey: string, req: GenerationRequest): (r: HttpRequest)
    ensures r.verb == "POST"
    ensures r.url == EndpointPath(apiHost, EngineId)
    ensures r.body == BodyOf(req)
    ensures ("Authorization", "Bearer " + apiKey) in r.headers
    ensures ("Content-Type", "application/json") in r.headers && ("Accept", "application/json") in r.headers
    ensures |r.headers| == 3
  {
    HttpRequest(
      "POST",
      EndpointPath(apiHost, EngineId),
      [("Content-Type", "application/json"), ("Accept", "application/json"), ("Authorization", "Bearer " + apiKey)],
      BodyOf(req))
  }

  /** One generated image with its metadata (`GenerationResponse.artifacts`). */
  datatype Artifact = Artifact(base64: string, seed: int, finishReason: string)

  /** The service's reply: its status line and the parsed artifacts. */
  datatype Response = Response(status: nat, statusText: string, artifacts: seq<Artifact>)

  /** The HTTP library's default status check: the awaited call at
      src/App.tsx:70 rejects every status outside 200..299 on its own. */
  predicate IsSuccessStatus(status: nat) {
    200 <= status < 300
  }

  /** Why a generation attempt was abandoned: the missing key (line 68), a
      status the HTTP library rejects (line 70), or a 2xx status other than
      200 (lines 90-92). */
  datatype GenerationError = MissingApiKey | HttpStatus(status: nat) | NonOkStatus(statusText: string)

  /** The decimal digit for `d`. */
  function DigitChar(d: nat): char
    requires d < 10
  {
    "0123456789"[d]
  }

  /** The decimal numeral of `n`, without leading zeros. */
  function Decimal(n: nat): (s: string)
    ensures |s| > 0 && (|s| > 1 ==> s[0] != '0')
    ensures forall i :: 0 <= i < |s| ==> '0' <= s[i] <= '9'
  {
    if n < 10 then [DigitChar(n)] else Decimal(n / 10) + [DigitChar(n % 10)]
  }

  /** The number a string of decimal digits denotes. */
  function DecimalValue(s: string): nat
    requires forall i :: 0 <= i < |s| ==> '0' <= s[i] <= '9'
  {
    if s == [] then 0 else 10 * DecimalValue(s[..|s| - 1]) + (s[|s| - 1] - '0') as nat
  }

  /** The numeral denotes the number it was written for. */
  lemma {:induction false} DecimalRoundTrip(n: nat)
    ensures DecimalValue(Decimal(n)) == n
    decreases n
  {
    if n >= 10 {
      DecimalRoundTrip(n / 10);
      var s := Decimal(n);
      assert s[..|s| - 1] == Decimal(n / 10);
    }
  }

  const HttpStatusPrefix: string := "Request failed with status code "

  /** The message each thrown error carries. */
  function Message(e: GenerationError): (m: string)
    ensures |m| > 0
    ensures e.NonOkStatus? ==> |m| > |e.statusText| && m[|m| - |e.statusText|..] == e.statusText
    ensures e.HttpStatus? ==>
              && |m| > |HttpStatusPrefix|
              && m[..|HttpStatusPrefix|] == HttpStatusPrefix
              && (forall i :: |HttpStatusPrefix| <= i < |m| ==> '0' <= m[i] <= '9')
              && DecimalValue(m[|HttpStatusPrefix|..]) == e.status
  {
    match e
    case MissingApiKey => "Missing Stability API key."
    case HttpStatus(status) =>
      DecimalRoundTrip(status);
      var m := HttpStatusPrefix + Decimal(status);
      assert m[|HttpStatusPrefix|..] == Decimal(status);
      m
    case NonOkStatus(statusText) => "Non-200 response: " + statusText
  }

  /** The base64 payloads of the artifacts, one per artifact, in order. */
  function Payloads(artifacts: seq<Artifact>): (images: seq<string>)
    ensures |images| == |artifacts|
    ensures forall i :: 0 <= i < |artifacts| ==> images[i] == artifacts[i].base64
  {
    if artifacts == [] then [] else [artifacts[0].base64] + Payloads(artifacts[1..])
  }

  /** The `forEach`/`push` loop of src/App.tsx:96-99: a fresh list that
      receives each artifact's payload in turn. */
  method ExtractImages(artifacts: seq<Artifact>) returns (imagesResponse: seq<string>)
    ensures imagesResponse == Payloads(artifacts)
  {
    imagesResponse := [];
    var index := 0;
    while index < |artifacts|
      invariant 0 <= index <= |artifacts|
      invariant imagesResponse == Payloads(artifacts[..index])
    {
      assert artifacts[..index + 1] == artifacts[..index] + [artifacts[index]];
      PayloadsAppend(artifacts[..index], artifacts[index]);
      imagesResponse := imagesResponse + [artifacts[index].base64];
      index := index + 1;
    }
    assert artifacts[..index] == artifacts;
  }

  /** Extracting from one more artifact pushes one more payload. */
  lemma PayloadsAppend(artifacts: seq<Artifact>, a: Artifact)
    ensures Payloads(artifacts + [a]) == Payloads(artifacts) + [a.base64]
  {
  }

  /** The outcome of one `generateImage` call: the request it sent, if any,
      and either the extracted images or the error it threw. */
  datatype Attempt = Attempt(sent: Option<HttpRequest>, result: Result<seq<string>, GenerationError>)

  /** What `generateImage` does for a given configuration, request and reply.
      A missing key aborts before any request is built; a status outside
      200..299 is rejected by the HTTP library, and any other status but 200
      by the check at line 90, both after the request; otherwise the
      payloads are returned. */
  function Generate(apiHost: string, apiKey: Option<string>, req: GenerationRequest, response: Response): (a: Attempt)
    ensures a.sent.None? <==> !HasApiKey(apiKey)
    ensures a.sent.Some? ==> a.sent.value == BuildRequest(apiHost, apiKey.value, req)
    ensures !HasApiKey(apiKey) ==> a.result == Failure(MissingApiKey)
    ensures HasApiKey(apiKey) && !IsSuccessStatus(response.status) ==> a.result == Failure(HttpStatus(response.status))
    ensures HasApiKey(apiKey) && IsSuccessStatus(response.status) && response.status != 200 ==>
              a.result == Failure(NonOkStatus(response.statusText))
    ensures a.result.Success? <==> HasApiKey(apiKey) && response.status == 200
    ensures a.result.Success? ==> a.result.value == Payloads(response.artifacts)
  {
    if !HasApiKey(apiKey) then Attempt(None, Failure(MissingApiKey))
    else
      var request := BuildRequest(apiHost, apiKey.value, req);
      if !IsSuccessStatus(response.status) then Attempt(Some(request), Failure(HttpStatus(response.status)))
      else if response.status != 200 then Attempt(Some(request), Failure(NonOkStatus(response.statusText)))
      else Attempt(Some(request), Success(Payloads(response.artifacts)))
  }
}
