/** The page's state and its transitions (src/App.tsx:55-56, 102-107, 114-122,
    195-197): the displayed images and the error message, changed by
    submitting the form and by dismissing the alert. */
module AppState {
  import opened Wrappers
  import opened StylePresets
  import opened Schema
  import opened GenerationClient

  /** A snapshot of the two state variables. */
  datatype UiState = UiState(images: seq<string>, errorMessage: string)

  /** The state the page starts in. */
  const Initial: UiState := UiState([], "")

  /** The configuration read at load time: the host and the optional key. */
  datatype Config = Config(apiHost: string, apiKey: Option<string>)

  /** What a finished `generateImage` leaves behind: on success the extracted
      images replace the displayed ones (`setImages`); a thrown error changes
      nothing. */
  function ApplyGeneration(s: UiState, a: Attempt): (t: UiState)
    ensures t.errorMessage == s.errorMessage
    ensures a.result.Success? ==> t.images == a.result.value
    ensures a.result.Failure? ==> t == s
  {
    if a.result.Success? then s.(images := a.result.value) else s
  }

  /** `onSubmitHandler`: clear the error, then run the generation. There is no
      `catch`, so an error thrown by the generation never reaches
      `errorMessage`. */
  function OnSubmit(cfg: Config, s: UiState, req: GenerationRequest, response: Response): (t: UiState)
    ensures t.errorMessage == ""
  {
    ApplyGeneration(s.(errorMessage := ""), Generate(cfg.apiHost, cfg.apiKey, req, response))
  }

  /** The form's submit: the handler runs only on values the schema accepts;
      rejected values leave the state as it was. */
  function SubmitForm(cfg: Config, s: UiState, v: FormValues, response: Response): (t: UiState)
    ensures !IsValid(v) ==> t == s
    ensures IsValid(v) ==> t == OnSubmit(cfg, s, Validate(v).value, response)
  {
    match Validate(v)
    case Success(req) => OnSubmit(cfg, s, req, response)
    case Failure(_) => s
  }

  /** The alert's `onClose`: clear the error. */
  function OnDismiss(s: UiState): (t: UiState)
    ensures t.errorMessage == "" && t.images == s.images
  {
    s.(errorMessage := "")
  }

  /** The alert is on screen exactly when the error message is not empty. */
  predicate AlertShown(s: UiState)
    ensures AlertShown(s) <==> s.errorMessage != ""
  {
    |s.errorMessage| > 0
  }

  const DataUriPrefix: string := "data:image/png;base64,"

  /** The `src` of each rendered image: the payload as an inline PNG, in the
      order the images are stored. */
  function ImageSources(images: seq<string>): (srcs: seq<string>)
    ensures |srcs| == |images|
    ensures forall i :: 0 <= i < |images| ==>
              |srcs[i]| == |DataUriPrefix| + |images[i]| &&
              srcs[i][..|DataUriPrefix|] == DataUriPrefix && srcs[i][|DataUriPrefix|..] == images[i]
  {
    seq(|images|, i requires 0 <= i < |images| => DataUriPrefix + images[i])
  }

  /** Missing key: no request is built and the images stay as they were. */
  lemma MissingKeyKeepsImages(cfg: Config, s: UiState, req: GenerationRequest, response: Response)
    requires !HasApiKey(cfg.apiKey)
    ensures Generate(cfg.apiHost, cfg.apiKey, req, response).sent == None
    ensures OnSubmit(cfg, s, req, response) == s.(errorMessage := "")
  {
  }

  /** A status other than 200, whichever check rejects it: the request was sent, and the images stay as
      they were. */
  lemma NonOkKeepsImages(cfg: Config, s: UiState, req: GenerationRequest, response: Response)
    requires HasApiKey(cfg.apiKey) && response.status != 200
    ensures Generate(cfg.apiHost, cfg.apiKey, req, response).sent.Some?
    ensures OnSubmit(cfg, s, req, response) == s.(errorMessage := "")
  {
  }

  /** A success replaces the images with the artifacts' payloads, whatever
      was displayed before, and they render in the artifacts' order. */
  lemma SuccessReplacesImages(cfg: Config, s1: UiState, s2: UiState, req: GenerationRequest, response: Response)
    requires HasApiKey(cfg.apiKey) && response.status == 200
    ensures OnSubmit(cfg, s1, req, response).images == OnSubmit(cfg, s2, req, response).images
    ensures |OnSubmit(cfg, s1, req, response).images| == |response.artifacts|
    ensures forall i :: 0 <= i < |response.artifacts| ==>
              OnSubmit(cfg, s1, req, response).images[i] == response.artifacts[i].base64 &&
              ImageSources(OnSubmit(cfg, s1, req, response).images)[i] == DataUriPrefix + response.artifacts[i].base64
  {
  }

  /** Dismissing twice is dismissing once. */
  lemma DismissIdempotent(s: UiState)
    ensures OnDismiss(OnDismiss(s)) == OnDismiss(s)
    ensures !AlertShown(OnDismiss(s))
  {
  }

  /** A user action on the page, with the service's reply for a submit. */
  datatype Event = Submit(values: FormValues, response: Response) | Dismiss

  function Step(cfg: Config, s: UiState, e: Event): UiState {
    match e
    case Submit(v, response) => SubmitForm(cfg, s, v, response)
    case Dismiss => OnDismiss(s)
  }

  /** The state after a sequence of actions, each finishing before the next. */
  function Run(cfg: Config, s: UiState, events: seq<Event>): UiState
    decreases |events|
  {
    if events == [] then s else Run(cfg, Step(cfg, s, events[0]), events[1..])
  }

  /** Nothing ever writes a non-empty error message: from the initial state,
      no sequence of actions shows the alert. */
  lemma {:induction false} AlertNeverShown(cfg: Config, s: UiState, events: seq<Event>)
    requires !AlertShown(s)
    ensures !AlertShown(Run(cfg, s, events))
    decreases |events|
  {
    if events != [] {
      AlertNeverShown(cfg, Step(cfg, s, events[0]), events[1..]);
    }
  }

  /** The payloads of the last successful submit among the events, if any. */
  function LastSuccess(cfg: Config, events: seq<Event>): Option<seq<string>>
    decreases |events|
  {
    if events == [] then None
    else
      var e := events[|events| - 1];
      if e.Submit? && IsValid(e.values) && HasApiKey(cfg.apiKey) && e.response.status == 200
      then Some(Payloads(e.response.artifacts))
      else LastSuccess(cfg, events[..|events| - 1])
  }

  /** The displayed images are those of the last successful submit, or the
      starting ones if no submit succeeded: nothing is ever appended. */
  lemma {:induction false} ImagesFromLastSuccess(cfg: Config, s: UiState, events: seq<Event>)
    ensures Run(cfg, s, events).images == LastSuccess(cfg, events).GetOr(s.images)
    decreases |events|
  {
    if events != [] {
      var n := |events| - 1;
      RunSnoc(cfg, s, events[..n], events[n]);
      assert events[..n] + [events[n]] == events;
      ImagesFromLastSuccess(cfg, s, events[..n]);
    }
  }

  /** Running one more action is one more step. */
  lemma {:induction false} RunSnoc(cfg: Config, s: UiState, events: seq<Event>, e: Event)
    ensures Run(cfg, s, events + [e]) == Step(cfg, Run(cfg, s, events), e)
    decreases |events|
  {
    if events == [] {
      assert [e][1..] == [];
    } else {
      assert (events + [e])[1..] == events[1..] + [e];
      RunSnoc(cfg, Step(cfg, s, events[0]), events[1..], e);
    }
  }

  /** A submit with too few steps is rejected by the schema: no request, no change. */
  lemma TooFewStepsRejected(cfg: Config, s: UiState, prompt: string, steps: int, preset: string, response: Response)
    requires steps < MinSteps
    ensures Validate(FormValues(prompt, steps, preset)).Failure?
    ensures StepsBelowMin in Validate(FormValues(prompt, steps, preset)).error
    ensures SubmitForm(cfg, s, FormValues(prompt, steps, preset), response) == s
  {
  }

  /** One complete exchange: a cinematic fox at 75 steps is sent as a one-prompt
      body, and a one-artifact reply renders as one inline PNG. */
  lemma FoxScenario(key: string)
    requires key != ""
    ensures var cfg := Config(ApiHost(None), Some(key));
            var v := FormValues("a red fox", 75, "cinematic");
            var reply := Response(200, "OK", [Artifact("AAAA", 0, "SUCCESS")]);
            && Validate(v).Success?
            && Generate(cfg.apiHost, cfg.apiKey, Validate(v).value, reply).sent.value.body
               == RequestBody([TextPrompt("a red fox")], 75, Cinematic)
            && Generate(cfg.apiHost, cfg.apiKey, Validate(v).value, reply).sent.value.url
               == DefaultApiHost + "/v1/generation/" + EngineId + "/text-to-image"
            && ImageSources(SubmitForm(cfg, Initial, v, reply).images) == [DataUriPrefix + "AAAA"]
  {
    var cfg := Config(ApiHost(None), Some(key));
    var v := FormValues("a red fox", 75, "cinematic");
    var reply := Response(200, "OK", [Artifact("AAAA", 0, "SUCCESS")]);
    var req := GenerationRequest("a red fox", 75, Cinematic);
    ValidateRoundTrip(req);
    assert Validate(v) == Success(req);
    var images := Payloads(reply.artifacts);
    assert images == ["AAAA"];
    assert SubmitForm(cfg, Initial, v, reply).images == images;
  }

  /** The page component, holding the two state variables `images` and
      `errorMessage`. The configuration is read once, from the optional host
      override and the optional key. */
  class App {
    const cfg: Config
    var images: seq<string>
    var errorMessage: string

    function State(): UiState
      reads this
    {
      UiState(images, errorMessage)
    }

    constructor (hostOverride: Option<string>, apiKey: Option<string>)
      ensures cfg == Config(ApiHost(hostOverride), apiKey) && State() == Initial
    {
      cfg := Config(ApiHost(hostOverride), apiKey);
      images := [];
      errorMessage := "";
    }

    /** `generateImage`: returns the request it sent, if any, and the error it
        threw, if any; on success the extracted images replace the displayed ones. */
    method GenerateImage(prompts: GenerationRequest, response: Response) returns (sent: Option<HttpRequest>, thrown: Option<GenerationError>)
      modifies this`images
      ensures sent == Generate(cfg.apiHost, cfg.apiKey, prompts, response).sent
      ensures thrown.Some? <==> Generate(cfg.apiHost, cfg.apiKey, prompts, response).result.Failure?
      ensures thrown.Some? ==> thrown.value == Generate(cfg.apiHost, cfg.apiKey, prompts, response).result.error
      ensures State() == ApplyGeneration(old(State()), Generate(cfg.apiHost, cfg.apiKey, prompts, response))
    {
      if !(cfg.apiKey.Some? && cfg.apiKey.value != "") {
        return None, Some(MissingApiKey);
      }
      var request := BuildRequest(cfg.apiHost, cfg.apiKey.value, prompts);
      sent := Some(request);
      if !(200 <= response.status < 300) {
        return sent, Some(HttpStatus(response.status));
      }
      if response.status != 200 {
        return sent, Some(NonOkStatus(response.statusText));
      }
      var imagesResponse := ExtractImages(response.artifacts);
      images := imagesResponse;
      thrown := None;
    }

    /** `onSubmitHandler`: clears the error, then awaits the generation; an
        error it throws propagates to the caller unhandled. */
    method OnSubmitHandler(values: GenerationRequest, response: Response) returns (sent: Option<HttpRequest>, thrown: Option<GenerationError>)
      modifies this`images, this`errorMessage
      ensures sent == Generate(cfg.apiHost, cfg.apiKey, values, response).sent
      ensures thrown.Some? <==> Generate(cfg.apiHost, cfg.apiKey, values, response).result.Failure?
      ensures thrown.Some? ==> thrown.value == Generate(cfg.apiHost, cfg.apiKey, values, response).result.error
      ensures State() == OnSubmit(cfg, old(State()), values, response)
    {
      errorMessage := "";
      sent, thrown := GenerateImage(values, response);
    }

    /** The form's `onSubmit`: validates first and calls the handler only on
        accepted values; otherwise no request is sent and nothing changes. */
    method HandleSubmit(values: FormValues, response: Response) returns (issues: seq<Issue>, sent: Option<HttpRequest>)
      modifies this`images, this`errorMessage
      ensures IsValid(values) <==> issues == []
      ensures !IsValid(values) ==> sent == None && issues == Validate(values).error
      ensures IsValid(values) ==> sent == Generate(cfg.apiHost, cfg.apiKey, Validate(values).value, response).sent
      ensures State() == SubmitForm(cfg, old(State()), values, response)
    {
      match Validate(values)
      case Failure(e) =>
        return e, None;
      case Success(req) =>
        var thrown;
        sent, thrown := OnSubmitHandler(req, response);
        issues := [];
    }

    /** The alert's `onClose`: clears the error and leaves the images alone. */
    method OnAlertClose()
      modifies this`errorMessage
      ensures State() == OnDismiss(old(State()))
    {
      errorMessage := "";
    }
  }
}
