# Text-to-image form: a Dafny model

The repository is a single-page React form. It collects a text prompt, a step
count and a style preset. It posts them to the Stability image-generation API
and shows the images that come back. This project models the logic of
`src/App.tsx` that can be stated exactly, and proves properties of it:

- **StylePresets** (`style_presets.dfy`): the closed enum of nine style presets
  and the menu built from its keys.
- **Schema** (`schema.dfy`): the rule the form values must pass (any prompt
  string, steps in 10..150, a preset from the enum), its field-level issues,
  and the default values.
- **GenerationClient** (`generation_client.dfy`): the configured host, the API
  key check, the endpoint path, the request body, the status check and the
  loop that extracts each artifact's base64 payload.
- **AppState** (`app_state.dfy`): the two state variables `images` and
  `errorMessage`. There are pure transition functions for submit, dismiss and
  rendering, and lemmas over whole sequences of user actions. The class `App`
  holds the two variables, and its methods are proved against those functions.

The service's reply (status, status text, artifacts) is an input value.
`apiHost` and `apiKey` are configuration values: `apiKey` is an
`Option<string>`, and the host is `API_HOST ?? "https://api.stability.ai"`.
The `App` constructor builds its configuration from the host override and the key.

Points where the code's behaviour may be surprising:

- The empty prompt is accepted. The schema is a bare `string()`.
- `if (!apiKey)` also rejects an empty key, since `""` is false in
  JavaScript. `HasApiKey` requires a present, non-empty key.
- `onSubmitHandler` has no `catch`. A failed generation therefore never sets
  `errorMessage`: it stays `""` in every reachable state, as `AlertNeverShown`
  proves. The error banner can therefore never appear: no code path writes a
  non-empty message.
- The HTTP library's default status check rejects any status outside 200..299
  when the call at line 70 is awaited, with its own error ("Request failed with
  status code N"). The `Non-200 response` error of lines 90-92 is therefore
  reached only for a 2xx status other than 200.

## Model

| member | source | states |
|---|---|---|
| StylePresets.FromName | src/App.tsx:33-48 | a string decodes to a preset exactly when it is one of the enum's values, and then to the preset with that value |
| StylePresets.NameRoundTrip | src/App.tsx:33-43 | decoding a preset's value gives the preset back; distinct presets have distinct values |
| StylePresets.EnumIsClosedSetOfNine | src/App.tsx:33-43 | the enum has nine members, one per preset, with no repeats and none missing; each key equals its value |
| StylePresets.MenuItems | src/App.tsx:172-180 | one menu item per enum key, in declaration order; each submits a string that decodes to its preset and is captioned with that preset's value |
| Schema.IsValid | src/App.tsx:45-49 | the acceptance rule: steps in 10..150 and a preset string that decodes to a member of the enum; the prompt is unconstrained |
| Schema.Validate | src/App.tsx:45-49 | accepts exactly when 10 <= steps <= 150 and the preset is an enum value; on acceptance the prompt, steps and preset pass through; on rejection each issue is reported iff its field fails |
| Schema.DefaultValuesValid | src/App.tsx:57-61 | the defaults ("", 50, "enhance") pass the schema and parse to the enhance preset |
| Schema.ValidateRoundTrip | src/App.tsx:45-49 | any in-range request, written back as form values, validates to itself |
| Schema.MenuChoiceValid | src/App.tsx:166-180 | with steps in range, any menu choice validates to that item's preset |
| GenerationClient.ApiHost | src/App.tsx:22 | the host is the override when one is given (even an empty one), otherwise the public endpoint |
| GenerationClient.HasApiKey | src/App.tsx:68 | the key check passes unless the key is absent or the empty string, the two values `!apiKey` rejects |
| GenerationClient.EndpointPath | src/App.tsx:71 | the URL is the host, then "/v1/generation/", then the engine id, then "/text-to-image" |
| GenerationClient.EndpointDeterminesEngine | src/App.tsx:21-71 | for a fixed host, two equal endpoint URLs name the same engine |
| GenerationClient.BodyOf | src/App.tsx:79-87 | the body holds exactly one text_prompts entry whose text is the prompt; steps and style_preset pass through |
| GenerationClient.RequestOf | src/App.tsx:79-87 | a body reads back as a request exactly when it has one text_prompts entry |
| GenerationClient.BodyRoundTrip | src/App.tsx:79-87 | reading a request's body gives the request back, and no other body reads back as that request |
| GenerationClient.BuildRequest | src/App.tsx:70-88 | a POST to the endpoint with the JSON content-type and accept headers, a bearer authorization carrying the key, and the request's body, and no header besides those three |
| GenerationClient.Message | src/App.tsx:68-91 | every thrown error has a non-empty message; a rejected-status message is "Request failed with status code " followed by the decimal status; a non-200 message ends with the status text |
| GenerationClient.Payloads | src/App.tsx:96-99 | one payload per artifact, in order, each the artifact's base64 field |
| GenerationClient.ExtractImages | src/App.tsx:96-99 | the push loop builds exactly the payload list of the artifacts |
| GenerationClient.Generate | src/App.tsx:67-101 | no request is built iff the key is missing or empty; otherwise the built request is sent; it fails with the missing-key error, with the status for a status outside 200..299, or with the status text for another 2xx status; it succeeds iff the key is present and the status is 200, with the payloads |
| AppState.ApplyGeneration | src/App.tsx:90-100 | a success replaces images with the extracted list; a failure changes nothing; the error message is untouched |
| AppState.OnSubmit | src/App.tsx:102-107 | after a submit the error message is empty, whether or not the generation failed |
| AppState.SubmitForm | src/App.tsx:114 | rejected values leave the state unchanged; accepted values run the handler on the parsed request |
| AppState.AlertShown | src/App.tsx:115 | the alert is rendered exactly when the error message is not empty |
| AppState.OnDismiss | src/App.tsx:119 | dismissing empties the error message and keeps the images |
| AppState.ImageSources | src/App.tsx:195-197 | one image source per stored image, in order, each "data:image/png;base64," followed by the image |
| AppState.MissingKeyKeepsImages | src/App.tsx:68-107 | with no usable key, no request is built and only the error message is cleared |
| AppState.NonOkKeepsImages | src/App.tsx:70-107 | with any status but 200, rejected by the HTTP library or by the check at line 90, the request was sent and the images are unchanged |
| AppState.SuccessReplacesImages | src/App.tsx:96-100 | on success the new images do not depend on the old ones, match the artifacts one to one and render in the same order |
| AppState.DismissIdempotent | src/App.tsx:115-119 | dismissing twice equals dismissing once, and the alert is then hidden |
| AppState.AlertNeverShown | src/App.tsx:102-122 | from a state with no alert, no sequence of submits and dismissals ever shows it |
| AppState.ImagesFromLastSuccess | src/App.tsx:55-107 | after any sequence of actions, the images are those of the last successful submit, or the starting ones if none succeeded |
| AppState.TooFewStepsRejected | src/App.tsx:47-114 | a step count below 10 is rejected with a below-minimum issue and the submit changes nothing |
| AppState.FoxScenario | src/App.tsx:71-196 | a cinematic fox at 75 steps is sent as a one-prompt body to the default endpoint, and a one-artifact reply renders as one inline PNG |
| AppState.App.constructor | src/App.tsx:22-56 | the page starts with no images and an empty error message; its host is the override or the default, and its key is the one given |
| AppState.App.GenerateImage | src/App.tsx:67-101 | returns the request sent and the error thrown as in Generate; the new state is the old one with the attempt applied |
| AppState.App.OnSubmitHandler | src/App.tsx:102-107 | clears the error message, then generates; it sends and throws exactly what Generate does; the new state is OnSubmit of the old one |
| AppState.App.HandleSubmit | src/App.tsx:114 | reports the schema's issues and sends nothing on invalid values; on valid values it sends what Generate sends for the parsed request; the new state is SubmitForm of the old one |
| AppState.App.OnAlertClose | src/App.tsx:119 | the new state is OnDismiss of the old one |

## Left out

- The HTTP call, transport errors, `await` and async suspension are network I/O. The reply is an input value.
- A reply body that is not a `GenerationResponse` is left out: the source casts it without a check. Artifacts are taken as already parsed.
- Overlapping submits and the order in which their replies settle are concurrency. The model runs each action to completion before the next.
- React hooks, the MUI components, the form library's field binding, the slider widget, and `zodResolver` are framework code. The schema is modelled as the rule it expresses. The form library is modelled only as a gate that calls the handler on accepted values.
- Reading `process.env` (src/App.tsx:22-23) is configuration I/O. The host override and the key are parameters.
- `JSON.stringify` and `console.log` are library serialisation and logging. The body is a datatype.
- Schema.Validate: `steps` is an unbounded `int`. The source's number is a float, and the schema does not require a whole number.
- GenerationClient.Generate: the HTTP library's rejection for a status outside 200..299 is modelled by its message only; the other data it carries is not.
- GenerationClient.Generate: the rejection thrown to the form library after a failure is returned as a value. What the library then does with it is not modelled.
- Artifact seeds are integers here; the source types them as JavaScript numbers, and nothing reads them.
