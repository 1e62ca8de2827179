/** The form's validation schema (`generateImageConfigSchema`,
    src/App.tsx:45-49) and its default values (src/App.tsx:57-61). */
module Schema {
  import opened Wrappers
  import opened StylePresets

  /** The least and greatest accepted step counts (`min(10)`, `max(150)`). */
  const MinSteps: int := 10
  const MaxSteps: int := 150

  /** The values the form holds before validation. `steps` is an `int`: the
      source's number is a JavaScript float and the schema has no integrality
      rule; only the slider's step of 1 keeps it whole. */
  datatype FormValues = FormValues(textPrompts: string, steps: int, stylePreset: string)

  /** A validated request (`IGenerateImage`): the preset is a member of the enum. */
  datatype GenerationRequest = GenerationRequest(textPrompts: string, steps: int, stylePreset: StylePreset)

  /** Why one field of the form was rejected. */
  datatype Issue = StepsBelowMin | StepsAboveMax | UnknownStylePreset

  /** The acceptance rule: any prompt string (the empty one included), a step
      count in 10..150 inclusive, and a preset that is a value of the enum. */
  predicate IsValid(v: FormValues)
    ensures IsValid(v) <==> MinSteps <= v.steps <= MaxSteps && FromName(v.stylePreset).Some?
  {
    MinSteps <= v.steps <= MaxSteps && IsEnumValue(v.stylePreset)
  }

  /** Parses the form values against the schema: either the typed request,
      carrying the same prompt, step count and preset, or every issue found. */
  function Validate(v: FormValues): (r: Result<GenerationRequest, seq<Issue>>)
    ensures r.Success? <==> IsValid(v)
    ensures r.Success? ==>
              && r.value.textPrompts == v.textPrompts
              && r.value.steps == v.steps
              && Name(r.value.stylePreset) == v.stylePreset
    ensures r.Failure? ==>
              && |r.error| > 0
              && (StepsBelowMin in r.error <==> v.steps < MinSteps)
              && (StepsAboveMax in r.error <==> v.steps > MaxSteps)
              && (UnknownStylePreset in r.error <==> !IsEnumValue(v.stylePreset))
  {
    var preset := FromName(v.stylePreset);
    var issues :=
      (if v.steps < MinSteps then [StepsBelowMin] else []) +
      (if v.steps > MaxSteps then [StepsAboveMax] else []) +
      (if preset.None? then [UnknownStylePreset] else []);
    if issues == [] then Success(GenerationRequest(v.textPrompts, v.steps, preset.value))
    else Failure(issues)
  }

  /** The form's initial values. */
  const DefaultValues: FormValues := FormValues("", 50, "enhance")

  /** The defaults pass the schema and parse to the enhance preset. */
  lemma DefaultValuesValid()
    ensures IsValid(DefaultValues)
    ensures Validate(DefaultValues) == Success(GenerationRequest("", 50, Enhance))
  {
    NameRoundTrip(Enhance);
  }

  /** Every request the form can turn back into raw values is accepted again,
      unchanged: validation loses nothing of a request. */
  lemma ValidateRoundTrip(req: GenerationRequest)
    requires MinSteps <= req.steps <= MaxSteps
    ensures Validate(FormValues(req.textPrompts, req.steps, Name(req.stylePreset))) == Success(req)
  {
    NameRoundTrip(req.stylePreset);
  }

  /** Choosing any menu item keeps a step count in range valid. */
  lemma MenuChoiceValid(prompt: string, steps: int, i: nat)
    requires MinSteps <= steps <= MaxSteps && i < |MenuItems()|
    ensures Validate(FormValues(prompt, steps, MenuItems()[i].value)) == Success(GenerationRequest(prompt, steps, AllPresets[i]))
  {
  }
}
