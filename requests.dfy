/**
 * The request schema both inference endpoints accept (`InferenceRequest`):
 * a prompt, four range-checked sampling parameters with defaults, and two
 * optional fields. Validation collects every failing field, in declaration
 * order, as the schema library does.
 */
module Requests {
  import opened Wrappers

  const MaxTokensLimit: int := 2048
  const DefaultMaxTokens: int := 128
  const DefaultTemperature: real := 0.7
  const DefaultTopP: real := 0.95
  const DefaultRepeatPenalty: real := 1.1

  /** The fields that carry a constraint. */
  datatype Field = PromptField | MaxTokensField | TemperatureField | TopPField | RepeatPenaltyField

  /** An inbound payload: `None` is a field the client left out. */
  datatype Payload = Payload(
    prompt: Option<string>,
    maxTokens: Option<int>,
    temperature: Option<real>,
    topP: Option<real>,
    repeatPenalty: Option<real>,
    stop: Option<seq<string>>,
    sessionId: Option<string>)

  /** A request with every default filled in. */
  datatype InferenceRequest = InferenceRequest(
    prompt: string,
    maxTokens: int,
    temperature: real,
    topP: real,
    repeatPenalty: real,
    stop: Option<seq<string>>,
    sessionId: Option<string>)

  predicate PromptOk(p: string) { |p| >= 1 }
  predicate MaxTokensOk(n: int) { 0 < n <= MaxTokensLimit }
  predicate TemperatureOk(t: real) { 0.0 <= t <= 2.0 }
  predicate TopPOk(p: real) { 0.0 <= p <= 1.0 }
  predicate RepeatPenaltyOk(r: real) { 1.0 <= r <= 2.0 }

  /** Every field constraint of the schema holds. */
  predicate Valid(r: InferenceRequest)
  {
    && PromptOk(r.prompt)
    && MaxTokensOk(r.maxTokens)
    && TemperatureOk(r.temperature)
    && TopPOk(r.topP)
    && RepeatPenaltyOk(r.repeatPenalty)
  }

  /** The failing fields of `p` in declaration order; a missing prompt fails. */
  function FieldErrors(p: Payload): seq<Field>
  {
    (if p.prompt.None? || !PromptOk(p.prompt.value) then [PromptField] else [])
    + (if !MaxTokensOk(p.maxTokens.GetOr(DefaultMaxTokens)) then [MaxTokensField] else [])
    + (if !TemperatureOk(p.temperature.GetOr(DefaultTemperature)) then [TemperatureField] else [])
    + (if !TopPOk(p.topP.GetOr(DefaultTopP)) then [TopPField] else [])
    + (if !RepeatPenaltyOk(p.repeatPenalty.GetOr(DefaultRepeatPenalty)) then [RepeatPenaltyField] else [])
  }

  /**
   * Builds an `InferenceRequest` from a payload: fields left out take their
   * defaults, and the request is refused, naming each failing field, unless
   * every constraint holds.
   */
  function Validate(p: Payload): (r: Result<InferenceRequest, seq<Field>>)
    ensures r.Success? <==>
      && p.prompt.Some? && PromptOk(p.prompt.value)
      && MaxTokensOk(p.maxTokens.GetOr(DefaultMaxTokens))
      && TemperatureOk(p.temperature.GetOr(DefaultTemperature))
      && TopPOk(p.topP.GetOr(DefaultTopP))
      && RepeatPenaltyOk(p.repeatPenalty.GetOr(DefaultRepeatPenalty))
    ensures r.Success? ==>
      && Valid(r.value)
      && r.value.prompt == p.prompt.value
      && r.value.maxTokens == p.maxTokens.GetOr(DefaultMaxTokens)
      && r.value.temperature == p.temperature.GetOr(DefaultTemperature)
      && r.value.topP == p.topP.GetOr(DefaultTopP)
      && r.value.repeatPenalty == p.repeatPenalty.GetOr(DefaultRepeatPenalty)
      && r.value.stop == p.stop
      && r.value.sessionId == p.sessionId
    ensures r.Failure? ==>
      && r.error != []
      && (PromptField in r.error <==> p.prompt.None? || !PromptOk(p.prompt.value))
      && (MaxTokensField in r.error <==> !MaxTokensOk(p.maxTokens.GetOr(DefaultMaxTokens)))
      && (TemperatureField in r.error <==> !TemperatureOk(p.temperature.GetOr(DefaultTemperature)))
      && (TopPField in r.error <==> !TopPOk(p.topP.GetOr(DefaultTopP)))
      && (RepeatPenaltyField in r.error <==> !RepeatPenaltyOk(p.repeatPenalty.GetOr(DefaultRepeatPenalty)))
  {
    var errors := FieldErrors(p);
    if errors != [] then Failure(errors)
    else
      Success(InferenceRequest(
        p.prompt.value,
        p.maxTokens.GetOr(DefaultMaxTokens),
        p.temperature.GetOr(DefaultTemperature),
        p.topP.GetOr(DefaultTopP),
        p.repeatPenalty.GetOr(DefaultRepeatPenalty),
        p.stop,
        p.sessionId))
  }

  /** The payload that names every field of `r` explicitly. */
  function ToPayload(r: InferenceRequest): Payload
  {
    Payload(Some(r.prompt), Some(r.maxTokens), Some(r.temperature), Some(r.topP),
            Some(r.repeatPenalty), r.stop, r.sessionId)
  }

  /** A request survives being sent in full exactly when it is valid. */
  lemma ValidateToPayload(r: InferenceRequest)
    ensures Valid(r) ==> Validate(ToPayload(r)) == Success(r)
    ensures !Valid(r) ==> Validate(ToPayload(r)).Failure?
  {
  }

  /** The defaults pass their own checks: a payload holding only a prompt is valid iff the prompt is non-empty. */
  lemma PromptOnlyPayload(prompt: string)
    ensures var r := Validate(Payload(Some(prompt), None, None, None, None, None, None));
            (r.Success? <==> |prompt| >= 1)
            && (r.Success? ==> r.value == InferenceRequest(prompt, DefaultMaxTokens, DefaultTemperature,
                                                          DefaultTopP, DefaultRepeatPenalty, None, None))
  {
  }
}
