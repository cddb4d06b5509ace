/**
 * The generation engine as the gateway sees it: loading may fail because the
 * model file is missing, and a loaded engine turns generation parameters into
 * a finite run of fragments that may end in an error.
 */
module Engine {
  import opened Wrappers
  import Requests

  /** The arguments the gateway passes to `generate_stream`. */
  datatype GenerationParams = GenerationParams(
    prompt: string,
    maxTokens: int,
    temperature: real,
    topP: real,
    repeatPenalty: real,
    stop: Option<seq<string>>)

  /** An error raised by the engine while it streams. */
  datatype EngineError = FileNotFound(message: string) | RuntimeFailure(message: string)

  /** Everything one generation yields: its fragments in order, then possibly an error. */
  datatype Run = Run(fragments: seq<string>, failure: Option<EngineError>)

  /** The outcome of obtaining the engine. */
  datatype EngineLoad = ModelMissing(message: string) | Loaded(generate: GenerationParams -> Run)

  /** The generation parameters for a prompt and a validated request, passed through unchanged. */
  function Params(prompt: string, r: Requests.InferenceRequest): GenerationParams
  {
    GenerationParams(prompt, r.maxTokens, r.temperature, r.topP, r.repeatPenalty, r.stop)
  }
}
