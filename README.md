# FabricAI inference gateway, modelled in Dafny

This project models the core of the FabricAI inference server. The core is the gateway that sits in front of a local language model. It has three parts:

- **Session store** (`RedisSessionManager`). Conversations live under the key `"session:<id>"` as ordered `(role, text)` turns. The store renders a conversation as a prompt: `User: …\n`, `Assistant: …\n` or `<role>: …\n` per turn, followed by the cue `Assistant:`.
- **Admission control and generation flows** (`server.py`). A bounded `asyncio.Queue` serves only as a counter of waiting requests. A semaphore bounds how many requests generate at once. There are two endpoints:
  - the server-sent-events (SSE) endpoint, which streams `data: <token>\n\n` frames;
  - the Socket.IO handler, which emits `inference_token`, `inference_complete` and `inference_error` events.

  Both relay the engine's fragments in order. On success they record the stripped reply as an assistant turn. On an engine error they report it. The `/v1/status` query reads the counters.
- **Request schema** (`InferenceRequest`). It range-checks four sampling fields, applies defaults, and requires a non-empty prompt.

Files:
- `wrappers.dfy`: `Option` and `Result`.
- `text.dfy`: `"".join` and Python's `str.strip()`, with Python's whitespace set.
- `requests.dfy`: the request schema.
- `sessions.dfy`: the session store. The backend is a `map<string, seq<Turn>>` held by the class `SessionManager`. JSON encoding is taken as the identity.
- `engine.dfy`: the engine as the gateway sees it. Loading may fail. A loaded engine maps generation parameters to a finite run of fragments, optionally followed by an error.
- `server.py` is modelled by `server.dfy`:
  - the class `Gateway` holds the queue occupancy, the free semaphore permits, both capacities and the session manager;
  - each counter update is one atomic step method;
  - each endpoint is a method over that state that returns its frames or events;
  - a ghost log of `Step`s (acquire, engine call, reply commit, release) lets the contracts say that the engine runs and the reply is committed only while a permit is held. The engine call and the commit carry the count of free permits at that moment.
  - `StreamOutcome` and `ServeOutcome` state what each endpoint produces once it has left the queue: its frames or events, any raised error, and the store.
- `scenarios.dfy`: client methods that walk through concrete runs.

Each flow is split at the point where it waits for the semaphore:
- `InferenceSse` is the SSE handler up to returning the streaming response. `SseGenerator` is the generator body, which runs once a permit is free. `StreamAndRelease` is the part of the generator body after it leaves the queue.
- `HandleInferencePrompt` validates the request and joins the queue. `RunAdmittedPrompt` is the body of `async with sem`. `ServeAndRelease` is that body after it leaves the queue, and `ServePrompt` is the same without the release.

Inputs from the environment are parameters:
- the engine outcome (`EngineLoad`), in place of the lazy `get_engine` singleton;
- the generated session id, in place of `uuid.uuid4()`. It is required to be non-empty, as every uuid string is.

## Model

| member | source | states |
|---|---|---|
| Text.JoinEmpty | fabricai_inference_server/server.py:93 | `"".join(parts)` (the function `Join`) is empty exactly when every part is empty. |
| Text.Strip | fabricai_inference_server/server.py:93 | The result has no leading or trailing whitespace (Python's whitespace set). It is the infix of the input left after removing an all-whitespace prefix and suffix. It is empty iff the input is all whitespace. |
| Text.StripPadded | fabricai_inference_server/server.py:93 | Stripping a trimmed text padded on both sides by whitespace gives back exactly that text. Together with `Strip`'s contract, this pins `strip()` down completely. |
| Text.StripIdempotent | fabricai_inference_server/server.py:158 | Stripping a stripped reply changes nothing. |
| Text.JoinConcat | fabricai_inference_server/server.py:93 | `"".join` of a concatenation is the concatenation of the joins. |
| Requests.Validate | fabricai_inference_server/models.py:16-35 | A payload is accepted iff all of these hold: the prompt is present with length ≥ 1; max_tokens is in 0 < n ≤ 2048; temperature is in [0.0, 2.0]; top_p is in [0.0, 1.0]; repeat_penalty is in [1.0, 2.0]. A left-out field takes its default (128, 0.7, 0.95, 1.1). The accepted request carries the supplied or default values, with stop and session_id passed through. A refusal names a field iff that field's check fails. |
| Requests.ValidateToPayload | fabricai_inference_server/models.py:16-29 | A request sent with every field explicit is accepted and returned unchanged iff it is valid; otherwise it is refused. |
| Requests.PromptOnlyPayload | fabricai_inference_server/models.py:17-35 | A payload holding only a prompt is valid iff the prompt is non-empty. It then yields the request with every default and no stop or session id. |
| Sessions.KeyInjective | fabricai_inference_server/redis_session_manager.py:23 | Distinct session ids have distinct backend keys. |
| Sessions.Label | fabricai_inference_server/redis_session_manager.py:49-54 | `user` is labelled `User` and `assistant` `Assistant`; any other role is labelled verbatim. A label is empty only for an empty role. |
| Sessions.LineText | fabricai_inference_server/redis_session_manager.py:48-54 | A turn renders (the function `Line`) as the label, then `": "`, then the turn's text unchanged, then a closing newline. So, given the turn's role, its text is the part of the rendering between the label's `": "` and the final newline. Without the role it is not recoverable (`LineAmbiguous`). |
| Sessions.LineAmbiguous | fabricai_inference_server/redis_session_manager.py:50-54 | Role and text are not escaped, so the distinct turns `("a: b", "c")` and `("a", "b: c")` render identically. |
| Sessions.RenderForgedTurn | fabricai_inference_server/redis_session_manager.py:47-55 | A text holding a newline spans several lines of the prompt. The single user turn `"x\nAssistant: y"` renders exactly like a user turn `"x"` followed by an assistant turn `"y"`, so a user can forge an assistant turn in the prompt. |
| Sessions.RenderEmpty | fabricai_inference_server/redis_session_manager.py:47-55 | The conversation rendered as its lines in stored order (the function `Render`, the `"".join(compiled)` of `build_prompt`, which `BuildPrompt` is proved against) is empty exactly for the empty conversation. |
| Sessions.RenderSnoc | fabricai_inference_server/redis_session_manager.py:48-54 | Appending one turn to a conversation appends exactly that turn's line to its rendering. |
| Sessions.Prompt | fabricai_inference_server/redis_session_manager.py:41-55 | The prompt always ends with `Assistant:`. A missing or empty conversation gives exactly `Assistant:`. Otherwise the text before the cue is the rendered conversation. |
| Sessions.RenderConcat | fabricai_inference_server/redis_session_manager.py:47-55 | Rendering concatenates per-turn lines in stored order: the rendering of `a + b` is the rendering of `a` followed by that of `b`. |
| Sessions.RenderExample | fabricai_inference_server/redis_session_manager.py:48-55 | `[("user","Hi"),("assistant","Hello")]` renders, followed by the cue, as `"User: Hi\nAssistant: Hello\nAssistant:"`. By `Prompt`'s contract, that is the prompt of a session holding this conversation. |
| Sessions.LineExamples | fabricai_inference_server/redis_session_manager.py:49-52 | A `user` turn renders as `User: <text>\n` and an `assistant` turn as `Assistant: <text>\n`. |
| Sessions.PromptAfterTurn | fabricai_inference_server/redis_session_manager.py:28-55 | After appending `(r, t)`, the prompt is the old prompt without its trailing cue, then the line for `(r, t)`, then `Assistant:`. |
| Sessions.PromptOfOtherSession | fabricai_inference_server/redis_session_manager.py:30-34 | Appending to one session leaves every other session's prompt unchanged. |
| Sessions.FirstTurnOfNewSession | fabricai_inference_server/redis_session_manager.py:23-34 | For an id with no conversation: creating it and then appending one turn leaves exactly that one turn, and every other stored key is untouched. |
| Sessions.SessionManager.GetOrCreateSession | fabricai_inference_server/redis_session_manager.py:19-26 | A non-empty supplied id is returned unchanged. An absent or empty one is replaced by the generated id. The returned id is never empty. Afterwards its key exists. A missing key is initialised to the empty conversation; an existing one is left untouched, and so is the rest of the store. |
| Sessions.SessionManager.AddMessage | fabricai_inference_server/redis_session_manager.py:28-34 | If the key exists, it appends exactly `(role, content)` at the end: the length grows by one, and the earlier turns and all other keys are unchanged. If the key is missing, it fails and writes nothing. |
| Sessions.SessionManager.BuildPrompt | fabricai_inference_server/redis_session_manager.py:36-55 | Its loop computes exactly `Prompt(store, id)`. It has no `modifies` clause, so two calls with no `AddMessage` between them return the same text. |
| Server.StatusCode | fabricai_inference_server/server.py:171-178 | 429 for a full queue and 404 for ModelNotFoundException, from the gateway's handlers; 422 for a refused body and 500 for an unhandled exception, from the framework. A model missing when the SSE endpoint loads it is such an unhandled exception, so it gives 500. Every code is in 400..599, and only the unhandled exception is a 5xx. |
| Server.StatusCodeDistinguishesKinds | fabricai_inference_server/server.py:171-178 | Two errors get the same status code exactly when they are of the same kind. |
| Server.SseFrames | fabricai_inference_server/server.py:91 | There is exactly one frame per token, in order: frame `i` is `"data: " + token_i + "\n\n"`. |
| Server.TokenEvents | fabricai_inference_server/server.py:157 | There is exactly one `inference_token` event per token, in order. |
| Server.SseFrameInjective | fabricai_inference_server/server.py:91 | Distinct tokens give distinct frames. |
| Server.SseFramesInjective | fabricai_inference_server/server.py:82-91 | The list of frames determines the list of tokens. The concatenated byte stream does not (`FrameStreamAmbiguous`). |
| Server.FrameStreamAmbiguous | fabricai_inference_server/server.py:91 | Tokens are not escaped, so on the wire the single token `"x\n\ndata: y"` gives the same bytes as the two tokens `"x"` and `"y"`. |
| Server.TokenLooksLikeError | fabricai_inference_server/server.py:91-99 | A token starting with `ERROR: ` is framed exactly like a mid-stream error report, so the two cannot be told apart on the wire. |
| Server.RelaySse | fabricai_inference_server/server.py:82-91 | The SSE relay loop emits `SseFrames(fragments)` and keeps every fragment, in order, for the reply. |
| Server.RelaySocket | fabricai_inference_server/server.py:148-157 | The Socket.IO relay loop emits `TokenEvents(fragments)` and keeps every fragment, in order, for the reply. |
| Server.Gateway.QueueFullAtCapacity | fabricai_inference_server/server.py:72 | About `QueueFull`, which is `request_queue.full()` (also used at server.py:55 and 133): a queue whose size bound is zero or less is never full. Under `Valid()`, a bounded queue is full exactly when it holds its bound. |
| Server.Gateway.constructor | fabricai_inference_server/server.py:29-32 | The gateway starts with an empty queue and all permits free. |
| Server.Gateway.Status | fabricai_inference_server/server.py:43-51 | It changes no state (no `modifies` clause). It reports queue_size equal to the occupancy, active_requests equal to the capacity minus the free permits, and both capacities. It also guarantees 0 ≤ active_requests ≤ max_concurrent_requests, and queue_size ≤ queue_max_size when the queue is bounded. |
| Server.Gateway.JoinQueueOrFail | fabricai_inference_server/server.py:54-57 | On a full queue, it refuses with 429 "Request queue is full." and leaves occupancy unchanged. Otherwise occupancy rises by exactly one. Occupancy never exceeds a positive `QUEUE_MAX_SIZE`. Neither endpoint calls `join_queue_or_fail`: both inline the same check (server.py:72-74 and 133-137), with their own refusals. |
| Server.Gateway.LeaveQueue | fabricai_inference_server/server.py:60-62 | It lowers occupancy by exactly one. On an empty queue it fails and changes nothing. |
| Server.Gateway.AcquireSlot | fabricai_inference_server/server.py:78 | It takes one free permit and records `Acquire` in the ghost step log. The number of active generations stays within `MAX_CONCURRENT_REQUESTS`. |
| Server.Gateway.ReleaseSlot | fabricai_inference_server/server.py:139 | It gives back the held permit and records `Release` in the step log. |
| Server.Gateway.RunEngine | fabricai_inference_server/server.py:82-89 | The engine is called with exactly the given parameters, and only by a caller holding a permit (`permits < MAX_CONCURRENT_REQUESTS`). The log records `Generate(free)`, where `free` is the number of permits left at that moment. It also serves lines 148-155. |
| Server.Gateway.CommitReply | fabricai_inference_server/server.py:94 | The reply is appended as an `assistant` turn. This succeeds iff the session's key exists, and a missing key leaves the store unchanged. Only a permit holder may call it, and the log records `Commit(free)`. It also serves line 159. |
| Server.Gateway.InferenceSse | fabricai_inference_server/server.py:65-101 | An invalid payload gives 422, and a missing model file (get_engine outside any try) gives 500 with the generic `Internal Server Error` body, not the engine's message; in both cases nothing changes. Otherwise the session is created if needed and the user turn is appended before the queue check. A full queue then gives 429 (QueueFullException), leaves occupancy unchanged and keeps the user turn. If the queue has room, occupancy rises by one and the pending stream carries this session, the prompt built from the new history, the request and the engine. |
| Server.Gateway.RecordUserTurn | fabricai_inference_server/server.py:141-143 | The returned id is the supplied non-empty id or else the generated one. Afterwards the store is the old store with that session created if missing and `("user", prompt)` appended to it. The returned prompt is the one built from that updated history. |
| Server.Gateway.StreamAndRelease | fabricai_inference_server/server.py:80-99 | Frames, raised error and store are those of `StreamOutcome`. It emits one frame per fragment. On completion it appends `strip(join(fragments))` as the assistant turn. A runtime error is followed by `data: ERROR: <msg>\n\n` and no assistant turn. A FileNotFoundError becomes ModelNotFoundException with no assistant turn. A conversation that has gone missing gives an error frame carrying the JSON decoder's TypeError. The log gains the engine call, the commit when the run succeeds, and then `Release`. The engine call and the commit are both recorded with the caller's permit still held. |
| Server.Gateway.SseGenerator | fabricai_inference_server/server.py:76-99 | It takes a permit and then leaves the queue. An empty queue gives the frame `data: ERROR: \n\n` and changes nothing else. Otherwise it streams as `StreamAndRelease` does. The log gains exactly `Acquire`, then `Generate(p-1)`, then `Commit(p-1)` when the run succeeds, then `Release`, where `p` is the number of free permits on entry. So the permit is held from before the engine runs until after the history commit, and it is given back on every path. |
| Server.Gateway.HandleInferencePrompt | fabricai_inference_server/server.py:127-137 | Validation comes first. An invalid payload gives one `inference_error` event naming the failing fields. A full queue gives `inference_error` "Queue is full (429).". Neither changes the queue or the store. Otherwise the request is admitted and occupancy rises by exactly one. |
| Server.Gateway.GenerateAndCommit | fabricai_inference_server/server.py:147-168 | A permit must be held. The engine is called with the built prompt and the request's sampling fields. One `inference_token` event is emitted per fragment, in order. On completion, the stripped join of the fragments is appended as the assistant turn and reported in `inference_complete` with the session id. On an engine error, one `inference_error` carries its message and the store is unchanged. The log gains `Generate`, and then `Commit` on completion, both with the current permit count. |
| Server.Gateway.ServePrompt | fabricai_inference_server/server.py:141-168 | A permit must be held. Events, raised exception and store are those of `ServeOutcome`. The user turn is recorded first. A model that fails to load then raises with no event, and no engine step is logged. Otherwise the run is served as in `GenerateAndCommit`, with its steps logged (`ServeSteps`). |
| Server.Gateway.ServeAndRelease | fabricai_inference_server/server.py:139-168 | It serves as `ServePrompt` and then gives back the permit, logging `Release` after the serving steps. |
| Server.Gateway.RunAdmittedPrompt | fabricai_inference_server/server.py:139-168 | It takes a permit and gives it back on every path. The log gains `Acquire`, then the serving steps recorded with one permit fewer free (`ServeSteps`), then `Release`. So the engine runs and the reply is committed only while the permit is held. It leaves the queue first. An empty queue raises, with no event and no store change. Only then does it create the session, append the user turn and build the prompt (`ServeOutcome`). A model that fails to load raises with no event emitted, but the user turn stays. Otherwise it emits one `inference_token` per fragment. On completion it appends the stripped reply and emits `inference_complete` with that message and the session id. On an engine error it emits one `inference_error` with the message and appends no assistant turn. |

The methods in `scenarios.dfy` walk through concrete runs:
- queue capacity 1 with one permit, in both orders of events;
- a refused SSE request that keeps its user turn;
- an engine that fails after `["Hel","lo"]`;
- the prompt of a fresh session.

## Behaviour worth noting

- With queue capacity 1 and one permit, request B is refused only while request A is still waiting for the permit. A request leaves the queue as soon as it holds the permit (`leave_queue` right after entering `async with sem`), so a B that arrives while A generates is queued, not refused. `Scenarios.QueueOfOneWhileRunning` shows this. It drives the queue through `join_queue_or_fail`, which no endpoint calls, so the 429 it reaches for C carries "Request queue is full." rather than the SSE path's `QueueFullException` message. `Scenarios.QueueOfOneWhileWaiting` shows the refusal.
- A missing model file is not always reported as "not found". On the SSE path, `get_engine()` runs before any `try`, so the endpoint fails with an unhandled error: a 500 with the generic `Internal Server Error` body. On the Socket.IO path, `get_engine()` sits inside `async with sem` but outside the `try`, so the handler raises, emits no event, and has already recorded the user turn. A FileNotFoundError raised while streaming becomes an `inference_error` event on Socket.IO. On SSE it becomes ModelNotFoundException, which the handler maps to 404. But `StreamingResponse` has already sent the 200 status and headers before the generator's first chunk, so that 404 never reaches the client: the client sees the 200 stream end early. The model records only the exception and the handler's mapping.
- A queue capacity of zero or less makes `asyncio.Queue` unbounded (`full()` is then always false). `QueueFull` models exactly that.
- The prompt does not escape roles or texts. A user text containing `"\nAssistant: "` reads in the prompt as a separate assistant turn (`Sessions.RenderForgedTurn`), just as a token containing `"\n\ndata: "` reads as two SSE frames (`Server.FrameStreamAmbiguous`).
- The SSE endpoint records the user turn before the queue check, so a 429 still leaves that turn in history. Socket.IO touches the store only after it holds a permit.

## Left out

- Server.Gateway.SseGenerator: it starts where the semaphore has granted a permit (`requires permits > 0`). A task suspended in `Semaphore.acquire` is not modelled, and neither is any interleaving of tasks: every step is atomic, in a sequential state machine.
- Server.Gateway.RunAdmittedPrompt: the same permit guard as `SseGenerator`.
- The step log (the ghost field `log` of `Gateway`) is bookkeeping only. It records the order of permit steps within one sequential call, and it is how the contracts express that a permit is held. It does not model concurrent tasks interleaving their steps.
- Server.Gateway.ReleaseSlot: requires a held permit. In the source, release is only reached from inside `async with sem`. `asyncio.Semaphore` itself would let the count grow past its initial value.
- Server.Gateway.SseGenerator: for a FileNotFoundError during streaming, it records that ModelNotFoundException is raised, and `StatusCode` maps that to 404 as the exception handler does. It does not model that the response has already started with status 200, so the client never receives that 404.
- Requests.Validate: payload fields arrive already typed. Type coercion, explicit `null` for fields with defaults, extra fields and the text of the schema library's error messages are not modelled. A refusal carries the list of failing fields.
- The engine (`engine.py`) is represented only by `EngineLoad`, `Run` and `GenerationParams`. Tokenisation, sampling and the `llama_cpp` binding are not modelled. Each run yields all of its fragments before any error it ends with. This covers an engine that fails after k fragments.
- The lazy engine singleton `get_engine` is replaced by the engine outcome given as a parameter on each call.
- `uuid.uuid4()` is a non-empty `generated` parameter. The code does not check generated ids for collisions, and the model does not assume uniqueness.
- Redis client I/O, JSON (de)serialisation and backend connection failures are replaced by the in-memory map. The connection settings in `RedisSessionManager.__init__` are not modelled.
- FastAPI routing, `StreamingResponse`, the Socket.IO server, CORS, the connect and disconnect hooks, and client disconnects are transport plumbing and are not modelled. `settings.py`, `exceptions.py` (apart from its default messages) and `examples/local_test.py` hold configuration and demo code.
- Floating-point sampling values are modelled as `real`. They are only compared against their bounds.
