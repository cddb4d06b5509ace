/**
 * The inference gateway: admission control (a bounded waiting queue, used
 * only as a counter, and a semaphore bounding concurrent generations), the
 * server-sent-events endpoint, the Socket.IO handler and the status query.
 */
module Server {
  import opened Wrappers
  import opened Text
  import Requests
  import opened Sessions
  import opened Engine

  /** Default message of `QueueFullException`. */
  const QueueFullMessage: string := "Request queue is full. Too many requests in progress."
  /** Detail of the 429 raised by `join_queue_or_fail`. */
  const JoinQueueDetail: string := "Request queue is full."
  /** The error the Socket.IO handler emits when the queue is full. */
  const QueueFullEvent: string := "Queue is full (429)."
  /** What decoding the conversation of an absent key raises (JSON decoding of `None`). */
  const NoConversationMessage: string := "the JSON object must be str, bytes or bytearray, not NoneType"

  /**
   * The errors an HTTP client of the gateway can see. An exception no
   * handler covers reaches the client only as the framework's generic
   * `Internal Server Error` body, so `InternalError` carries no message.
   */
  datatype HttpError =
    | ValidationFailed(fields: seq<Requests.Field>)
    | InternalError
    | TooManyRequests(message: string)
    | ModelNotFound(message: string)

  /**
   * The status code each error is answered with: 429 and 404 from the
   * gateway's own exception handlers, 422 for a refused body and 500 for an
   * unhandled exception. Every error is a 4xx or 5xx answer, and only the
   * unhandled exception is a server error.
   */
  function StatusCode(e: HttpError): (code: int)
    ensures 400 <= code <= 599
    ensures code >= 500 <==> e.InternalError?
  {
    match e
    case ValidationFailed(_) => 422
    case InternalError => 500
    case TooManyRequests(_) => 429
    case ModelNotFound(_) => 404
  }

  /** Errors of different kinds are answered with different status codes. */
  lemma StatusCodeDistinguishesKinds(a: HttpError, b: HttpError)
    ensures StatusCode(a) == StatusCode(b) <==>
            (a.ValidationFailed? && b.ValidationFailed?) || (a.InternalError? && b.InternalError?)
            || (a.TooManyRequests? && b.TooManyRequests?) || (a.ModelNotFound? && b.ModelNotFound?)
  {
  }

  /** What the SSE generator closes over: the session, the prompt, the request and the engine. */
  datatype Pending = Pending(
    sessionId: string,
    prompt: string,
    request: Requests.InferenceRequest,
    generate: GenerationParams -> Run)

  /** The answer of the SSE endpoint: an error, or a stream still to be produced. */
  datatype SseResponse = Rejected(error: HttpError) | Streaming(pending: Pending)

  datatype ErrorDetail = InvalidFields(fields: seq<Requests.Field>) | Message(text: string)

  /** Events the Socket.IO handler emits to the requesting client. */
  datatype Event =
    | InferenceToken(token: string)
    | InferenceComplete(message: string, sessionId: string)
    | InferenceError(error: ErrorDetail)

  /** Exceptions that escape the Socket.IO handler without an event being emitted. */
  datatype Raised = QueueEmpty | ModelFileMissing(message: string)

  /**
   * The permit-relevant steps a gateway takes, in order. The engine call
   * and the reply commit record how many permits were free at that moment.
   */
  datatype Step = Acquire | Release | Generate(freePermits: int) | Commit(freePermits: int)

  datatype StatusReport = StatusReport(
    queueSize: int,
    queueMaxSize: int,
    activeRequests: int,
    maxConcurrentRequests: int)

  function SseFrame(token: string): string { "data: " + token + "\n\n" }

  function SseErrorFrame(message: string): string { "data: ERROR: " + message + "\n\n" }

  /** The frames of a run of tokens: one per token, in order. */
  function SseFrames(tokens: seq<string>): (frames: seq<string>)
    ensures |frames| == |tokens|
    ensures forall i :: 0 <= i < |tokens| ==> frames[i] == SseFrame(tokens[i])
  {
    if tokens == [] then [] else SseFrames(tokens[..|tokens| - 1]) + [SseFrame(tokens[|tokens| - 1])]
  }

  /** The token events of a run of tokens: one per token, in order. */
  function TokenEvents(tokens: seq<string>): (events: seq<Event>)
    ensures |events| == |tokens|
    ensures forall i :: 0 <= i < |tokens| ==> events[i] == InferenceToken(tokens[i])
  {
    if tokens == [] then [] else TokenEvents(tokens[..|tokens| - 1]) + [InferenceToken(tokens[|tokens| - 1])]
  }

  lemma SseFrameInjective(a: string, b: string)
    ensures SseFrame(a) == SseFrame(b) ==> a == b
  {
    var fa, fb := SseFrame(a), SseFrame(b);
    assert a == fa[6..|fa| - 2];
    assert b == fb[6..|fb| - 2];
  }

  /**
   * The list of frames determines the list of tokens. The byte stream a
   * client reads, the frames concatenated, does not: see
   * `FrameStreamAmbiguous`.
   */
  lemma SseFramesInjective(a: seq<string>, b: seq<string>)
    ensures SseFrames(a) == SseFrames(b) ==> a == b
  {
    if SseFrames(a) == SseFrames(b) {
      forall i | 0 <= i < |a| ensures a[i] == b[i] {
        SseFrameInjective(a[i], b[i]);
      }
    }
  }

  /**
   * Tokens are framed without escaping, so one token holding a blank line
   * and `data: ` reads, on the wire, like two tokens.
   */
  lemma FrameStreamAmbiguous()
    ensures Join(SseFrames(["x\n\ndata: y"])) == Join(SseFrames(["x", "y"]))
  {
    var one, two := SseFrames(["x\n\ndata: y"]), SseFrames(["x", "y"]);
    assert one == [SseFrame("x\n\ndata: y")];
    assert two == [SseFrame("x"), SseFrame("y")];
    assert Join(one) == SseFrame("x\n\ndata: y") by { assert one[..0] == []; }
    assert Join(two) == SseFrame("x") + SseFrame("y") by {
      assert two[..1] == [SseFrame("x")] && two[..1][..0] == [];
    }
  }

  /** A token that starts with "ERROR: " is framed exactly like an error report. */
  lemma TokenLooksLikeError(m: string)
    ensures SseFrame("ERROR: " + m) == SseErrorFrame(m)
  {
  }

  /** The SSE relay loop: one frame per fragment, and the fragments kept for the reply. */
  method RelaySse(fragments: seq<string>) returns (frames: seq<string>, reply: seq<string>)
    ensures frames == SseFrames(fragments)
    ensures reply == fragments
  {
    frames, reply := [], [];
    for i := 0 to |fragments|
      invariant frames == SseFrames(fragments[..i])
      invariant reply == fragments[..i]
    {
      assert fragments[..i + 1][..i] == fragments[..i];
      reply := reply + [fragments[i]];
      frames := frames + [SseFrame(fragments[i])];
    }
    assert fragments[..|fragments|] == fragments;
  }

  /** The Socket.IO relay loop: one token event per fragment, and the fragments kept for the reply. */
  method RelaySocket(fragments: seq<string>) returns (events: seq<Event>, reply: seq<string>)
    ensures events == TokenEvents(fragments)
    ensures reply == fragments
  {
    events, reply := [], [];
    for i := 0 to |fragments|
      invariant events == TokenEvents(fragments[..i])
      invariant reply == fragments[..i]
    {
      assert fragments[..i + 1][..i] == fragments[..i];
      reply := reply + [fragments[i]];
      events := events + [InferenceToken(fragments[i])];
    }
    assert fragments[..|fragments|] == fragments;
  }

  /**
   * The steps of one engine run while `free` permits are left: the call,
   * then the commit when the run ends without error.
   */
  function EngineSteps(run: Run, free: int): seq<Step>
  {
    [Generate(free)] + if run.failure.None? then [Commit(free)] else []
  }

  /**
   * What the SSE generator sends, raises and leaves in the store once it has
   * left the queue: one frame per fragment, then, by how the run ended, a
   * ModelNotFoundException for a model file that went missing, an error
   * frame for a runtime error, or the stripped reply appended as the
   * assistant turn. A conversation missing by then gives an error frame
   * and no turn.
   */
  function StreamOutcome(store: Store, p: Pending): (seq<string>, Option<HttpError>, Store)
  {
    var run := p.generate(Params(p.prompt, p.request));
    match run.failure
    case Some(FileNotFound(m)) => (SseFrames(run.fragments), Some(ModelNotFound(m)), store)
    case Some(RuntimeFailure(m)) => (SseFrames(run.fragments) + [SseErrorFrame(m)], None, store)
    case None =>
      if Key(p.sessionId) in store then
        (SseFrames(run.fragments), None,
         WithTurn(store, p.sessionId, Turn("assistant", Strip(Join(run.fragments)))))
      else
        (SseFrames(run.fragments) + [SseErrorFrame(NoConversationMessage)], None, store)
  }

  /**
   * What the Socket.IO handler emits, raises and leaves in the store once it
   * has left the queue. The user turn is recorded first. A model that fails
   * to load then raises with no event. Otherwise one token event per
   * fragment follows, then either the completion, carrying the stripped
   * reply that is also appended as the assistant turn, or the engine's
   * error, with no assistant turn.
   */
  function ServeOutcome(store: Store, req: Requests.InferenceRequest, engine: EngineLoad, generated: string)
    : (seq<Event>, Option<Raised>, Store)
  {
    var id := SessionIdFor(req.sessionId, generated);
    var withUser := WithTurn(WithSession(store, id), id, Turn("user", req.prompt));
    match engine
    case ModelMissing(m) => ([], Some(ModelFileMissing(m)), withUser)
    case Loaded(generate) =>
      var run := generate(Params(Prompt(withUser, id), req));
      if run.failure.Some? then
        (TokenEvents(run.fragments) + [InferenceError(Message(run.failure.value.message))], None, withUser)
      else
        var reply := Strip(Join(run.fragments));
        (TokenEvents(run.fragments) + [InferenceComplete(reply, id)], None,
         WithTurn(withUser, id, Turn("assistant", reply)))
  }

  /** The permit steps of serving a prompt with `free` permits left: none when the model fails to load. */
  function ServeSteps(store: Store, req: Requests.InferenceRequest, engine: EngineLoad, generated: string, free: int)
    : seq<Step>
  {
    var id := SessionIdFor(req.sessionId, generated);
    var withUser := WithTurn(WithSession(store, id), id, Turn("user", req.prompt));
    match engine
    case ModelMissing(_) => []
    case Loaded(generate) => EngineSteps(generate(Params(Prompt(withUser, id), req)), free)
  }

  /**
   * The gateway's shared state: the occupancy of the waiting queue, the free
   * permits of the concurrency semaphore, both capacities, and the session
   * manager.
   */
  class Gateway {
    /** The queue's `maxsize`; zero or less makes the queue unbounded. */
    const queueMaxSize: int
    const maxConcurrentRequests: nat
    const sessions: SessionManager
    var queued: nat
    var permits: int
    /** Every permit step taken so far; only the methods below extend it. */
    ghost var log: seq<Step>

    ghost predicate Valid()
      reads this
    {
      && 0 <= permits <= maxConcurrentRequests
      && (queueMaxSize > 0 ==> queued <= queueMaxSize)
    }

    /** `request_queue.full()`; a `maxsize` of zero or less makes the queue unbounded. */
    predicate QueueFull()
      reads this
    {
      queueMaxSize > 0 && queued >= queueMaxSize
    }

    /**
     * An unbounded queue is never full; a bounded one kept within its
     * capacity is full exactly when it holds `maxsize` entries.
     */
    lemma QueueFullAtCapacity()
      requires Valid()
      ensures queueMaxSize <= 0 ==> !QueueFull()
      ensures QueueFull() <==> queueMaxSize > 0 && queued == queueMaxSize
    {
    }

    constructor (queueMaxSize: int, maxConcurrentRequests: nat, sessions: SessionManager)
      ensures Valid()
      ensures this.queueMaxSize == queueMaxSize && this.maxConcurrentRequests == maxConcurrentRequests
      ensures this.sessions == sessions
      ensures queued == 0 && permits == maxConcurrentRequests && log == []
    {
      this.queueMaxSize := queueMaxSize;
      this.maxConcurrentRequests := maxConcurrentRequests;
      this.sessions := sessions;
      queued := 0;
      permits := maxConcurrentRequests;
      log := [];
    }

    /** Reads the counters; changes nothing. */
    method Status() returns (s: StatusReport)
      requires Valid()
      ensures s.queueSize == queued && s.queueMaxSize == queueMaxSize
      ensures s.activeRequests == maxConcurrentRequests - permits
      ensures s.maxConcurrentRequests == maxConcurrentRequests
      ensures 0 <= s.activeRequests <= s.maxConcurrentRequests
      ensures s.queueMaxSize > 0 ==> s.queueSize <= s.queueMaxSize
    {
      s := StatusReport(queued, queueMaxSize, maxConcurrentRequests - permits, maxConcurrentRequests);
    }

    /** Reserves a queue slot, or refuses with 429 when the queue is full. */
    method JoinQueueOrFail() returns (rejected: Option<HttpError>)
      requires Valid()
      modifies this
      ensures Valid() && permits == old(permits)
      ensures log == old(log)
      ensures old(QueueFull()) ==> rejected == Some(TooManyRequests(JoinQueueDetail)) && queued == old(queued)
      ensures !old(QueueFull()) ==> rejected == None && queued == old(queued) + 1
    {
      if QueueFull() {
        return Some(TooManyRequests(JoinQueueDetail));
      }
      queued := queued + 1;
      rejected := None;
    }

    /** Hands a queue slot back; taking from an empty queue fails and changes nothing. */
    method LeaveQueue() returns (ok: bool)
      requires Valid()
      modifies this
      ensures Valid() && permits == old(permits)
      ensures log == old(log)
      ensures ok <==> old(queued) > 0
      ensures queued == if ok then old(queued) - 1 else old(queued)
    {
      if queued == 0 {
        return false;
      }
      queued := queued - 1;
      ok := true;
    }

    /** Takes a free permit of the semaphore. */
    method AcquireSlot()
      requires Valid() && permits > 0
      modifies this
      ensures Valid() && permits == old(permits) - 1 && queued == old(queued)
      ensures log == old(log) + [Acquire]
    {
      permits := permits - 1;
      log := log + [Acquire];
    }

    /** Gives back a permit held by the caller. */
    method ReleaseSlot()
      requires Valid() && permits < maxConcurrentRequests
      modifies this
      ensures Valid() && permits == old(permits) + 1 && queued == old(queued)
      ensures log == old(log) + [Release]
    {
      permits := permits + 1;
      log := log + [Release];
    }

    /** Calls the engine; only a caller holding a permit may. */
    method RunEngine(generate: GenerationParams -> Run, params: GenerationParams) returns (run: Run)
      requires Valid() && permits < maxConcurrentRequests
      modifies this
      ensures Valid() && permits == old(permits) && queued == old(queued)
      ensures run == generate(params)
      ensures log == old(log) + [Generate(permits)]
    {
      run := generate(params);
      log := log + [Generate(permits)];
    }

    /** Appends the assistant's reply to the history; only a caller holding a permit may. */
    method CommitReply(id: string, reply: string) returns (ok: bool)
      requires Valid() && permits < maxConcurrentRequests
      modifies this, sessions
      ensures Valid() && permits == old(permits) && queued == old(queued)
      ensures ok <==> Key(id) in old(sessions.store)
      ensures ok ==> sessions.store == WithTurn(old(sessions.store), id, Turn("assistant", reply))
      ensures !ok ==> sessions.store == old(sessions.store)
      ensures log == old(log) + [Commit(permits)]
    {
      ok := sessions.AddMessage(id, "assistant", reply);
      log := log + [Commit(permits)];
    }

    /**
     * The session steps both endpoints take before generating: settle on the
     * session id, create its conversation if needed, append the user turn and
     * build the prompt from the updated history.
     */
    method RecordUserTurn(req: Requests.InferenceRequest, generated: string) returns (id: string, prompt: string)
      requires generated != ""
      modifies sessions
      ensures id == SessionIdFor(req.sessionId, generated)
      ensures sessions.store == WithTurn(WithSession(old(sessions.store), id), id, Turn("user", req.prompt))
      ensures prompt == Prompt(sessions.store, id)
    {
      id := sessions.GetOrCreateSession(req.sessionId, generated);
      var added := sessions.AddMessage(id, "user", req.prompt);
      prompt := sessions.BuildPrompt(id);
    }

    /**
     * The SSE endpoint up to returning the streaming response: validation,
     * obtaining the engine, recording the user turn and building the prompt,
     * all before the queue check; then a queue slot is reserved.
     */
    method InferenceSse(payload: Requests.Payload, engine: EngineLoad, generated: string) returns (r: SseResponse)
      requires Valid() && generated != ""
      modifies this, sessions
      ensures Valid() && permits == old(permits) && log == old(log)
      ensures Requests.Validate(payload).Failure? ==>
        && r == Rejected(ValidationFailed(Requests.Validate(payload).error))
        && queued == old(queued) && sessions.store == old(sessions.store)
      ensures Requests.Validate(payload).Success? && engine.ModelMissing? ==>
        && r == Rejected(InternalError)
        && queued == old(queued) && sessions.store == old(sessions.store)
      ensures Requests.Validate(payload).Success? && engine.Loaded? ==>
        var req := Requests.Validate(payload).value;
        var id := SessionIdFor(req.sessionId, generated);
        var store := WithTurn(WithSession(old(sessions.store), id), id, Turn("user", req.prompt));
        && sessions.store == store
        && (old(QueueFull()) ==> r == Rejected(TooManyRequests(QueueFullMessage)) && queued == old(queued))
        && (!old(QueueFull()) ==>
              && r.Streaming? && queued == old(queued) + 1
              && r.pending.sessionId == id && r.pending.prompt == Prompt(store, id)
              && r.pending.request == req && r.pending.generate == engine.generate)
    {
      var validated := Requests.Validate(payload);
      if validated.Failure? {
        return Rejected(ValidationFailed(validated.error));
      }
      var req := validated.value;
      if engine.ModelMissing? {
        return Rejected(InternalError);
      }
      var id, prompt := RecordUserTurn(req, generated);
      if QueueFull() {
        return Rejected(TooManyRequests(QueueFullMessage));
      }
      queued := queued + 1;
      r := Streaming(Pending(id, prompt, req, engine.generate));
    }

    /**
     * The SSE generator once it has left the queue, holding a permit: relay
     * every fragment, then either record the stripped reply as an assistant
     * turn or report the engine's error, and give the permit back.
     */
    method StreamAndRelease(p: Pending) returns (frames: seq<string>, raised: Option<HttpError>)
      requires Valid() && permits < maxConcurrentRequests
      modifies this, sessions
      ensures Valid() && permits == old(permits) + 1 && queued == old(queued)
      ensures (frames, raised, sessions.store) == StreamOutcome(old(sessions.store), p)
      ensures log == old(log) + EngineSteps(p.generate(Params(p.prompt, p.request)), old(permits)) + [Release]
    {
      ghost var free := permits;
      raised := None;
      var run := RunEngine(p.generate, Params(p.prompt, p.request));
      assert sessions.store == old(sessions.store) && log == old(log) + [Generate(free)];
      var reply;
      frames, reply := RelaySse(run.fragments);
      match run.failure {
        case Some(FileNotFound(m)) =>
          raised := Some(ModelNotFound(m));
        case Some(RuntimeFailure(m)) =>
          frames := frames + [SseErrorFrame(m)];
        case None =>
          var finalReply := Strip(Join(reply));
          var ok := CommitReply(p.sessionId, finalReply);
          assert log == old(log) + [Generate(free)] + [Commit(free)];
          if !ok {
            frames := frames + [SseErrorFrame(NoConversationMessage)];
          }
      }
      ReleaseSlot();
    }

    /**
     * The body of the SSE generator, from the moment the semaphore grants a
     * permit: it leaves the queue (an empty queue gives an error frame) and
     * streams; the permit is given back on every path.
     */
    method SseGenerator(p: Pending) returns (frames: seq<string>, raised: Option<HttpError>)
      requires Valid() && permits > 0
      modifies this, sessions
      ensures Valid() && permits == old(permits)
      ensures queued == if old(queued) > 0 then old(queued) - 1 else 0
      ensures old(queued) == 0 ==>
        && frames == [SseErrorFrame("")] && raised == None && sessions.store == old(sessions.store)
        && log == old(log) + [Acquire] + [Release]
      ensures old(queued) > 0 ==>
        && (frames, raised, sessions.store) == StreamOutcome(old(sessions.store), p)
        && log == old(log) + [Acquire] + EngineSteps(p.generate(Params(p.prompt, p.request)), old(permits) - 1) + [Release]
    {
      AcquireSlot();
      var left := LeaveQueue();
      if !left {
        ReleaseSlot();
        return [SseErrorFrame("")], None;
      }
      assert sessions.store == old(sessions.store) && permits == old(permits) - 1;
      frames, raised := StreamAndRelease(p);
    }

    /**
     * The Socket.IO handler up to the semaphore: validation first, then the
     * queue check; neither failure touches the queue or the store.
     */
    method HandleInferencePrompt(payload: Requests.Payload) returns (events: seq<Event>, admitted: Option<Requests.InferenceRequest>)
      requires Valid()
      modifies this
      ensures Valid() && permits == old(permits) && log == old(log)
      ensures match Requests.Validate(payload)
        case Failure(fields) =>
          events == [InferenceError(InvalidFields(fields))] && admitted == None && queued == old(queued)
        case Success(req) =>
          if old(QueueFull()) then
            events == [InferenceError(Message(QueueFullEvent))] && admitted == None && queued == old(queued)
          else
            events == [] && admitted == Some(req) && queued == old(queued) + 1
    {
      var validated := Requests.Validate(payload);
      if validated.Failure? {
        return [InferenceError(InvalidFields(validated.error))], None;
      }
      if QueueFull() {
        return [InferenceError(Message(QueueFullEvent))], None;
      }
      queued := queued + 1;
      events, admitted := [], Some(validated.value);
    }

    /**
     * The `try` block of the Socket.IO handler: relay every fragment as a
     * token event, then either record the stripped reply and report
     * completion, or report the engine's error with no assistant turn.
     */
    method GenerateAndCommit(id: string, prompt: string, req: Requests.InferenceRequest, generate: GenerationParams -> Run)
      returns (events: seq<Event>)
      requires Key(id) in sessions.store
      requires Valid() && permits < maxConcurrentRequests
      modifies this, sessions
      ensures Valid() && permits == old(permits) && queued == old(queued)
      ensures log == old(log) + EngineSteps(generate(Params(prompt, req)), permits)
      ensures var run := generate(Params(prompt, req));
        && (run.failure.Some? ==>
              && events == TokenEvents(run.fragments) + [InferenceError(Message(run.failure.value.message))]
              && sessions.store == old(sessions.store))
        && (run.failure.None? ==>
              var reply := Strip(Join(run.fragments));
              && events == TokenEvents(run.fragments) + [InferenceComplete(reply, id)]
              && sessions.store == WithTurn(old(sessions.store), id, Turn("assistant", reply)))
    {
      ghost var free := permits;
      var run := RunEngine(generate, Params(prompt, req));
      assert sessions.store == old(sessions.store) && log == old(log) + [Generate(free)];
      var reply;
      events, reply := RelaySocket(run.fragments);
      if run.failure.Some? {
        events := events + [InferenceError(Message(run.failure.value.message))];
      } else {
        var finalReply := Strip(Join(reply));
        var ok := CommitReply(id, finalReply);
        assert log == old(log) + [Generate(free)] + [Commit(free)];
        events := events + [InferenceComplete(finalReply, id)];
      }
    }

    /**
     * The Socket.IO handler inside `async with sem`, once it has left the
     * queue: it creates the session, records the user turn, builds the
     * prompt and obtains the engine; a model that fails to load raises, and
     * otherwise the fragments are relayed and the reply committed or the
     * error reported. The caller holds a permit throughout.
     */
    method ServePrompt(req: Requests.InferenceRequest, engine: EngineLoad, generated: string)
      returns (events: seq<Event>, raised: Option<Raised>)
      requires Valid() && permits < maxConcurrentRequests && generated != ""
      modifies this, sessions
      ensures Valid() && permits == old(permits) && queued == old(queued)
      ensures (events, raised, sessions.store) == ServeOutcome(old(sessions.store), req, engine, generated)
      ensures log == old(log) + ServeSteps(old(sessions.store), req, engine, generated, permits)
    {
      var id, prompt := RecordUserTurn(req, generated);
      if engine.ModelMissing? {
        return [], Some(ModelFileMissing(engine.message));
      }
      raised := None;
      events := GenerateAndCommit(id, prompt, req, engine.generate);
    }

    /**
     * The rest of the `async with sem` block once the queue has been left:
     * serve the prompt, then give the permit back on leaving the block.
     */
    method ServeAndRelease(req: Requests.InferenceRequest, engine: EngineLoad, generated: string)
      returns (events: seq<Event>, raised: Option<Raised>)
      requires Valid() && permits < maxConcurrentRequests && generated != ""
      modifies this, sessions
      ensures Valid() && permits == old(permits) + 1 && queued == old(queued)
      ensures (events, raised, sessions.store) == ServeOutcome(old(sessions.store), req, engine, generated)
      ensures log == old(log) + ServeSteps(old(sessions.store), req, engine, generated, old(permits)) + [Release]
    {
      events, raised := ServePrompt(req, engine, generated);
      ReleaseSlot();
    }

    /**
     * The Socket.IO handler from `async with sem` on: it takes a permit,
     * leaves the queue (an empty queue raises), serves the prompt, and gives
     * the permit back on every path.
     */
    method RunAdmittedPrompt(req: Requests.InferenceRequest, engine: EngineLoad, generated: string)
      returns (events: seq<Event>, raised: Option<Raised>)
      requires Valid() && permits > 0 && generated != ""
      modifies this, sessions
      ensures Valid() && permits == old(permits)
      ensures queued == if old(queued) > 0 then old(queued) - 1 else 0
      ensures old(queued) == 0 ==>
        && events == [] && raised == Some(QueueEmpty) && sessions.store == old(sessions.store)
        && log == old(log) + [Acquire] + [Release]
      ensures old(queued) > 0 ==>
        && (events, raised, sessions.store) == ServeOutcome(old(sessions.store), req, engine, generated)
        && log == old(log) + [Acquire] + ServeSteps(old(sessions.store), req, engine, generated, old(permits) - 1) + [Release]
    {
      AcquireSlot();
      var left := LeaveQueue();
      if !left {
        ReleaseSlot();
        return [], Some(QueueEmpty);
      }
      assert sessions.store == old(sessions.store) && permits == old(permits) - 1;
      events, raised := ServeAndRelease(req, engine, generated);
    }
  }
}
