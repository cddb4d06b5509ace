/**
 * Clients of the gateway that walk through concrete runs, using only the
 * contracts of the operations they call.
 */
module Scenarios {
  import opened Wrappers
  import Requests
  import opened Sessions
  import opened Engine
  import opened Server

  function PromptOnly(prompt: string): Requests.Payload
  {
    Requests.Payload(Some(prompt), None, None, None, None, None, None)
  }

  /**
   * Queue capacity 1, one permit. B is refused while A still waits in the
   * queue; once A has run, C is admitted.
   */
  method QueueOfOneWhileWaiting(sessions: SessionManager)
    modifies sessions
  {
    var g := new Gateway(1, 1, sessions);
    var engine := Loaded((p: GenerationParams) => Run(["Hi"], None));
    var a := g.InferenceSse(PromptOnly("A"), engine, "a");
    assert a.Streaming? && g.queued == 1;
    var b := g.InferenceSse(PromptOnly("B"), engine, "b");
    assert b.Rejected? && StatusCode(b.error) == 429;
    var frames, raised := g.SseGenerator(a.pending);
    assert g.queued == 0 && g.permits == 1;
    var c := g.InferenceSse(PromptOnly("C"), engine, "c");
    assert c.Streaming?;
  }

  /**
   * Queue capacity 1, one permit. Once A holds the permit it has left the
   * queue, so B, arriving while A generates, is queued rather than refused;
   * only a third request C is refused. The queue is driven through
   * `join_queue_or_fail`, which neither endpoint calls, so C's 429 carries
   * that helper's detail rather than the SSE path's message.
   */
  method QueueOfOneWhileRunning(sessions: SessionManager)
  {
    var g := new Gateway(1, 1, sessions);
    var a := g.JoinQueueOrFail();
    g.AcquireSlot();
    var left := g.LeaveQueue();
    var status := g.Status();
    assert a == None && left && status.activeRequests == 1 && status.queueSize == 0;
    var b := g.JoinQueueOrFail();
    assert b == None;
    var c := g.JoinQueueOrFail();
    assert c == Some(TooManyRequests(JoinQueueDetail)) && StatusCode(c.value) == 429;
  }

  /** A refused SSE request has already recorded its user turn. */
  method RefusedSseKeepsUserTurn(sessions: SessionManager)
    modifies sessions
  {
    sessions.store := map[];
    var g := new Gateway(1, 1, sessions);
    var engine := Loaded((p: GenerationParams) => Run([], None));
    var a := g.InferenceSse(PromptOnly("first"), engine, "a");
    var payload := Requests.Payload(Some("second"), None, None, None, None, None, Some("b"));
    KeyInjective("a", "b");
    var b := g.InferenceSse(payload, engine, "unused");
    assert b.Rejected? && StatusCode(b.error) == 429;
    assert sessions.store[Key("b")] == [Turn("user", "second")];
  }

  /**
   * An engine that fails after yielding "Hel" and "lo": two token events,
   * then one error event; the conversation gains no assistant turn. The
   * engine ran while the request held one of the two permits, and nothing
   * was committed.
   */
  method EngineFailsAfterTwoFragments(sessions: SessionManager)
    modifies sessions
  {
    sessions.store := map[];
    var g := new Gateway(10, 2, sessions);
    var engine := Loaded((p: GenerationParams) => Run(["Hel", "lo"], Some(RuntimeFailure("boom"))));
    var events, admitted := g.HandleInferencePrompt(PromptOnly("Hello"));
    assert admitted.Some?;
    var run, raised := g.RunAdmittedPrompt(admitted.value, engine, "s");
    assert run == [InferenceToken("Hel"), InferenceToken("lo"), InferenceError(Message("boom"))];
    assert sessions.store[Key("s")] == [Turn("user", "Hello")];
    assert g.log == [Acquire] + [Generate(1)] + [Release];
  }

  /** A fresh session's prompt is the bare cue. */
  method FreshSessionPrompt(sessions: SessionManager)
    modifies sessions
  {
    sessions.store := map[];
    var id := sessions.GetOrCreateSession(None, "fresh");
    var prompt := sessions.BuildPrompt(id);
    assert prompt == "Assistant:";
  }
}
