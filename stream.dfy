/**
 * The streaming endpoint `AnalyzeMachineStream` (dotnetworkflow/Program.cs):
 * it watches the run's events as they happen and writes one Server-Sent
 * Events record per thing worth telling the browser. `Run` is the fold the
 * loop computes: the transcoder's state and the payloads sent so far.
 * JSON serialization of a payload is the parameter `serialize`.
 */
module Stream {
  import opened Wrappers
  import opened Text
  import opened WorkflowModel

  /** The anonymous objects and step records passed to `SendSseEventAsync`. */
  datatype Payload =
    | AgentStarted(agentName: string)
    | ToolCallPayload(agent: Option<string>, toolName: string, arguments: Option<string>)
    | ToolResultPayload(agent: Option<string>, toolName: string, result: Option<string>)
    | TextTokenPayload(agent: Option<string>, text: string)
    | AgentCompletePayload(step: StreamingAgentStep)
    | WorkflowCompletePayload(finalMessage: Option<string>)
    | ErrorPayload(message: string)
    | DonePayload

  /** The SSE event type each payload is sent under. */
  function EventName(p: Payload): string {
    match p
    case AgentStarted(_) => "agent_started"
    case ToolCallPayload(_, _, _) => "tool_call"
    case ToolResultPayload(_, _, _) => "tool_result"
    case TextTokenPayload(_, _) => "text_token"
    case AgentCompletePayload(_) => "agent_complete"
    case WorkflowCompletePayload(_) => "workflow_complete"
    case ErrorPayload(_) => "error"
    case DonePayload => "done"
  }

  /** `$"event: {eventType}\ndata: {json}\n\n"`. */
  function SseFrame(eventType: string, json: string): string {
    "event: " + eventType + "\n" + "data: " + json + "\n" + "\n"
  }

  /**
   * A frame whose event type and JSON hold no line feed splits into exactly
   * its two field lines followed by the blank line that ends the record.
   */
  lemma SseFrameLines(eventType: string, json: string)
    requires '\n' !in eventType && '\n' !in json
    ensures Split(SseFrame(eventType, json), '\n') == ["event: " + eventType, "data: " + json, "", ""]
  {
    var l1 := "event: " + eventType;
    var l2 := "data: " + json;
    assert '\n' !in l1 && '\n' !in l2;
    assert SseFrame(eventType, json) == l1 + ['\n'] + (l2 + ['\n'] + ([] + ['\n'] + []));
    SplitAtFirst(l1, l2 + ['\n'] + ([] + ['\n'] + []), '\n');
    SplitAtFirst(l2, [] + ['\n'] + [], '\n');
    SplitAtFirst([], [], '\n');
    SplitNoSeparator([], '\n');
  }

  /** Every event type is a fixed lower-case word with no line feed. */
  lemma EventNameHasNoLineFeed(p: Payload)
    ensures '\n' !in EventName(p) && |EventName(p)| > 0
  {
  }

  /** The response body after the payloads `ps` have been sent, in order. */
  function Wire(ps: seq<Payload>, serialize: Payload -> string): string {
    if |ps| == 0 then "" else Wire(ps[..|ps| - 1], serialize) + SseFrame(EventName(ps[|ps| - 1]), serialize(ps[|ps| - 1]))
  }

  lemma WireSnoc(ps: seq<Payload>, p: Payload, serialize: Payload -> string)
    ensures Wire(ps + [p], serialize) == Wire(ps, serialize) + SseFrame(EventName(p), serialize(p))
  {
    assert (ps + [p])[..|ps|] == ps;
  }

  /** `SendSseEventAsync`: append one record to the response body. */
  method SendSseEvent(response: string, p: Payload, serialize: Payload -> string) returns (r: string)
    ensures r == response + SseFrame(EventName(p), serialize(p))
  {
    var json := serialize(p);
    var sseMessage := "event: " + EventName(p) + "\n" + "data: " + json + "\n" + "\n";
    r := response + sseMessage;
  }

  // ----- The transcoder ------------------------------------------------------

  /** `currentAgentName` and `currentAgentStep`. */
  datatype Transcoder = Transcoder(currentAgentName: Option<string>, current: StreamingAgentStep)

  /** `new StreamingAgentStep()`. */
  const FreshStep: StreamingAgentStep := StreamingAgentStep("", "pending", [], "", None)

  const Start: Transcoder := Transcoder(None, FreshStep)

  /** The state after one event and the payloads it sent. */
  datatype Emission = Emission(next: Transcoder, sent: seq<Payload>)

  /** A step is reported on invocation or output only when it has a name and some content. */
  predicate HasContent(s: StreamingAgentStep) {
    s.agentName != "" && (|s.toolCalls| > 0 || s.textOutput != "")
  }

  function MarkDone(s: StreamingAgentStep): StreamingAgentStep {
    s.(status := "done")
  }

  /** The conditional `agent_complete` before an invocation or at the workflow output. */
  function FlushPayloads(s: StreamingAgentStep): seq<Payload> {
    if HasContent(s) then [AgentCompletePayload(MarkDone(s))] else []
  }

  function FlushedStep(s: StreamingAgentStep): StreamingAgentStep {
    if HasContent(s) then MarkDone(s) else s
  }

  /** What an update's selected content sends, given the calls recorded before it. */
  function UpdatePayloads(name: Option<string>, calls: seq<ToolCallInfo>, c: Content): seq<Payload> {
    match c
    case FunctionCallContent(toolName, args) => [ToolCallPayload(name, toolName, args)]
    case FunctionResultContent(result) =>
      if |calls| > 0 then [ToolResultPayload(name, calls[|calls| - 1].toolName, result)] else []
    case McpServerToolCallContent(toolName, args) => [ToolCallPayload(name, toolName, args)]
    case McpServerToolResultContent(output) =>
      if |calls| > 0 then [ToolResultPayload(name, calls[|calls| - 1].toolName, output)] else []
    case TextContent(Some(text)) => [TextTokenPayload(name, text)]
    case _ => []
  }

  /** An update is handled by its selected content alone. */
  function UpdateEmission(t: Transcoder, contents: seq<Content>): Emission {
    match Selected(contents)
    case None => Emission(t, [])
    case Some(c) =>
      var s := t.current;
      Emission(t.(current := s.(toolCalls := CallsAfter(s.toolCalls, c), textOutput := TextAfter(s.textOutput, c))),
               UpdatePayloads(t.currentAgentName, s.toolCalls, c))
  }

  /** One iteration of `await foreach (WorkflowEvent evt in run.WatchStreamAsync(...))`. */
  function StreamStep(t: Transcoder, e: Event): Emission {
    match e
    case ExecutorInvokedEvent(id) =>
      var name := AgentNameOf(id);
      Emission(Transcoder(Some(name), StreamingAgentStep(name, "running", [], "", None)),
               FlushPayloads(t.current) + [AgentStarted(name)])
    case ExecutorCompletedEvent(data) =>
      var s := t.current.(finalMessage := data, status := "done");
      Emission(t.(current := FreshStep), [AgentCompletePayload(s)])
    case AgentRunUpdateEvent(contents) => UpdateEmission(t, contents)
    case WorkflowOutputEvent(messages) =>
      Emission(t.(current := FlushedStep(t.current)),
               FlushPayloads(t.current) + [WorkflowCompletePayload(MessagesFinal(messages, None))])
    case OtherEvent => Emission(t, [])
  }

  function Run(t: Transcoder, events: seq<Event>): Emission {
    if |events| == 0 then Emission(t, [])
    else
      var r := Run(t, events[..|events| - 1]);
      var step := StreamStep(r.next, events[|events| - 1]);
      Emission(step.next, r.sent + step.sent)
  }

  /**
   * How the watched stream ended: it ran out, the request was aborted
   * (`OperationCanceledException`, nothing more is written) or another
   * exception was raised with the given message.
   */
  datatype StreamEnd = Finished | Cancelled | Faulted(message: string)

  function EndPayloads(ending: StreamEnd): seq<Payload> {
    match ending
    case Finished => [DonePayload]
    case Cancelled => []
    case Faulted(m) => [ErrorPayload(m)]
  }

  /** Every payload the endpoint sends when the stream delivers `events` and then ends as `ending`. */
  function StreamPayloads(events: seq<Event>, ending: StreamEnd): seq<Payload> {
    Run(Start, events).sent + EndPayloads(ending)
  }

  /** The response body written by `AnalyzeMachineStream`. */
  method AnalyzeMachineStream(events: seq<Event>, ending: StreamEnd, serialize: Payload -> string)
    returns (response: string)
    ensures response == Wire(StreamPayloads(events, ending), serialize)
  {
    response := "";
    ghost var sent: seq<Payload> := [];
    var currentAgentName: Option<string> := None;
    var currentAgentStep := FreshStep;
    var i := 0;
    while i < |events|
      invariant 0 <= i <= |events|
      invariant Run(Start, events[..i]) == Emission(Transcoder(currentAgentName, currentAgentStep), sent)
      invariant response == Wire(sent, serialize)
    {
      ghost var t := Transcoder(currentAgentName, currentAgentStep);
      currentAgentName, currentAgentStep, response := OnEvent(currentAgentName, currentAgentStep, events[i], response, serialize, sent);
      sent := sent + StreamStep(t, events[i]).sent;
      assert events[..i + 1][..i] == events[..i];
      i := i + 1;
    }
    assert events[..|events|] == events;
    match ending {
      case Finished =>
        WireSnoc(sent, DonePayload, serialize);
        response := SendSseEvent(response, DonePayload, serialize);
      case Cancelled =>
        assert sent + [] == sent;
      case Faulted(message) =>
        WireSnoc(sent, ErrorPayload(message), serialize);
        response := SendSseEvent(response, ErrorPayload(message), serialize);
    }
  }

  /** The body of the event loop for one event; `sent` is what the body already holds. */
  method OnEvent(currentAgentName: Option<string>, currentAgentStep: StreamingAgentStep, evt: Event,
                 response: string, serialize: Payload -> string, ghost sent: seq<Payload>)
    returns (agentName: Option<string>, agentStep: StreamingAgentStep, written: string)
    requires response == Wire(sent, serialize)
    ensures Transcoder(agentName, agentStep) == StreamStep(Transcoder(currentAgentName, currentAgentStep), evt).next
    ensures written == Wire(sent + StreamStep(Transcoder(currentAgentName, currentAgentStep), evt).sent, serialize)
  {
    agentName, agentStep, written := currentAgentName, currentAgentStep, response;
    match evt {
      case ExecutorInvokedEvent(id) =>
        agentName, agentStep, written := OnInvoked(currentAgentStep, id, response, serialize, sent);
      case ExecutorCompletedEvent(data) =>
        agentStep := agentStep.(finalMessage := data, status := "done");
        var p := AgentCompletePayload(agentStep);
        WireSnoc(sent, p, serialize);
        written := SendSseEvent(written, p, serialize);
        agentStep := FreshStep;
      case AgentRunUpdateEvent(contents) =>
        agentStep, written := OnUpdate(currentAgentName, currentAgentStep, contents, response, serialize, sent);
      case WorkflowOutputEvent(messages) =>
        agentStep, written := OnOutput(currentAgentStep, messages, response, serialize, sent);
      case OtherEvent =>
        assert sent + [] == sent;
    }
  }

  /** The `ExecutorInvokedEvent` branch: report the previous step if it has content, then open a new one. */
  method OnInvoked(currentAgentStep: StreamingAgentStep, executorId: Option<string>,
                   response: string, serialize: Payload -> string, ghost sent: seq<Payload>)
    returns (agentName: Option<string>, agentStep: StreamingAgentStep, written: string)
    requires response == Wire(sent, serialize)
    ensures Transcoder(agentName, agentStep) == StreamStep(Transcoder(None, currentAgentStep), ExecutorInvokedEvent(executorId)).next
    ensures written == Wire(sent + StreamStep(Transcoder(None, currentAgentStep), ExecutorInvokedEvent(executorId)).sent, serialize)
  {
    written := SendFlush(currentAgentStep, response, serialize, sent);
    agentName := Some(AgentNameOf(executorId));
    agentStep := StreamingAgentStep(AgentNameOf(executorId), "running", [], "", None);
    var started := AgentStarted(AgentNameOf(executorId));
    WireSnoc(sent + FlushPayloads(currentAgentStep), started, serialize);
    written := SendSseEvent(written, started, serialize);
    assert sent + FlushPayloads(currentAgentStep) + [started] == sent + (FlushPayloads(currentAgentStep) + [started]);
  }

  /** The `WorkflowOutputEvent` branch: report the step if it has content, then the final message. */
  method OnOutput(currentAgentStep: StreamingAgentStep, messages: seq<ChatMessage>,
                  response: string, serialize: Payload -> string, ghost sent: seq<Payload>)
    returns (agentStep: StreamingAgentStep, written: string)
    requires response == Wire(sent, serialize)
    ensures agentStep == StreamStep(Transcoder(None, currentAgentStep), WorkflowOutputEvent(messages)).next.current
    ensures written == Wire(sent + StreamStep(Transcoder(None, currentAgentStep), WorkflowOutputEvent(messages)).sent, serialize)
  {
    written := SendFlush(currentAgentStep, response, serialize, sent);
    agentStep := FlushedStep(currentAgentStep);
    var finalMessage := ScanFinalMessage(messages, None);
    var p := WorkflowCompletePayload(finalMessage);
    WireSnoc(sent + FlushPayloads(currentAgentStep), p, serialize);
    written := SendSseEvent(written, p, serialize);
    assert sent + FlushPayloads(currentAgentStep) + [p] == sent + (FlushPayloads(currentAgentStep) + [p]);
  }

  /** The conditional `agent_complete` of an invocation or the workflow output. */
  method SendFlush(step: StreamingAgentStep, response: string, serialize: Payload -> string, ghost sent: seq<Payload>)
    returns (written: string)
    requires response == Wire(sent, serialize)
    ensures written == Wire(sent + FlushPayloads(step), serialize)
  {
    written := response;
    if !(step.agentName == "") && (|step.toolCalls| > 0 || !(step.textOutput == "")) {
      var p := AgentCompletePayload(step.(status := "done"));
      WireSnoc(sent, p, serialize);
      written := SendSseEvent(written, p, serialize);
    } else {
      assert sent + [] == sent;
    }
  }

  /** The `AgentRunUpdateEvent` branch: the first content of the first kind present decides. */
  method OnUpdate(currentAgentName: Option<string>, currentAgentStep: StreamingAgentStep, contents: seq<Content>,
                  response: string, serialize: Payload -> string, ghost sent: seq<Payload>)
    returns (agentStep: StreamingAgentStep, written: string)
    requires response == Wire(sent, serialize)
    ensures Transcoder(currentAgentName, agentStep) == UpdateEmission(Transcoder(currentAgentName, currentAgentStep), contents).next
    ensures written == Wire(sent + UpdateEmission(Transcoder(currentAgentName, currentAgentStep), contents).sent, serialize)
  {
    agentStep, written := currentAgentStep, response;
    var selected := Selected(contents);
    if selected.None? {
      assert sent + [] == sent;
      return;
    }
    var calls := agentStep.toolCalls;
    var p: Payload;
    match selected.value {
      case FunctionCallContent(toolName, args) =>
        agentStep := agentStep.(toolCalls := calls + [ToolCallInfo(toolName, args, None)]);
        p := ToolCallPayload(currentAgentName, toolName, args);
      case FunctionResultContent(result) =>
        if |calls| == 0 {
          assert sent + [] == sent;
          return;
        }
        agentStep := agentStep.(toolCalls := SetLastResult(calls, result));
        p := ToolResultPayload(currentAgentName, calls[|calls| - 1].toolName, result);
      case McpServerToolCallContent(toolName, args) =>
        agentStep := agentStep.(toolCalls := calls + [ToolCallInfo(toolName, args, None)]);
        p := ToolCallPayload(currentAgentName, toolName, args);
      case McpServerToolResultContent(output) =>
        if |calls| == 0 {
          assert sent + [] == sent;
          return;
        }
        agentStep := agentStep.(toolCalls := SetLastResult(calls, output));
        p := ToolResultPayload(currentAgentName, calls[|calls| - 1].toolName, output);
      case TextContent(text) =>
        if text.None? {
          assert sent + [] == sent;
          return;
        }
        agentStep := agentStep.(textOutput := agentStep.textOutput + text.value);
        p := TextTokenPayload(currentAgentName, text.value);
      case OtherContent =>
        SelectedPriority(contents);
        assert false;
    }
    WireSnoc(sent, p, serialize);
    written := SendSseEvent(written, p, serialize);
  }

  // ----- Properties of the stream ---------------------------------------------

  /** Running two pieces of the event stream one after the other is running their concatenation. */
  lemma {:induction false} RunAppend(t: Transcoder, a: seq<Event>, b: seq<Event>)
    ensures Run(t, a + b).next == Run(Run(t, a).next, b).next
    ensures Run(t, a + b).sent == Run(t, a).sent + Run(Run(t, a).next, b).sent
    decreases |b|
  {
    if |b| == 0 {
      assert a + b == a;
    } else {
      var n := |b| - 1;
      assert (a + b)[..|a + b| - 1] == a + b[..n];
      RunAppend(t, a, b[..n]);
    }
  }

  /** The items `f` picks out of each payload, in order. */
  function Collect<T>(ps: seq<Payload>, f: Payload -> seq<T>): seq<T> {
    if |ps| == 0 then [] else Collect(ps[..|ps| - 1], f) + f(ps[|ps| - 1])
  }

  lemma {:induction false} CollectAppend<T>(a: seq<Payload>, b: seq<Payload>, f: Payload -> seq<T>)
    ensures Collect(a + b, f) == Collect(a, f) + Collect(b, f)
    decreases |b|
  {
    if |b| == 0 {
      assert a + b == a;
    } else {
      var n := |b| - 1;
      assert (a + b)[..|a + b| - 1] == a + b[..n];
      CollectAppend(a, b[..n], f);
    }
  }

  function StartedOf(p: Payload): seq<string> {
    if p.AgentStarted? then [p.agentName] else []
  }

  function CompletedOf(p: Payload): seq<string> {
    if p.AgentCompletePayload? then [p.step.agentName] else []
  }

  function TokenOf(p: Payload): string {
    if p.TextTokenPayload? then p.text else ""
  }

  function CalledOf(p: Payload): seq<string> {
    if p.ToolCallPayload? then [p.toolName] else []
  }

  predicate IsTerminal(p: Payload) {
    p.DonePayload? || p.ErrorPayload?
  }

  lemma {:induction false} LoopSendsNoTerminal(t: Transcoder, events: seq<Event>)
    ensures forall k :: 0 <= k < |Run(t, events).sent| ==> !IsTerminal(Run(t, events).sent[k])
    decreases |events|
  {
    if |events| > 0 {
      LoopSendsNoTerminal(t, events[..|events| - 1]);
    }
  }

  /**
   * `done` is sent exactly once and last when the stream runs out; when the
   * request is aborted neither `done` nor `error` is sent; on any other
   * exception `error` with its message is sent last and `done` never.
   */
  lemma StreamEndings(events: seq<Event>, ending: StreamEnd)
    ensures var ps := StreamPayloads(events, ending);
      forall k :: 0 <= k < |ps| ==> (IsTerminal(ps[k]) <==> (k == |ps| - 1 && !ending.Cancelled?))
    ensures ending.Finished? ==> StreamPayloads(events, ending)[|StreamPayloads(events, ending)| - 1] == DonePayload
    ensures ending.Faulted? ==> StreamPayloads(events, ending)[|StreamPayloads(events, ending)| - 1] == ErrorPayload(ending.message)
  {
    LoopSendsNoTerminal(Start, events);
  }

  /** One `agent_started` per invocation, named `ExecutorId ?? "UnknownAgent"`, in order. */
  lemma {:induction false} StartedFollowInvocations(t: Transcoder, events: seq<Event>)
    ensures Collect(Run(t, events).sent, StartedOf) == InvokedNames(events)
    decreases |events|
  {
    if |events| > 0 {
      var n := |events| - 1;
      StartedFollowInvocations(t, events[..n]);
      var r := Run(t, events[..n]);
      var step := StreamStep(r.next, events[n]);
      CollectAppend(r.sent, step.sent, StartedOf);
      StartedOfStep(r.next, events[n]);
    }
  }

  lemma StartedOfStep(t: Transcoder, e: Event)
    ensures Collect(StreamStep(t, e).sent, StartedOf) == InvokedName(e)
  {
    var ps := StreamStep(t, e).sent;
    match e {
      case ExecutorInvokedEvent(id) =>
        CollectAppend(FlushPayloads(t.current), [AgentStarted(AgentNameOf(id))], StartedOf);
        assert Collect([AgentStarted(AgentNameOf(id))], StartedOf) == [AgentNameOf(id)];
      case WorkflowOutputEvent(m) =>
        CollectAppend(FlushPayloads(t.current), [WorkflowCompletePayload(MessagesFinal(m, None))], StartedOf);
      case ExecutorCompletedEvent(_) =>
      case AgentRunUpdateEvent(cs) =>
        UpdateSendsNoStarted(t, cs);
      case OtherEvent =>
    }
  }

  lemma UpdateSendsNoStarted(t: Transcoder, cs: seq<Content>)
    ensures Collect(UpdateEmission(t, cs).sent, StartedOf) == []
  {
  }

  /**
   * The name that `tool_call`, `tool_result` and `text_token` carry is the
   * most recently invoked agent's: it is not cleared when that agent
   * completes, and it is null only before the first invocation.
   */
  lemma {:induction false} NameIsLastInvoked(events: seq<Event>)
    ensures InvokedNames(events) == [] ==> Run(Start, events).next.currentAgentName == None
    ensures InvokedNames(events) != [] ==>
              Run(Start, events).next.currentAgentName == Some(InvokedNames(events)[|InvokedNames(events)| - 1])
    decreases |events|
  {
    if |events| > 0 {
      var n := |events| - 1;
      NameIsLastInvoked(events[..n]);
      var r := Run(Start, events[..n]);
      assert InvokedNames(events) == InvokedNames(events[..n]) + InvokedName(events[n]);
      StreamStepName(r.next, events[n]);
    }
  }

  lemma StreamStepName(t: Transcoder, e: Event)
    ensures e.ExecutorInvokedEvent? ==> StreamStep(t, e).next.currentAgentName == Some(AgentNameOf(e.executorId))
    ensures !e.ExecutorInvokedEvent? ==> StreamStep(t, e).next.currentAgentName == t.currentAgentName
  {
  }

  /** A completion reports the step and starts a fresh, nameless one; the agent name is kept. */
  lemma CompletionResets(t: Transcoder, data: Option<string>)
    ensures StreamStep(t, ExecutorCompletedEvent(data)).sent
            == [AgentCompletePayload(t.current.(finalMessage := data, status := "done"))]
    ensures StreamStep(t, ExecutorCompletedEvent(data)).next == Transcoder(t.currentAgentName, FreshStep)
  {
  }

  // ----- The text and calls of a step, against what was streamed --------------

  /** Events that only feed the open step: updates and events the loop ignores. */
  predicate FeedsStep(e: Event) {
    e.AgentRunUpdateEvent? || e.OtherEvent?
  }

  lemma FeedStep(t: Transcoder, e: Event)
    requires FeedsStep(e)
    ensures StreamStep(t, e).next.current.agentName == t.current.agentName
    ensures StreamStep(t, e).next.current.finalMessage == t.current.finalMessage
    ensures StreamStep(t, e).next.current.textOutput == t.current.textOutput + Collect(StreamStep(t, e).sent, TokenOf)
  {
    var ps := StreamStep(t, e).sent;
    assert |ps| <= 1;
    if |ps| == 1 {
      assert ps[..0] == [];
    }
  }

  lemma FeedStepCalls(t: Transcoder, e: Event)
    requires FeedsStep(e)
    ensures ToolNames(StreamStep(t, e).next.current.toolCalls)
            == ToolNames(t.current.toolCalls) + Collect(StreamStep(t, e).sent, CalledOf)
  {
    if e.AgentRunUpdateEvent? && Selected(e.contents).Some? {
      var c := Selected(e.contents).value;
      CallsAfterNames(t.current.toolCalls, c);
      UpdateCalledOf(t.currentAgentName, t.current.toolCalls, c);
    } else {
      assert ToolNames(t.current.toolCalls) + [] == ToolNames(t.current.toolCalls);
    }
  }

  /** A `tool_call` record is sent exactly for each call recorded. */
  lemma UpdateCalledOf(name: Option<string>, calls: seq<ToolCallInfo>, c: Content)
    ensures Collect(UpdatePayloads(name, calls, c), CalledOf) == CallName(Some(c))
  {
    var ps := UpdatePayloads(name, calls, c);
    if |ps| == 1 {
      assert ps[..0] == [];
    }
  }

  lemma {:induction false} FeedTexts(t: Transcoder, segment: seq<Event>)
    requires forall k :: 0 <= k < |segment| ==> FeedsStep(segment[k])
    ensures Run(t, segment).next.current.agentName == t.current.agentName
    ensures Run(t, segment).next.current.finalMessage == t.current.finalMessage
    ensures Run(t, segment).next.current.textOutput == t.current.textOutput + Collect(Run(t, segment).sent, TokenOf)
    decreases |segment|
  {
    if |segment| > 0 {
      var n := |segment| - 1;
      FeedTexts(t, segment[..n]);
      var r := Run(t, segment[..n]);
      var step := StreamStep(r.next, segment[n]);
      assert Run(t, segment) == Emission(step.next, r.sent + step.sent);
      FeedStep(r.next, segment[n]);
      CollectAppend(r.sent, step.sent, TokenOf);
      Associative(t.current.textOutput, Collect(r.sent, TokenOf), Collect(step.sent, TokenOf));
    }
  }

  lemma {:induction false} FeedCalls(t: Transcoder, segment: seq<Event>)
    requires forall k :: 0 <= k < |segment| ==> FeedsStep(segment[k])
    ensures ToolNames(Run(t, segment).next.current.toolCalls) == ToolNames(t.current.toolCalls) + Collect(Run(t, segment).sent, CalledOf)
    decreases |segment|
  {
    if |segment| > 0 {
      var n := |segment| - 1;
      FeedCalls(t, segment[..n]);
      var r := Run(t, segment[..n]);
      var step := StreamStep(r.next, segment[n]);
      assert Run(t, segment) == Emission(step.next, r.sent + step.sent);
      FeedStepCalls(r.next, segment[n]);
      CollectAppend(r.sent, step.sent, CalledOf);
      Associative(ToolNames(t.current.toolCalls), Collect(r.sent, CalledOf), Collect(step.sent, CalledOf));
    }
  }

  /**
   * For an agent that is invoked, streams updates and completes, the
   * `agent_complete` record repeats what was streamed in between: its text
   * output is the `text_token` texts concatenated, its tool calls are the
   * `tool_call` records in order, and its final message is the completion's data.
   */
  lemma CompletionSummarisesStream(t: Transcoder, id: Option<string>, segment: seq<Event>, data: Option<string>)
    requires forall k :: 0 <= k < |segment| ==> FeedsStep(segment[k])
    ensures var t1 := StreamStep(t, ExecutorInvokedEvent(id)).next;
      var r := Run(t1, segment);
      var ps := StreamStep(r.next, ExecutorCompletedEvent(data)).sent;
      |ps| == 1 && ps[0].AgentCompletePayload?
      && ps[0].step.agentName == AgentNameOf(id)
      && ps[0].step.status == "done"
      && ps[0].step.textOutput == Collect(r.sent, TokenOf)
      && ToolNames(ps[0].step.toolCalls) == Collect(r.sent, CalledOf)
      && ps[0].step.finalMessage == data
  {
    var t1 := StreamStep(t, ExecutorInvokedEvent(id)).next;
    FeedTexts(t1, segment);
    FeedCalls(t1, segment);
  }

  // ----- One agent_complete per agent, when events nest --------------------

  /** Whether an agent is between its invocation and its completion. */
  function InAgent(events: seq<Event>): bool {
    if |events| == 0 then false
    else if events[|events| - 1].ExecutorInvokedEvent? then true
    else if events[|events| - 1].ExecutorCompletedEvent? then false
    else InAgent(events[..|events| - 1])
  }

  /** Invocation and output only between agents, completion only inside one. */
  predicate Allowed(inAgent: bool, e: Event) {
    match e
    case ExecutorInvokedEvent(_) => !inAgent
    case ExecutorCompletedEvent(_) => inAgent
    case WorkflowOutputEvent(_) => !inAgent
    case _ => true
  }

  /** Each agent's events nest between its invocation and its completion, and the output comes between agents. */
  ghost predicate Nested(events: seq<Event>) {
    forall i :: 0 <= i < |events| ==> Allowed(InAgent(events[..i]), events[i])
  }

  lemma {:induction false} NestedCompletions(events: seq<Event>)
    requires Nested(events)
    ensures !InAgent(events) ==> Run(Start, events).next.current.agentName == ""
    ensures Collect(Run(Start, events).sent, CompletedOf) + OpenAgent(events) == InvokedNames(events)
    decreases |events|
  {
    if |events| > 0 {
      var n := |events| - 1;
      NestedPrefix(events);
      NestedCompletions(events[..n]);
      var r := Run(Start, events[..n]);
      var step := StreamStep(r.next, events[n]);
      assert Run(Start, events) == Emission(step.next, r.sent + step.sent);
      CompletedOfStep(r.next, events[n], InAgent(events[..n]));
      CollectAppend(r.sent, step.sent, CompletedOf);
      assert InvokedNames(events) == InvokedNames(events[..n]) + InvokedName(events[n]);
      var c := Collect(r.sent, CompletedOf);
      var d := Collect(step.sent, CompletedOf);
      var open := OpenAgent(events[..n]);
      assert OpenAgent(events) == if InAgent(events) then [step.next.current.agentName] else [];
      if events[n].ExecutorCompletedEvent? {
        assert d == open && OpenAgent(events) == [] && InvokedName(events[n]) == [];
        assert (c + d) + [] == c + open;
      } else if events[n].ExecutorInvokedEvent? {
        assert d == [] && open == [] && OpenAgent(events) == InvokedName(events[n]);
        assert c + [] == c;
      } else {
        assert d == [] && OpenAgent(events) == open && InvokedName(events[n]) == [];
        assert c + [] == c && (c + open) + [] == c + open;
      }
    }
  }

  lemma NestedPrefix(events: seq<Event>)
    requires Nested(events) && |events| > 0
    ensures Nested(events[..|events| - 1])
    ensures Allowed(InAgent(events[..|events| - 1]), events[|events| - 1])
  {
    var n := |events| - 1;
    forall i | 0 <= i < n ensures Allowed(InAgent(events[..n][..i]), events[..n][i]) {
      assert events[..n][..i] == events[..i];
    }
  }

  /** The name of the agent that is open, if events leave one open. */
  function OpenAgent(events: seq<Event>): seq<string> {
    if InAgent(events) then [Run(Start, events).next.current.agentName] else []
  }

  /** What one allowed event reports complete and the name its open step then has. */
  lemma CompletedOfStep(t: Transcoder, e: Event, inAgent: bool)
    requires Allowed(inAgent, e)
    requires !inAgent ==> t.current.agentName == ""
    ensures Collect(StreamStep(t, e).sent, CompletedOf) == (if e.ExecutorCompletedEvent? then [t.current.agentName] else [])
    ensures e.ExecutorInvokedEvent? ==> StreamStep(t, e).next.current.agentName == AgentNameOf(e.executorId)
    ensures e.ExecutorCompletedEvent? ==> StreamStep(t, e).next.current.agentName == ""
    ensures !e.ExecutorInvokedEvent? && !e.ExecutorCompletedEvent? ==>
              StreamStep(t, e).next.current.agentName == t.current.agentName
  {
    var ps := StreamStep(t, e).sent;
    match e {
      case ExecutorInvokedEvent(id) =>
        assert ps == [AgentStarted(AgentNameOf(id))];
        assert ps[..0] == [];
      case ExecutorCompletedEvent(_) =>
        assert ps[..0] == [];
      case WorkflowOutputEvent(m) =>
        assert ps == [WorkflowCompletePayload(MessagesFinal(m, None))];
        assert ps[..0] == [];
      case AgentRunUpdateEvent(cs) =>
        FeedStep(t, e);
        UpdateSendsNoCompletion(t, cs);
      case OtherEvent =>
    }
  }

  lemma UpdateSendsNoCompletion(t: Transcoder, cs: seq<Content>)
    ensures Collect(UpdateEmission(t, cs).sent, CompletedOf) == []
  {
  }

  /**
   * When each agent's events nest between its invocation and its completion
   * and the output comes between agents, every agent that has completed is
   * reported by exactly one `agent_complete`, in invocation order.
   */
  lemma OneCompletionPerAgent(events: seq<Event>)
    requires Nested(events) && !InAgent(events)
    ensures Collect(StreamPayloads(events, Finished), CompletedOf) == InvokedNames(events)
  {
    NestedCompletions(events);
    CollectAppend(Run(Start, events).sent, [DonePayload], CompletedOf);
  }

  /**
   * Without that nesting an agent can be reported twice: the output flushes
   * a step with content without resetting it, so a completion after the
   * output reports the same agent again.
   */
  lemma OutputBeforeCompletionRepeatsAgent(t: Transcoder, messages: seq<ChatMessage>, data: Option<string>)
    requires HasContent(t.current)
    ensures var e1 := StreamStep(t, WorkflowOutputEvent(messages));
      var e2 := StreamStep(e1.next, ExecutorCompletedEvent(data));
      Collect(e1.sent + e2.sent, CompletedOf) == [t.current.agentName, t.current.agentName]
  {
    var e1 := StreamStep(t, WorkflowOutputEvent(messages));
    var e2 := StreamStep(e1.next, ExecutorCompletedEvent(data));
    var p := AgentCompletePayload(MarkDone(t.current));
    var w := WorkflowCompletePayload(MessagesFinal(messages, None));
    assert e1.sent == [p] + [w];
    CollectAppend([p], [w], CompletedOf);
    CollectAppend(e1.sent, e2.sent, CompletedOf);
    assert [p][..0] == [] && [w][..0] == [] && e2.sent[..0] == [];
  }

  /** Such a state is reached as soon as an invoked agent streams one non-empty text token. */
  lemma TextTokenGivesContent(t: Transcoder, id: string, text: string)
    requires id != "" && text != ""
    ensures var t1 := StreamStep(t, ExecutorInvokedEvent(Some(id))).next;
      HasContent(StreamStep(t1, AgentRunUpdateEvent([TextContent(Some(text))])).next.current)
  {
    assert Selected([TextContent(Some(text))]) == Some(TextContent(Some(text)));
  }
}
