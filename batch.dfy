/**
 * The non-streaming endpoint `AnalyzeMachine` (dotnetworkflow/Program.cs):
 * one pass over the finished run's events that builds a WorkflowResponse.
 * `BatchRun` is the fold the loop computes; the lemmas say what the
 * response then contains.
 */
module Batch {
  import opened Wrappers
  import opened Text
  import opened WorkflowModel

  /** The loop's variables: the response being built and `currentAgentStep`. */
  datatype BatchState = BatchState(response: WorkflowResponse, current: Option<AgentStepResult>)

  const Initial: BatchState := BatchState(WorkflowResponse([], None), None)

  function NewStep(name: string): AgentStepResult {
    AgentStepResult(name, [], "", None)
  }

  /** An update is handled by its selected content alone. */
  function ApplyUpdate(step: AgentStepResult, contents: seq<Content>): AgentStepResult {
    match Selected(contents)
    case None => step
    case Some(c) => step.(toolCalls := CallsAfter(step.toolCalls, c), textOutput := TextAfter(step.textOutput, c))
  }

  /** Push the open step, if any, onto the response. */
  function Flush(st: BatchState): WorkflowResponse {
    match st.current
    case None => st.response
    case Some(s) => st.response.(agentSteps := st.response.agentSteps + [s])
  }

  /** One iteration of the `foreach (var evt in run.NewEvents)` loop. */
  function BatchStep(st: BatchState, e: Event): BatchState {
    match e
    case ExecutorInvokedEvent(id) =>
      BatchState(Flush(st), Some(NewStep(AgentNameOf(id))))
    case ExecutorCompletedEvent(data) =>
      if st.current.Some? then st.(current := Some(st.current.value.(finalMessage := data))) else st
    case AgentRunUpdateEvent(contents) =>
      if st.current.Some? then st.(current := Some(ApplyUpdate(st.current.value, contents))) else st
    case WorkflowOutputEvent(messages) =>
      var r := Flush(st);
      BatchState(r.(finalMessage := MessagesFinal(messages, r.finalMessage)), None)
    case OtherEvent => st
  }

  function RunFrom(st: BatchState, events: seq<Event>): BatchState {
    if |events| == 0 then st else BatchStep(RunFrom(st, events[..|events| - 1]), events[|events| - 1])
  }

  function BatchRun(events: seq<Event>): BatchState {
    RunFrom(Initial, events)
  }

  /** The response returned: the fold, then the step still open pushed. */
  function AnalyzeEvents(events: seq<Event>): WorkflowResponse {
    Flush(BatchRun(events))
  }

  /** The event loop of `AnalyzeMachine` over `run.NewEvents`. */
  method AnalyzeMachine(events: seq<Event>) returns (workflowResult: WorkflowResponse)
    ensures workflowResult == AnalyzeEvents(events)
  {
    var agentSteps: seq<AgentStepResult> := [];
    var finalMessage: Option<string> := None;
    var currentAgentStep: Option<AgentStepResult> := None;
    var i := 0;
    while i < |events|
      invariant 0 <= i <= |events|
      invariant BatchState(WorkflowResponse(agentSteps, finalMessage), currentAgentStep) == BatchRun(events[..i])
    {
      var evt := events[i];
      match evt {
        case ExecutorInvokedEvent(id) =>
          if currentAgentStep.Some? {
            agentSteps := agentSteps + [currentAgentStep.value];
          }
          currentAgentStep := Some(NewStep(AgentNameOf(id)));
        case ExecutorCompletedEvent(data) =>
          if currentAgentStep.Some? {
            currentAgentStep := Some(currentAgentStep.value.(finalMessage := data));
          }
        case AgentRunUpdateEvent(contents) =>
          var selected := Selected(contents);
          if selected.Some? && currentAgentStep.Some? {
            var step := currentAgentStep.value;
            var c := selected.value;
            match c {
              case FunctionCallContent(name, args) =>
                step := step.(toolCalls := step.toolCalls + [ToolCallInfo(name, args, None)]);
              case FunctionResultContent(result) =>
                step := step.(toolCalls := SetLastResult(step.toolCalls, result));
              case McpServerToolCallContent(name, args) =>
                step := step.(toolCalls := step.toolCalls + [ToolCallInfo(name, args, None)]);
              case McpServerToolResultContent(output) =>
                step := step.(toolCalls := SetLastResult(step.toolCalls, output));
              case TextContent(text) =>
                if text.Some? {
                  step := step.(textOutput := step.textOutput + text.value);
                }
              case OtherContent =>
            }
            currentAgentStep := Some(step);
          }
        case WorkflowOutputEvent(messages) =>
          if currentAgentStep.Some? {
            agentSteps := agentSteps + [currentAgentStep.value];
            currentAgentStep := None;
          }
          finalMessage := ScanFinalMessage(messages, finalMessage);
        case OtherEvent =>
      }
      assert events[..i + 1][..i] == events[..i];
      i := i + 1;
    }
    assert events[..|events|] == events;
    if currentAgentStep.Some? {
      agentSteps := agentSteps + [currentAgentStep.value];
    }
    workflowResult := WorkflowResponse(agentSteps, finalMessage);
  }

  /** Running two pieces of the event stream one after the other is running their concatenation. */
  lemma {:induction false} RunFromAppend(st: BatchState, a: seq<Event>, b: seq<Event>)
    ensures RunFrom(st, a + b) == RunFrom(RunFrom(st, a), b)
    decreases |b|
  {
    if |b| == 0 {
      assert a + b == a;
    } else {
      assert (a + b)[..|a + b| - 1] == a + b[..|b| - 1];
      RunFromAppend(st, a, b[..|b| - 1]);
    }
  }

  // ----- Agent steps ---------------------------------------------------------

  function StepNames(steps: seq<AgentStepResult>): (r: seq<string>)
    ensures |r| == |steps|
    ensures forall i :: 0 <= i < |steps| ==> r[i] == steps[i].agentName
  {
    if |steps| == 0 then [] else StepNames(steps[..|steps| - 1]) + [steps[|steps| - 1].agentName]
  }

  function OpenName(current: Option<AgentStepResult>): seq<string> {
    if current.Some? then [current.value.agentName] else []
  }

  lemma NamesStep(st: BatchState, e: Event)
    ensures StepNames(BatchStep(st, e).response.agentSteps) + OpenName(BatchStep(st, e).current)
            == (StepNames(st.response.agentSteps) + OpenName(st.current)) + InvokedName(e)
  {
    var steps := st.response.agentSteps;
    if st.current.Some? && (e.ExecutorInvokedEvent? || e.WorkflowOutputEvent?) {
      assert StepNames(steps + [st.current.value]) == StepNames(steps) + [st.current.value.agentName] by {
        assert (steps + [st.current.value])[..|steps|] == steps;
      }
    }
  }

  lemma {:induction false} RunNames(events: seq<Event>)
    ensures StepNames(BatchRun(events).response.agentSteps) + OpenName(BatchRun(events).current) == InvokedNames(events)
    decreases |events|
  {
    if |events| > 0 {
      var n := |events| - 1;
      RunNames(events[..n]);
      NamesStep(BatchRun(events[..n]), events[n]);
      assert InvokedNames(events) == InvokedNames(events[..n]) + InvokedName(events[n]);
    }
  }

  /**
   * Every invoked executor gives exactly one step of the response, in
   * invocation order and named after its executor: none is lost at the next
   * invocation, at the workflow output or at the end of the run.
   */
  lemma StepsFollowInvocations(events: seq<Event>)
    ensures StepNames(AnalyzeEvents(events).agentSteps) == InvokedNames(events)
  {
    RunNames(events);
    var st := BatchRun(events);
    if st.current.Some? {
      assert (st.response.agentSteps + [st.current.value])[..|st.response.agentSteps|] == st.response.agentSteps;
    }
  }

  /** With no step open, only an invocation changes anything but the final message. */
  lemma ClosedIgnoresUpdates(st: BatchState, e: Event)
    requires st.current.None? && !e.ExecutorInvokedEvent?
    ensures BatchStep(st, e).current.None?
    ensures BatchStep(st, e).response.agentSteps == st.response.agentSteps
  {
  }

  // ----- What a step records -------------------------------------------------

  /** The events that keep the same step open: neither an invocation nor the output. */
  predicate WithinStep(e: Event) {
    !e.ExecutorInvokedEvent? && !e.WorkflowOutputEvent?
  }

  /** The text an update appends: the text of its selected content, when that is text. */
  function UpdateText(e: Event): string {
    if e.AgentRunUpdateEvent? then
      match Selected(e.contents)
      case Some(TextContent(Some(t))) => t
      case _ => ""
    else ""
  }

  function UpdateCallName(e: Event): seq<string> {
    if e.AgentRunUpdateEvent? then CallName(Selected(e.contents)) else []
  }

  function Texts(events: seq<Event>): string {
    if |events| == 0 then "" else Texts(events[..|events| - 1]) + UpdateText(events[|events| - 1])
  }

  function CalledNames(events: seq<Event>): seq<string> {
    if |events| == 0 then [] else CalledNames(events[..|events| - 1]) + UpdateCallName(events[|events| - 1])
  }

  /** `executorCompleted.Data?.ToString()` of the last completion event, overwriting even with null. */
  function LastCompletion(events: seq<Event>, prior: Option<string>): Option<string> {
    if |events| == 0 then prior
    else if events[|events| - 1].ExecutorCompletedEvent? then events[|events| - 1].data
    else LastCompletion(events[..|events| - 1], prior)
  }

  /**
   * Between an invocation and the next invocation or output, the open step
   * keeps its name and its final message is the data of the last completion
   * event; no step is pushed.
   */
  lemma {:induction false} StepRecordsSegment(st: BatchState, segment: seq<Event>)
    requires st.current.Some?
    requires forall k :: 0 <= k < |segment| ==> WithinStep(segment[k])
    ensures RunFrom(st, segment).response == st.response
    ensures RunFrom(st, segment).current.Some?
    ensures RunFrom(st, segment).current.value.agentName == st.current.value.agentName
    ensures RunFrom(st, segment).current.value.finalMessage == LastCompletion(segment, st.current.value.finalMessage)
    decreases |segment|
  {
    if |segment| > 0 {
      var n := |segment| - 1;
      StepRecordsSegment(st, segment[..n]);
      var mid := RunFrom(st, segment[..n]);
      assert RunFrom(st, segment) == BatchStep(mid, segment[n]);
      StepWithin(mid, segment[n]);
    }
  }

  /** `names0` with the tool name of each call of `events` appended in order. */
  function AppendCalledNames(names0: seq<string>, events: seq<Event>): seq<string> {
    if |events| == 0 then names0
    else AppendCalledNames(names0, events[..|events| - 1]) + UpdateCallName(events[|events| - 1])
  }

  lemma {:induction false} AppendCalledNamesIsConcat(names0: seq<string>, events: seq<Event>)
    ensures AppendCalledNames(names0, events) == names0 + CalledNames(events)
    decreases |events|
  {
    if |events| > 0 {
      AppendCalledNamesIsConcat(names0, events[..|events| - 1]);
    }
  }

  lemma {:induction false} StepAppendsCalls(st: BatchState, segment: seq<Event>)
    requires st.current.Some?
    requires forall k :: 0 <= k < |segment| ==> WithinStep(segment[k])
    ensures RunFrom(st, segment).current.Some?
    ensures ToolNames(RunFrom(st, segment).current.value.toolCalls) == AppendCalledNames(ToolNames(st.current.value.toolCalls), segment)
    decreases |segment|
  {
    if |segment| > 0 {
      var n := |segment| - 1;
      StepAppendsCalls(st, segment[..n]);
      var mid := RunFrom(st, segment[..n]);
      assert RunFrom(st, segment) == BatchStep(mid, segment[n]);
      StepWithin(mid, segment[n]);
    }
  }

  /** Within the same segment, the tool calls are the called tools in order; a result never adds one. */
  lemma StepCallsSegment(st: BatchState, segment: seq<Event>)
    requires st.current.Some?
    requires forall k :: 0 <= k < |segment| ==> WithinStep(segment[k])
    ensures RunFrom(st, segment).current.Some?
    ensures ToolNames(RunFrom(st, segment).current.value.toolCalls) == ToolNames(st.current.value.toolCalls) + CalledNames(segment)
  {
    StepAppendsCalls(st, segment);
    AppendCalledNamesIsConcat(ToolNames(st.current.value.toolCalls), segment);
  }

  /** `t0` with the text of each update of `events` appended in order. */
  function AppendTexts(t0: string, events: seq<Event>): string {
    if |events| == 0 then t0 else AppendTexts(t0, events[..|events| - 1]) + UpdateText(events[|events| - 1])
  }

  lemma {:induction false} AppendTextsIsConcat(t0: string, events: seq<Event>)
    ensures AppendTexts(t0, events) == t0 + Texts(events)
    decreases |events|
  {
    if |events| > 0 {
      AppendTextsIsConcat(t0, events[..|events| - 1]);
    }
  }

  lemma {:induction false} StepAppendsTexts(st: BatchState, segment: seq<Event>)
    requires st.current.Some?
    requires forall k :: 0 <= k < |segment| ==> WithinStep(segment[k])
    ensures RunFrom(st, segment).current.Some?
    ensures RunFrom(st, segment).current.value.textOutput == AppendTexts(st.current.value.textOutput, segment)
    decreases |segment|
  {
    if |segment| > 0 {
      var n := |segment| - 1;
      StepAppendsTexts(st, segment[..n]);
      var mid := RunFrom(st, segment[..n]);
      assert RunFrom(st, segment) == BatchStep(mid, segment[n]);
      StepWithin(mid, segment[n]);
    }
  }

  /** Within the same segment, the text output is the streamed text tokens concatenated in order. */
  lemma StepTextSegment(st: BatchState, segment: seq<Event>)
    requires st.current.Some?
    requires forall k :: 0 <= k < |segment| ==> WithinStep(segment[k])
    ensures RunFrom(st, segment).current.Some?
    ensures RunFrom(st, segment).current.value.textOutput == st.current.value.textOutput + Texts(segment)
  {
    StepAppendsTexts(st, segment);
    AppendTextsIsConcat(st.current.value.textOutput, segment);
  }

  /** One event of a segment, as used by `StepRecordsSegment`. */
  lemma StepWithin(st: BatchState, e: Event)
    requires st.current.Some? && WithinStep(e)
    ensures BatchStep(st, e).response == st.response
    ensures BatchStep(st, e).current.Some?
    ensures BatchStep(st, e).current.value.agentName == st.current.value.agentName
    ensures BatchStep(st, e).current.value.textOutput == st.current.value.textOutput + UpdateText(e)
    ensures ToolNames(BatchStep(st, e).current.value.toolCalls) == ToolNames(st.current.value.toolCalls) + UpdateCallName(e)
    ensures BatchStep(st, e).current.value.finalMessage
            == if e.ExecutorCompletedEvent? then e.data else st.current.value.finalMessage
  {
    var s := st.current.value;
    if e.AgentRunUpdateEvent? {
      match Selected(e.contents)
      case None =>
        assert ToolNames(s.toolCalls) + [] == ToolNames(s.toolCalls);
      case Some(c) =>
        CallsAfterNames(s.toolCalls, c);
    } else {
      assert ToolNames(s.toolCalls) + [] == ToolNames(s.toolCalls);
    }
  }

  /** A freshly invoked step starts with no calls, no text and no final message. */
  lemma InvokeOpensFreshStep(st: BatchState, id: Option<string>)
    ensures BatchStep(st, ExecutorInvokedEvent(id)).current == Some(AgentStepResult(AgentNameOf(id), [], "", None))
    ensures BatchStep(st, ExecutorInvokedEvent(id)).response.agentSteps == st.response.agentSteps + OpenSteps(st.current)
  {
  }

  function OpenSteps(current: Option<AgentStepResult>): seq<AgentStepResult> {
    if current.Some? then [current.value] else []
  }

  // ----- The final message ---------------------------------------------------

  /** All chat messages of all output events, in order. */
  function OutputMessages(events: seq<Event>): seq<ChatMessage> {
    if |events| == 0 then []
    else OutputMessages(events[..|events| - 1])
         + (if events[|events| - 1].WorkflowOutputEvent? then events[|events| - 1].messages else [])
  }

  lemma {:induction false} MessagesFinalAppend(a: seq<ChatMessage>, b: seq<ChatMessage>, prior: Option<string>)
    ensures MessagesFinal(a + b, prior) == MessagesFinal(b, MessagesFinal(a, prior))
    decreases |b|
  {
    if |b| == 0 {
      assert a + b == a;
    } else {
      assert (a + b)[..|a + b| - 1] == a + b[..|b| - 1];
      MessagesFinalAppend(a, b[..|b| - 1], prior);
    }
  }

  /**
   * The response's final message is the scan over the messages of every
   * output event as one list: with `FinalMessageIsLastCandidate`, the last
   * non-blank assistant text of the whole run, later outputs overriding
   * earlier ones, and null when there is none.
   */
  lemma {:induction false} FinalMessageOverOutputs(events: seq<Event>)
    ensures BatchRun(events).response.finalMessage == MessagesFinal(OutputMessages(events), None)
    ensures AnalyzeEvents(events).finalMessage == MessagesFinal(OutputMessages(events), None)
    decreases |events|
  {
    if |events| > 0 {
      var n := |events| - 1;
      FinalMessageOverOutputs(events[..n]);
      var st := BatchRun(events[..n]);
      assert BatchRun(events) == BatchStep(st, events[n]);
      assert Flush(st).finalMessage == st.response.finalMessage;
      if events[n].WorkflowOutputEvent? {
        assert OutputMessages(events) == OutputMessages(events[..n]) + events[n].messages;
        MessagesFinalAppend(OutputMessages(events[..n]), events[n].messages, None);
        assert BatchStep(st, events[n]).response.finalMessage == MessagesFinal(events[n].messages, st.response.finalMessage);
      } else {
        assert OutputMessages(events) == OutputMessages(events[..n]);
        assert BatchStep(st, events[n]).response.finalMessage == st.response.finalMessage;
      }
    } else {
      assert BatchRun(events) == Initial;
    }
    assert AnalyzeEvents(events).finalMessage == BatchRun(events).response.finalMessage;
  }
}
