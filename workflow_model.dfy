/**
 * The events a sequential agent workflow run produces and the step records the
 * orchestrator builds from them (dotnetworkflow/Program.cs). The workflow
 * library's event classes become one closed datatype; the recording classes
 * WorkflowResponse, AgentStepResult, ToolCallInfo and StreamingAgentStep
 * become values updated by record update.
 */
module WorkflowModel {
  import opened Wrappers
  import opened Text

  /** One content item of a run update or chat message. Tool arguments are already serialized. */
  datatype Content =
    | FunctionCallContent(name: string, arguments: Option<string>)
    | FunctionResultContent(result: Option<string>)
    | McpServerToolCallContent(toolName: string, arguments: Option<string>)
    | McpServerToolResultContent(output: Option<string>)
    | TextContent(text: Option<string>)
    | OtherContent

  datatype ChatRole = Assistant | User | System | ToolRole

  datatype ChatMessage = ChatMessage(role: ChatRole, contents: seq<Content>)

  /**
   * A workflow event. `ExecutorCompletedEvent.data` is `Data?.ToString()`;
   * `WorkflowOutputEvent.messages` is `Data as List<ChatMessage>`, empty when the cast fails.
   */
  datatype Event =
    | ExecutorInvokedEvent(executorId: Option<string>)
    | ExecutorCompletedEvent(data: Option<string>)
    | AgentRunUpdateEvent(contents: seq<Content>)
    | WorkflowOutputEvent(messages: seq<ChatMessage>)
    | OtherEvent

  datatype ToolCallInfo = ToolCallInfo(toolName: string, arguments: Option<string>, result: Option<string>)

  datatype AgentStepResult = AgentStepResult(
    agentName: string,
    toolCalls: seq<ToolCallInfo>,
    textOutput: string,
    finalMessage: Option<string>)

  datatype WorkflowResponse = WorkflowResponse(agentSteps: seq<AgentStepResult>, finalMessage: Option<string>)

  datatype StreamingAgentStep = StreamingAgentStep(
    agentName: string,
    status: string,
    toolCalls: seq<ToolCallInfo>,
    textOutput: string,
    finalMessage: Option<string>)

  /** `executorInvoked.ExecutorId ?? "UnknownAgent"`. */
  function AgentNameOf(executorId: Option<string>): string {
    executorId.GetOr("UnknownAgent")
  }

  /** The agent name an event opens a step for, if it is an invocation. */
  function InvokedName(e: Event): seq<string> {
    if e.ExecutorInvokedEvent? then [AgentNameOf(e.executorId)] else []
  }

  /** The agent names of the invocation events, in order. */
  function InvokedNames(events: seq<Event>): seq<string> {
    if |events| == 0 then [] else InvokedNames(events[..|events| - 1]) + InvokedName(events[|events| - 1])
  }

  /**
   * The order in which an update's contents are tested: function call,
   * function result, MCP call, MCP result, text; 5 is never handled.
   */
  function Rank(c: Content): nat {
    match c
    case FunctionCallContent(_, _) => 0
    case FunctionResultContent(_) => 1
    case McpServerToolCallContent(_, _) => 2
    case McpServerToolResultContent(_) => 3
    case TextContent(_) => 4
    case OtherContent => 5
  }

  /** `OfType<kind>().FirstOrDefault()`, as an index. */
  function FirstOfRank(cs: seq<Content>, k: nat): (r: Option<nat>)
    ensures r.Some? ==> r.value < |cs| && Rank(cs[r.value]) == k
    ensures r.Some? ==> forall i :: 0 <= i < r.value ==> Rank(cs[i]) != k
    ensures r.None? ==> forall i :: 0 <= i < |cs| ==> Rank(cs[i]) != k
  {
    if |cs| == 0 then None
    else if Rank(cs[0]) == k then Some(0)
    else match FirstOfRank(cs[1..], k)
      case None => None
      case Some(i) => Some(i + 1)
  }

  function SelectFrom(cs: seq<Content>, k: nat): Option<Content>
    requires k <= 5
    decreases 5 - k
  {
    if k == 5 then None
    else match FirstOfRank(cs, k)
      case Some(j) => Some(cs[j])
      case None => SelectFrom(cs, k + 1)
  }

  /**
   * The one content an update is handled by: each kind is tested in `Rank`
   * order and the first content of the first kind present wins.
   */
  function Selected(cs: seq<Content>): Option<Content> {
    SelectFrom(cs, 0)
  }

  lemma {:induction false} SelectFromPriority(cs: seq<Content>, k: nat)
    requires k <= 5
    requires forall i :: 0 <= i < |cs| ==> Rank(cs[i]) >= k
    ensures SelectFrom(cs, k).None? <==> forall i :: 0 <= i < |cs| ==> Rank(cs[i]) == 5
    ensures SelectFrom(cs, k).Some? ==>
              Rank(SelectFrom(cs, k).value) < 5
              && forall i :: 0 <= i < |cs| ==> Rank(SelectFrom(cs, k).value) <= Rank(cs[i])
    ensures SelectFrom(cs, k).Some? ==>
              exists j :: 0 <= j < |cs| && cs[j] == SelectFrom(cs, k).value
                          && forall i :: 0 <= i < j ==> Rank(cs[i]) != Rank(SelectFrom(cs, k).value)
    decreases 5 - k
  {
    if k < 5 && FirstOfRank(cs, k).None? {
      SelectFromPriority(cs, k + 1);
    }
  }

  /**
   * The selected content is the first content of the highest-priority kind
   * present; there is none exactly when the update holds none of the five kinds.
   */
  lemma SelectedPriority(cs: seq<Content>)
    ensures Selected(cs).None? <==> forall i :: 0 <= i < |cs| ==> cs[i].OtherContent?
    ensures Selected(cs).Some? ==>
              !Selected(cs).value.OtherContent? && forall i :: 0 <= i < |cs| ==> Rank(Selected(cs).value) <= Rank(cs[i])
    ensures Selected(cs).Some? ==>
              exists j :: 0 <= j < |cs| && cs[j] == Selected(cs).value
                          && forall i :: 0 <= i < j ==> Rank(cs[i]) != Rank(Selected(cs).value)
  {
    SelectFromPriority(cs, 0);
  }

  /**
   * `lastToolCall.Result = ...`: overwrite the result of the LAST recorded call,
   * whatever its tool name; nothing happens when no call is recorded.
   */
  function SetLastResult(calls: seq<ToolCallInfo>, result: Option<string>): seq<ToolCallInfo> {
    if |calls| == 0 then calls
    else calls[..|calls| - 1] + [calls[|calls| - 1].(result := result)]
  }

  /** A result changes the last call's result and nothing else; no call is added or removed. */
  lemma SetLastResultChangesLast(calls: seq<ToolCallInfo>, result: Option<string>)
    ensures |SetLastResult(calls, result)| == |calls|
    ensures forall i :: 0 <= i < |calls| - 1 ==> SetLastResult(calls, result)[i] == calls[i]
    ensures |calls| > 0 ==> SetLastResult(calls, result)[|calls| - 1]
                            == ToolCallInfo(calls[|calls| - 1].toolName, calls[|calls| - 1].arguments, result)
  {
  }

  /** The tool-call list after handling content `c`. */
  function CallsAfter(calls: seq<ToolCallInfo>, c: Content): seq<ToolCallInfo> {
    match c
    case FunctionCallContent(name, args) => calls + [ToolCallInfo(name, args, None)]
    case FunctionResultContent(result) => SetLastResult(calls, result)
    case McpServerToolCallContent(name, args) => calls + [ToolCallInfo(name, args, None)]
    case McpServerToolResultContent(output) => SetLastResult(calls, output)
    case _ => calls
  }

  /** The text output after handling content `c`: `TextOutput += text` for non-null text. */
  function TextAfter(text: string, c: Content): string {
    match c
    case TextContent(Some(t)) => text + t
    case _ => text
  }

  /** The tool names of a list of calls, in order. */
  function ToolNames(calls: seq<ToolCallInfo>): (r: seq<string>)
    ensures |r| == |calls|
    ensures forall i :: 0 <= i < |calls| ==> r[i] == calls[i].toolName
  {
    if |calls| == 0 then [] else ToolNames(calls[..|calls| - 1]) + [calls[|calls| - 1].toolName]
  }

  /** The tool name a content adds to the list, if it is a call. */
  function CallName(c: Option<Content>): seq<string> {
    match c
    case Some(FunctionCallContent(name, _)) => [name]
    case Some(McpServerToolCallContent(name, _)) => [name]
    case _ => []
  }

  /** A tool result never adds or removes a record and never renames one. */
  lemma CallsAfterNames(calls: seq<ToolCallInfo>, c: Content)
    ensures ToolNames(CallsAfter(calls, c)) == ToolNames(calls) + CallName(Some(c))
  {
    var r := CallsAfter(calls, c);
    if c.FunctionResultContent? {
      SetLastResultChangesLast(calls, c.result);
    } else if c.McpServerToolResultContent? {
      SetLastResultChangesLast(calls, c.output);
    }
    assert ToolNames(r) == ToolNames(calls) + CallName(Some(c)) by {
      assert |ToolNames(r)| == |ToolNames(calls) + CallName(Some(c))|;
      forall i | 0 <= i < |r| ensures ToolNames(r)[i] == (ToolNames(calls) + CallName(Some(c)))[i] {
        if i < |calls| {
          assert r[i].toolName == calls[i].toolName;
        }
      }
    }
  }

  /** A text content of an assistant message that is not blank: a candidate final message. */
  predicate IsCandidate(m: ChatMessage, c: Content) {
    m.role == Assistant && c.TextContent? && !IsNullOrWhiteSpace(c.text)
  }

  /** The final message after scanning contents `cs` of message `m`: the last candidate wins. */
  function ContentsFinal(m: ChatMessage, cs: seq<Content>, prior: Option<string>): Option<string> {
    if |cs| == 0 then prior
    else if IsCandidate(m, cs[|cs| - 1]) then Some(cs[|cs| - 1].text.value)
    else ContentsFinal(m, cs[..|cs| - 1], prior)
  }

  /** The final message after scanning all messages in order. */
  function MessagesFinal(messages: seq<ChatMessage>, prior: Option<string>): Option<string> {
    if |messages| == 0 then prior
    else ContentsFinal(messages[|messages| - 1], messages[|messages| - 1].contents,
                       MessagesFinal(messages[..|messages| - 1], prior))
  }

  ghost predicate CandidateAt(messages: seq<ChatMessage>, i: int, j: int) {
    0 <= i < |messages| && 0 <= j < |messages[i].contents| && IsCandidate(messages[i], messages[i].contents[j])
  }

  /** Position (i2, j2) comes after (i, j) in the scan order. */
  predicate After(i: int, j: int, i2: int, j2: int) {
    i2 > i || (i2 == i && j2 > j)
  }

  /**
   * The nested `foreach` over messages and contents that picks `FinalMessage`:
   * it keeps `prior` unless a candidate text is seen, and ends with the last one.
   */
  method ScanFinalMessage(messages: seq<ChatMessage>, prior: Option<string>) returns (finalMessage: Option<string>)
    ensures finalMessage == MessagesFinal(messages, prior)
  {
    finalMessage := prior;
    var i := 0;
    while i < |messages|
      invariant 0 <= i <= |messages|
      invariant finalMessage == MessagesFinal(messages[..i], prior)
    {
      var msg := messages[i];
      ghost var before := finalMessage;
      if msg.role == Assistant {
        var j := 0;
        while j < |msg.contents|
          invariant 0 <= j <= |msg.contents|
          invariant finalMessage == ContentsFinal(msg, msg.contents[..j], before)
        {
          var content := msg.contents[j];
          if content.TextContent? && !IsNullOrWhiteSpace(content.text) {
            finalMessage := Some(content.text.value);
          }
          assert msg.contents[..j + 1][..j] == msg.contents[..j];
          j := j + 1;
        }
        assert msg.contents[..|msg.contents|] == msg.contents;
      } else {
        NonAssistantKeeps(msg, msg.contents, before);
      }
      assert messages[..i + 1][..i] == messages[..i];
      i := i + 1;
    }
    assert messages[..|messages|] == messages;
  }

  lemma {:induction false} NonAssistantKeeps(m: ChatMessage, cs: seq<Content>, prior: Option<string>)
    requires m.role != Assistant
    ensures ContentsFinal(m, cs, prior) == prior
    decreases |cs|
  {
    if |cs| > 0 {
      NonAssistantKeeps(m, cs[..|cs| - 1], prior);
    }
  }

  lemma {:induction false} ContentsFinalNone(m: ChatMessage, cs: seq<Content>, prior: Option<string>)
    requires forall j :: 0 <= j < |cs| ==> !IsCandidate(m, cs[j])
    ensures ContentsFinal(m, cs, prior) == prior
    decreases |cs|
  {
    if |cs| > 0 {
      ContentsFinalNone(m, cs[..|cs| - 1], prior);
    }
  }

  lemma {:induction false} ContentsFinalLast(m: ChatMessage, cs: seq<Content>, prior: Option<string>, j: int)
    requires 0 <= j < |cs| && IsCandidate(m, cs[j])
    requires forall j2 :: j < j2 < |cs| ==> !IsCandidate(m, cs[j2])
    ensures ContentsFinal(m, cs, prior) == Some(cs[j].text.value)
    decreases |cs|
  {
    if j < |cs| - 1 {
      ContentsFinalLast(m, cs[..|cs| - 1], prior, j);
    }
  }

  /** With no candidate anywhere, the final message stays what it was (null for a fresh run). */
  lemma {:induction false} FinalMessageWithoutCandidate(messages: seq<ChatMessage>, prior: Option<string>)
    requires forall i, j :: !CandidateAt(messages, i, j)
    ensures MessagesFinal(messages, prior) == prior
    decreases |messages|
  {
    if |messages| > 0 {
      var n := |messages| - 1;
      FinalMessageWithoutCandidate(messages[..n], prior) by {
        forall i, j ensures !CandidateAt(messages[..n], i, j) {
          assert CandidateAt(messages[..n], i, j) ==> CandidateAt(messages, i, j);
        }
      }
      forall j | 0 <= j < |messages[n].contents| ensures !IsCandidate(messages[n], messages[n].contents[j]) {
        assert !CandidateAt(messages, n, j);
      }
      ContentsFinalNone(messages[n], messages[n].contents, prior);
    }
  }

  /**
   * `FinalMessage` is the text of the last non-blank text content of an
   * assistant message: every other role and every blank text is ignored.
   */
  lemma {:induction false} FinalMessageIsLastCandidate(messages: seq<ChatMessage>, prior: Option<string>, i: int, j: int)
    requires CandidateAt(messages, i, j)
    requires forall i2, j2 :: After(i, j, i2, j2) ==> !CandidateAt(messages, i2, j2)
    ensures MessagesFinal(messages, prior) == Some(messages[i].contents[j].text.value)
    decreases |messages|
  {
    var n := |messages| - 1;
    var before := MessagesFinal(messages[..n], prior);
    if i == n {
      forall j2 | j < j2 < |messages[n].contents| ensures !IsCandidate(messages[n], messages[n].contents[j2]) {
        assert !CandidateAt(messages, n, j2);
      }
      ContentsFinalLast(messages[n], messages[n].contents, before, j);
    } else {
      FinalMessageIsLastCandidate(messages[..n], prior, i, j) by {
        assert messages[..n][i] == messages[i];
        forall i2, j2 | After(i, j, i2, j2) ensures !CandidateAt(messages[..n], i2, j2) {
          assert CandidateAt(messages[..n], i2, j2) ==> CandidateAt(messages, i2, j2);
        }
      }
      forall j2 | 0 <= j2 < |messages[n].contents| ensures !IsCandidate(messages[n], messages[n].contents[j2]) {
        assert !CandidateAt(messages, n, j2);
      }
      ContentsFinalNone(messages[n], messages[n].contents, before);
    }
  }
}
