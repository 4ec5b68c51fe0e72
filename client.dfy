/**
 * The browser side of the streaming endpoint (frontend/src/App.tsx,
 * `callAnalyzeMachineStreaming`): a read loop that splits the response body
 * into lines, collects `event:` and `data:` fields, and on the blank line that
 * ends a record hands the parsed JSON to a reducer that rebuilds the
 * workflow response. `JSON.parse` is the parameter `parse`; it yields `None`
 * when parsing throws or when the value is `null` (reading a field of `null`
 * throws, and the surrounding `catch` leaves the state as it was).
 */
module Client {
  import opened Wrappers
  import opened Text
  import opened WorkflowModel
  import opened Stream

  // ----- The reducer ---------------------------------------------------------

  /** A tool call as the page records it; JSON `null` is `None`. */
  datatype ClientToolCall = ClientToolCall(toolName: Option<string>, arguments: Option<string>, result: Option<string>)

  /** The page's `AgentStepResult`. */
  datatype ClientStep = ClientStep(
    agentName: Option<string>,
    toolCalls: seq<ClientToolCall>,
    textOutput: string,
    finalMessage: Option<string>)

  /** The fields the reducer reads from a parsed event; a missing or `null` field is `None`. */
  datatype EventData = EventData(
    agentName: Option<string>,
    toolName: Option<string>,
    arguments: Option<string>,
    result: Option<string>,
    text: Option<string>,
    textOutput: Option<string>,
    toolCalls: Option<seq<ClientToolCall>>,
    finalMessage: Option<string>,
    message: Option<string>)

  const NoFields: EventData := EventData(None, None, None, None, None, None, None, None, None)

  /** `workflowResponse` and `currentAgentStep`. */
  datatype ClientState = ClientState(agentSteps: seq<ClientStep>, finalMessage: Option<string>, current: Option<ClientStep>)

  const Empty: ClientState := ClientState([], None, None)

  predicate Unresolved(c: ClientToolCall, name: Option<string>) {
    c.toolName == name && c.result.None?
  }

  /**
   * `toolCalls.find(tc => tc.toolName === data.toolName && tc.result === null)`
   * followed by `toolCall.result = data.result` when one is found.
   */
  function FillFirstUnresolved(calls: seq<ClientToolCall>, name: Option<string>, result: Option<string>): seq<ClientToolCall>
    decreases |calls|
  {
    if |calls| == 0 then []
    else if Unresolved(calls[0], name) then [calls[0].(result := result)] + calls[1..]
    else [calls[0]] + FillFirstUnresolved(calls[1..], name, result)
  }

  /** With no unresolved call of that name the calls are left alone. */
  lemma {:induction false} FillNoneUnresolved(calls: seq<ClientToolCall>, name: Option<string>, result: Option<string>)
    requires forall i :: 0 <= i < |calls| ==> !Unresolved(calls[i], name)
    ensures FillFirstUnresolved(calls, name, result) == calls
    decreases |calls|
  {
    if |calls| > 0 {
      assert !Unresolved(calls[0], name);
      FillNoneUnresolved(calls[1..], name, result);
      assert [calls[0]] + calls[1..] == calls;
    }
  }

  /** Otherwise exactly the first unresolved call of that name receives the result. */
  lemma {:induction false} FillFirstAt(calls: seq<ClientToolCall>, name: Option<string>, result: Option<string>, j: nat)
    requires j < |calls| && Unresolved(calls[j], name)
    requires forall i :: 0 <= i < j ==> !Unresolved(calls[i], name)
    ensures FillFirstUnresolved(calls, name, result) == calls[j := calls[j].(result := result)]
    decreases |calls|
  {
    if j == 0 {
      assert [calls[0].(result := result)] + calls[1..] == calls[0 := calls[0].(result := result)];
    } else {
      assert !Unresolved(calls[0], name);
      var rest := calls[1..];
      forall i | 0 <= i < j - 1 ensures !Unresolved(rest[i], name) {
        assert rest[i] == calls[i + 1];
      }
      FillFirstAt(rest, name, result, j - 1);
      assert [calls[0]] + rest[j - 1 := rest[j - 1].(result := result)] == calls[j := calls[j].(result := result)];
    }
  }

  /** `data.text` appended with `+=`; a missing field appends the text `undefined`. */
  function AppendedText(text: Option<string>): string {
    if text.Some? then text.value else "undefined"
  }

  /** A non-empty string is truthy, so `data.textOutput || currentAgentStep.textOutput`. */
  function OrText(given: Option<string>, local: string): string {
    if given.Some? && given.value != "" then given.value else local
  }

  /** The open step as `agent_complete` finishes it; any array, even an empty one, is truthy. */
  function CompletedStep(s: ClientStep, d: EventData): ClientStep {
    ClientStep(s.agentName,
               if d.toolCalls.Some? then d.toolCalls.value else s.toolCalls,
               OrText(d.textOutput, s.textOutput),
               d.finalMessage)
  }

  /**
   * The `switch (currentEvent)` on a parsed event. `error` and `done` only set
   * UI state (`setApiError`, `setRunState`), so they leave this state as it is,
   * as does any other event type.
   */
  function Reduce(st: ClientState, eventType: string, d: EventData): ClientState {
    if eventType == "agent_started" then
      st.(current := Some(ClientStep(d.agentName, [], "", None)))
    else if eventType == "agent_complete" then
      if st.current.None? then st
      else st.(agentSteps := st.agentSteps + [CompletedStep(st.current.value, d)], current := None)
    else if eventType == "tool_call" then
      if st.current.None? then st
      else
        var s := st.current.value;
        st.(current := Some(s.(toolCalls := s.toolCalls + [ClientToolCall(d.toolName, d.arguments, None)])))
    else if eventType == "tool_result" then
      if st.current.None? then st
      else
        var s := st.current.value;
        st.(current := Some(s.(toolCalls := FillFirstUnresolved(s.toolCalls, d.toolName, d.result))))
    else if eventType == "text_token" then
      if st.current.None? then st
      else
        var s := st.current.value;
        st.(current := Some(s.(textOutput := s.textOutput + AppendedText(d.text))))
    else if eventType == "workflow_complete" then
      st.(finalMessage := d.finalMessage)
    else st
  }

  /** `JSON.parse(currentData)` inside `try`, then the switch; a failed parse changes nothing. */
  function Dispatch(st: ClientState, eventType: string, json: string, parse: string -> Option<EventData>): ClientState {
    if parse(json).None? then st else Reduce(st, eventType, parse(json).value)
  }

  // ----- The line parser -----------------------------------------------------

  /** `currentEvent`, `currentData` and the reducer state, as the line loop sees them. */
  datatype LineState = LineState(currentEvent: string, currentData: string, state: ClientState)

  /** The body of the `for` loop over the lines of one read. */
  function ProcessLine(ls: LineState, line: string, parse: string -> Option<EventData>): LineState {
    if StartsWith(line, "event:") then ls.(currentEvent := Trim(line[6..], IsJsWhiteSpace))
    else if StartsWith(line, "data:") then ls.(currentData := Trim(line[5..], IsJsWhiteSpace))
    else if line == "" && ls.currentEvent != "" && ls.currentData != "" then
      LineState("", "", Dispatch(ls.state, ls.currentEvent, ls.currentData, parse))
    else ls
  }

  function ProcessLines(ls: LineState, lines: seq<string>, parse: string -> Option<EventData>): LineState
    decreases |lines|
  {
    if |lines| == 0 then ls
    else ProcessLine(ProcessLines(ls, lines[..|lines| - 1], parse), lines[|lines| - 1], parse)
  }

  lemma {:induction false} ProcessLinesAppend(ls: LineState, a: seq<string>, b: seq<string>, parse: string -> Option<EventData>)
    ensures ProcessLines(ls, a + b, parse) == ProcessLines(ProcessLines(ls, a, parse), b, parse)
    decreases |b|
  {
    if |b| == 0 {
      assert a + b == a;
    } else {
      assert (a + b)[..|a + b| - 1] == a + b[..|b| - 1];
      ProcessLinesAppend(ls, a, b[..|b| - 1], parse);
    }
  }

  /**
   * Only a blank line after both fields touches the reducer state, and it
   * always clears both fields, whether or not the JSON parsed.
   */
  lemma LineEffects(ls: LineState, line: string, parse: string -> Option<EventData>)
    ensures ProcessLine(ls, line, parse).state != ls.state ==>
              line == "" && ls.currentEvent != "" && ls.currentData != "" && parse(ls.currentData).Some?
    ensures line == "" && ls.currentEvent != "" && ls.currentData != "" ==>
              ProcessLine(ls, line, parse).currentEvent == "" && ProcessLine(ls, line, parse).currentData == ""
    ensures line == "" && ls.currentEvent != "" && ls.currentData != "" && parse(ls.currentData).None? ==>
              ProcessLine(ls, line, parse) == LineState("", "", ls.state)
  {
  }

  /** One field line of a record: the text after `event:` or `data:`, trimmed. */
  predicate RecordField(s: string) {
    s != "" && '\n' !in s && IsTrimmed(s, IsJsWhiteSpace)
  }

  /** An `event:` line sets the pending event type to its trimmed value. */
  lemma EventLine(ls: LineState, eventType: string, parse: string -> Option<EventData>)
    requires RecordField(eventType)
    ensures ProcessLine(ls, "event: " + eventType, parse) == ls.(currentEvent := eventType)
  {
    var e := "event: " + eventType;
    assert StartsWith(e, "event:");
    assert e[6..] == " " + eventType;
    TrimPadded(" ", eventType, IsJsWhiteSpace);
  }

  /** A `data:` line sets the pending data to its trimmed value. */
  lemma DataLine(ls: LineState, json: string, parse: string -> Option<EventData>)
    requires RecordField(json)
    ensures ProcessLine(ls, "data: " + json, parse) == ls.(currentData := json)
  {
    var d := "data: " + json;
    assert d[..6] != "event:";
    assert StartsWith(d, "data:");
    assert d[5..] == " " + json;
    TrimPadded(" ", json, IsJsWhiteSpace);
  }

  lemma OneLine(ls: LineState, a: string, parse: string -> Option<EventData>)
    ensures ProcessLines(ls, [a], parse) == ProcessLine(ls, a, parse)
  {
    assert [a][..0] == [];
  }

  lemma ThreeLines(ls: LineState, a: string, b: string, c: string, parse: string -> Option<EventData>)
    ensures ProcessLines(ls, [a, b, c], parse) == ProcessLine(ProcessLine(ProcessLine(ls, a, parse), b, parse), c, parse)
  {
    assert [a, b, c] == [a] + [b] + [c];
    ProcessLinesAppend(ls, [a] + [b], [c], parse);
    ProcessLinesAppend(ls, [a], [b], parse);
    OneLine(ls, a, parse);
    OneLine(ProcessLine(ls, a, parse), b, parse);
    OneLine(ProcessLines(ls, [a, b], parse), c, parse);
  }

  /**
   * The three lines of an SSE record dispatch it, whatever fields were
   * pending before: a later `event:` or `data:` line overwrites an earlier one.
   */
  lemma RecordDispatches(ls: LineState, eventType: string, json: string, parse: string -> Option<EventData>)
    requires RecordField(eventType) && RecordField(json)
    ensures ProcessLines(ls, ["event: " + eventType, "data: " + json, ""], parse)
            == LineState("", "", Dispatch(ls.state, eventType, json, parse))
  {
    ThreeLines(ls, "event: " + eventType, "data: " + json, "", parse);
    EventLine(ls, eventType, parse);
    DataLine(ls.(currentEvent := eventType), json, parse);
  }

  // ----- Reads and the carried buffer ----------------------------------------

  /** The lines of `text` that a line feed ended. */
  function CompleteLines(text: string): seq<string> {
    var l := Split(text, '\n');
    l[..|l| - 1]
  }

  /** What follows the last line feed: `buffer = line` for the last piece. */
  function Fragment(text: string): string {
    var l := Split(text, '\n');
    l[|l| - 1]
  }

  /** Splitting `x + y`: the complete lines of `x`, then those of its fragment continued by `y`. */
  lemma LinesAppend(x: string, y: string)
    ensures CompleteLines(x + y) == CompleteLines(x) + CompleteLines(Fragment(x) + y)
    ensures Fragment(x + y) == Fragment(Fragment(x) + y)
  {
    SplitAppend(x, y, '\n');
    var sx := Split(x, '\n');
    var st := Split(sx[|sx| - 1] + y, '\n');
    var all := sx[..|sx| - 1] + st;
    assert all[..|all| - 1] == sx[..|sx| - 1] + st[..|st| - 1];
  }

  lemma EmptyHasNoLines()
    ensures CompleteLines("") == [] && Fragment("") == ""
  {
    SplitNoSeparator("", '\n');
  }

  /** The carried `buffer` and the line state between reads. */
  datatype Reader = Reader(buffer: string, lines: LineState)

  const Opened: Reader := Reader("", LineState("", "", Empty))

  /** One read handled: split `buffer + chunk`, run the complete lines, keep the fragment. */
  function ChunkStep(r: Reader, chunk: string, parse: string -> Option<EventData>): Reader {
    var text := r.buffer + chunk;
    Reader(Fragment(text), ProcessLines(r.lines, CompleteLines(text), parse))
  }

  function Concat(chunks: seq<string>): string {
    if |chunks| == 0 then "" else Concat(chunks[..|chunks| - 1]) + chunks[|chunks| - 1]
  }

  /** The pending fields dropped: `let currentEvent = ''` and `let currentData = ''`. */
  function Reset(ls: LineState): LineState {
    LineState("", "", ls.state)
  }

  /** The loop as written: every read starts with no pending fields. */
  function ReadAsWritten(chunks: seq<string>, parse: string -> Option<EventData>): Reader {
    if |chunks| == 0 then Opened
    else
      var r := ReadAsWritten(chunks[..|chunks| - 1], parse);
      ChunkStep(r.(lines := Reset(r.lines)), chunks[|chunks| - 1], parse)
  }

  /** The loop with the pending fields kept across reads, as the buffer already is. */
  function ReadCarried(chunks: seq<string>, parse: string -> Option<EventData>): Reader {
    if |chunks| == 0 then Opened
    else ChunkStep(ReadCarried(chunks[..|chunks| - 1], parse), chunks[|chunks| - 1], parse)
  }

  /** One `reader.read()` result handled by the body of `while (true)`. */
  method ProcessChunk(buffer0: string, chunk: string, ls: LineState, parse: string -> Option<EventData>)
    returns (buffer: string, after: LineState)
    ensures Reader(buffer, after) == ChunkStep(Reader(buffer0, ls), chunk, parse)
  {
    buffer := buffer0 + chunk;
    var lines := Split(buffer, '\n');
    buffer := "";
    var currentEvent, currentData, state := ls.currentEvent, ls.currentData, ls.state;
    for i := 0 to |lines|
      invariant i < |lines| ==>
                  buffer == "" && LineState(currentEvent, currentData, state) == ProcessLines(ls, lines[..i], parse)
      invariant i == |lines| ==>
                  buffer == lines[|lines| - 1]
                  && LineState(currentEvent, currentData, state) == ProcessLines(ls, lines[..|lines| - 1], parse)
    {
      var line := lines[i];
      if i == |lines| - 1 && !EndsWith(buffer, "\n") {
        buffer := line;
        continue;
      }
      assert lines[..i + 1][..i] == lines[..i];
      if StartsWith(line, "event:") {
        currentEvent := Trim(line[6..], IsJsWhiteSpace);
      } else if StartsWith(line, "data:") {
        currentData := Trim(line[5..], IsJsWhiteSpace);
      } else if line == "" && currentEvent != "" && currentData != "" {
        var eventData := parse(currentData);
        if eventData.Some? {
          state := Reduce(state, currentEvent, eventData.value);
        }
        currentEvent := "";
        currentData := "";
      }
    }
    after := LineState(currentEvent, currentData, state);
  }

  /** The read loop as written; the result is the rebuilt response and the buffer left over. */
  method ReadStream(chunks: seq<string>, parse: string -> Option<EventData>) returns (state: ClientState, buffer: string)
    ensures state == ReadAsWritten(chunks, parse).lines.state && buffer == ReadAsWritten(chunks, parse).buffer
  {
    buffer, state := "", Empty;
    var i := 0;
    while i < |chunks|
      invariant 0 <= i <= |chunks|
      invariant ReadAsWritten(chunks[..i], parse).buffer == buffer
      invariant ReadAsWritten(chunks[..i], parse).lines.state == state
    {
      var after;
      buffer, after := ProcessChunk(buffer, chunks[i], LineState("", "", state), parse);
      state := after.state;
      assert chunks[..i + 1][..i] == chunks[..i];
      i := i + 1;
    }
    assert chunks[..|chunks|] == chunks;
  }

  /** The read loop with `currentEvent` and `currentData` declared outside it. */
  method ReadStreamCarried(chunks: seq<string>, parse: string -> Option<EventData>) returns (state: ClientState, buffer: string)
    ensures Reader(buffer, LineState(ReadCarried(chunks, parse).lines.currentEvent,
                                     ReadCarried(chunks, parse).lines.currentData, state)) == ReadCarried(chunks, parse)
  {
    buffer := "";
    var pending := LineState("", "", Empty);
    var i := 0;
    while i < |chunks|
      invariant 0 <= i <= |chunks|
      invariant ReadCarried(chunks[..i], parse) == Reader(buffer, pending)
    {
      buffer, pending := ProcessChunk(buffer, chunks[i], pending, parse);
      assert chunks[..i + 1][..i] == chunks[..i];
      i := i + 1;
    }
    assert chunks[..|chunks|] == chunks;
    state := pending.state;
  }

  /** With the fields carried, the reads see exactly the lines of the whole body. */
  lemma {:induction false} CarriedFollowsBody(chunks: seq<string>, parse: string -> Option<EventData>)
    ensures ReadCarried(chunks, parse)
            == Reader(Fragment(Concat(chunks)), ProcessLines(Opened.lines, CompleteLines(Concat(chunks)), parse))
    decreases |chunks|
  {
    if |chunks| == 0 {
      EmptyHasNoLines();
    } else {
      var front := chunks[..|chunks| - 1];
      var t, c := Concat(front), chunks[|chunks| - 1];
      CarriedFollowsBody(front, parse);
      LinesAppend(t, c);
      ProcessLinesAppend(Opened.lines, CompleteLines(t), CompleteLines(Fragment(t) + c), parse);
    }
  }

  /** So how the body is cut into reads makes no difference. */
  lemma ChunkingInvisible(a: seq<string>, b: seq<string>, parse: string -> Option<EventData>)
    requires Concat(a) == Concat(b)
    ensures ReadCarried(a, parse) == ReadCarried(b, parse)
  {
    CarriedFollowsBody(a, parse);
    CarriedFollowsBody(b, parse);
  }

  lemma LineEnded(e: string)
    requires '\n' !in e
    ensures CompleteLines(e + "\n") == [e] && Fragment(e + "\n") == ""
  {
    assert e + "\n" == e + ['\n'] + "";
    SplitAtFirst(e, "", '\n');
    SplitNoSeparator("", '\n');
  }

  lemma RecordEnded(d: string)
    requires '\n' !in d
    ensures CompleteLines(d + "\n\n") == [d, ""] && Fragment(d + "\n\n") == ""
  {
    assert d + "\n\n" == d + ['\n'] + ([] + ['\n'] + []);
    SplitAtFirst(d, [] + ['\n'] + [], '\n');
    SplitAtFirst([], [], '\n');
    SplitNoSeparator([], '\n');
  }

  lemma ConcatTwo(a: string, b: string)
    ensures Concat([a, b]) == a + b
  {
    assert [a, b][..1] == [a];
    assert [a][..0] == [];
    assert Concat([a]) == Concat([]) + a;
    assert Concat([a, b]) == Concat([a]) + b;
  }

  /** The first read of a split record leaves only its event type pending. */
  lemma EventOnlyRead(r: Reader, eventType: string, parse: string -> Option<EventData>)
    requires r.buffer == "" && RecordField(eventType)
    ensures ChunkStep(r, "event: " + eventType + "\n", parse) == Reader("", r.lines.(currentEvent := eventType))
  {
    var e := "event: " + eventType;
    assert '\n' !in e;
    assert "" + (e + "\n") == e + "\n";
    LineEnded(e);
    OneLine(r.lines, e, parse);
    EventLine(r.lines, eventType, parse);
  }

  /** The second read of a split record, when it starts with no event type pending. */
  lemma DataOnlyRead(st: ClientState, json: string, parse: string -> Option<EventData>)
    requires RecordField(json)
    ensures ChunkStep(Reader("", LineState("", "", st)), "data: " + json + "\n\n", parse)
            == Reader("", LineState("", json, st))
  {
    var d := "data: " + json;
    assert '\n' !in d;
    assert "" + (d + "\n\n") == d + "\n\n";
    RecordEnded(d);
    var ls := LineState("", "", st);
    ProcessLinesAppend(ls, [d], [""], parse);
    assert [d] + [""] == [d, ""];
    OneLine(ls, d, parse);
    DataLine(ls, json, parse);
    OneLine(LineState("", json, st), "", parse);
  }

  /** An SSE record is three complete lines and leaves no fragment. */
  lemma FrameLines(eventType: string, json: string)
    requires '\n' !in eventType && '\n' !in json
    ensures CompleteLines(SseFrame(eventType, json)) == ["event: " + eventType, "data: " + json, ""]
    ensures Fragment(SseFrame(eventType, json)) == ""
  {
    SseFrameLines(eventType, json);
    var l := Split(SseFrame(eventType, json), '\n');
    assert l[..|l| - 1] == ["event: " + eventType, "data: " + json, ""];
  }

  /** A record cut into two reads right after its `event:` line. */
  function CutAfterEvent(eventType: string, json: string): seq<string> {
    ["event: " + eventType + "\n", "data: " + json + "\n\n"]
  }

  /**
   * As written, a record whose `event:` line arrives in one read and whose
   * `data:` line arrives in the next is never dispatched.
   */
  lemma SplitRecordLost(eventType: string, json: string, parse: string -> Option<EventData>)
    requires RecordField(eventType) && RecordField(json)
    ensures ReadAsWritten(CutAfterEvent(eventType, json), parse).lines.state == Empty
  {
    var c1, c2 := "event: " + eventType + "\n", "data: " + json + "\n\n";
    var chunks := [c1, c2];
    assert chunks[..1] == [c1];
    assert [c1][..0] == [];
    EventOnlyRead(Opened, eventType, parse);
    assert ReadAsWritten([c1], parse) == Reader("", LineState(eventType, "", Empty));
    DataOnlyRead(Empty, json, parse);
  }

  /** With the fields carried across reads, the same record is dispatched. */
  lemma SplitRecordKept(eventType: string, json: string, parse: string -> Option<EventData>)
    requires RecordField(eventType) && RecordField(json)
    ensures ReadCarried(CutAfterEvent(eventType, json), parse).lines.state
            == Dispatch(Empty, eventType, json, parse)
  {
    var c1, c2 := "event: " + eventType + "\n", "data: " + json + "\n\n";
    var chunks := [c1, c2];
    CarriedFollowsBody(chunks, parse);
    ConcatTwo(c1, c2);
    assert c1 + c2 == SseFrame(eventType, json);
    FrameLines(eventType, json);
    RecordDispatches(Opened.lines, eventType, json, parse);
  }

  /** For instance a step start sent this way never opens a step. */
  lemma SplitStartNotOpened(json: string, parse: string -> Option<EventData>)
    requires RecordField(json) && parse(json).Some?
    ensures ReadAsWritten(CutAfterEvent("agent_started", json), parse).lines.state.current.None?
    ensures ReadCarried(CutAfterEvent("agent_started", json), parse).lines.state.current
            == Some(ClientStep(parse(json).value.agentName, [], "", None))
  {
    var started := "agent_started";
    assert RecordField(started);
    SplitRecordLost(started, json, parse);
    SplitRecordKept(started, json, parse);
    StartOpens(Empty, parse(json).value);
  }

  lemma StartOpens(st: ClientState, d: EventData)
    ensures Reduce(st, "agent_started", d).current == Some(ClientStep(d.agentName, [], "", None))
  {
  }

  // ----- What the server sends ----------------------------------------------

  function ToClientCall(c: ToolCallInfo): ClientToolCall {
    ClientToolCall(Some(c.toolName), c.arguments, c.result)
  }

  function ToClientCalls(calls: seq<ToolCallInfo>): (r: seq<ClientToolCall>)
    ensures |r| == |calls| && forall i :: 0 <= i < |calls| ==> r[i] == ToClientCall(calls[i])
  {
    seq(|calls|, i requires 0 <= i < |calls| => ToClientCall(calls[i]))
  }

  /** The fields a payload carries once serialized with camel-case names and parsed again. */
  function ToEventData(p: Payload): EventData {
    match p
    case AgentStarted(n) => NoFields.(agentName := Some(n))
    case ToolCallPayload(a, t, args) => NoFields.(agentName := a, toolName := Some(t), arguments := args)
    case ToolResultPayload(a, t, r) => NoFields.(agentName := a, toolName := Some(t), result := r)
    case TextTokenPayload(a, t) => NoFields.(agentName := a, text := Some(t))
    case AgentCompletePayload(s) =>
      NoFields.(agentName := Some(s.agentName), toolCalls := Some(ToClientCalls(s.toolCalls)),
                textOutput := Some(s.textOutput), finalMessage := s.finalMessage)
    case WorkflowCompletePayload(f) => NoFields.(finalMessage := f)
    case ErrorPayload(m) => NoFields.(message := Some(m))
    case DonePayload => NoFields
  }

  /**
   * The serializer writes one compact, non-empty line per payload that the
   * browser parses back to that payload's fields.
   */
  predicate Faithful(p: Payload, serialize: Payload -> string, parse: string -> Option<EventData>) {
    RecordField(serialize(p)) && parse(serialize(p)) == Some(ToEventData(p))
  }

  /** The reducer run over payloads as they are received. */
  function ReducePayloads(st: ClientState, ps: seq<Payload>): ClientState {
    if |ps| == 0 then st
    else
      var p := ps[|ps| - 1];
      Reduce(ReducePayloads(st, ps[..|ps| - 1]), EventName(p), ToEventData(p))
  }

  lemma {:induction false} ReducePayloadsAppend(st: ClientState, a: seq<Payload>, b: seq<Payload>)
    ensures ReducePayloads(st, a + b) == ReducePayloads(ReducePayloads(st, a), b)
    decreases |b|
  {
    if |b| == 0 {
      assert a + b == a;
    } else {
      assert (a + b)[..|a + b| - 1] == a + b[..|b| - 1];
      ReducePayloadsAppend(st, a, b[..|b| - 1]);
    }
  }

  /** The lines of the records for `ps`: event, data and blank line for each. */
  function RecordLines(ps: seq<Payload>, serialize: Payload -> string): seq<string> {
    if |ps| == 0 then []
    else
      var p := ps[|ps| - 1];
      RecordLines(ps[..|ps| - 1], serialize) + ["event: " + EventName(p), "data: " + serialize(p), ""]
  }

  /** A body of whole records splits into their lines and leaves no fragment. */
  lemma {:induction false} WireLines(ps: seq<Payload>, serialize: Payload -> string)
    requires forall p :: p in ps ==> '\n' !in serialize(p)
    ensures CompleteLines(Wire(ps, serialize)) == RecordLines(ps, serialize)
    ensures Fragment(Wire(ps, serialize)) == ""
    decreases |ps|
  {
    if |ps| == 0 {
      EmptyHasNoLines();
    } else {
      var front, p := ps[..|ps| - 1], ps[|ps| - 1];
      assert forall q :: q in front ==> q in ps;
      WireLines(front, serialize);
      var w, f := Wire(front, serialize), SseFrame(EventName(p), serialize(p));
      assert Wire(ps, serialize) == w + f;
      LinesAppend(w, f);
      EventNameHasNoLineFeed(p);
      FrameLines(EventName(p), serialize(p));
      assert "" + f == f;
    }
  }

  /** Every event type is a valid record field. */
  lemma EventNameIsField(p: Payload)
    ensures RecordField(EventName(p))
  {
    EventNameHasNoLineFeed(p);
  }

  lemma DispatchFaithful(st: ClientState, p: Payload, serialize: Payload -> string, parse: string -> Option<EventData>)
    requires Faithful(p, serialize, parse)
    ensures Dispatch(st, EventName(p), serialize(p), parse) == Reduce(st, EventName(p), ToEventData(p))
  {
  }

  /** Dispatching the records for `ps` runs the reducer over `ps`. */
  lemma {:induction false} RecordsReduce(ls: LineState, ps: seq<Payload>, serialize: Payload -> string,
                                         parse: string -> Option<EventData>)
    requires ls.currentEvent == "" && ls.currentData == ""
    requires forall p :: p in ps ==> Faithful(p, serialize, parse)
    ensures ProcessLines(ls, RecordLines(ps, serialize), parse) == LineState("", "", ReducePayloads(ls.state, ps))
    decreases |ps|
  {
    if |ps| > 0 {
      var front, p := ps[..|ps| - 1], ps[|ps| - 1];
      assert forall q :: q in front ==> q in ps;
      RecordsReduce(ls, front, serialize, parse);
      var mid := ProcessLines(ls, RecordLines(front, serialize), parse);
      var record := ["event: " + EventName(p), "data: " + serialize(p), ""];
      assert RecordLines(ps, serialize) == RecordLines(front, serialize) + record;
      ProcessLinesAppend(ls, RecordLines(front, serialize), record, parse);
      assert p in ps;
      EventNameIsField(p);
      RecordDispatches(mid, EventName(p), serialize(p), parse);
      DispatchFaithful(mid.state, p, serialize, parse);
      assert ReducePayloads(ls.state, ps) == Reduce(ReducePayloads(ls.state, front), EventName(p), ToEventData(p));
    }
  }

  /**
   * With the fields carried, however the server's body is cut into reads,
   * the page ends with exactly the state the reducer reaches over the
   * payloads sent, and nothing left in the buffer.
   */
  lemma CarriedRebuildsPayloads(chunks: seq<string>, ps: seq<Payload>, serialize: Payload -> string,
                                parse: string -> Option<EventData>)
    requires Concat(chunks) == Wire(ps, serialize)
    requires forall p :: p in ps ==> Faithful(p, serialize, parse)
    ensures ReadCarried(chunks, parse) == Reader("", LineState("", "", ReducePayloads(Empty, ps)))
  {
    CarriedFollowsBody(chunks, parse);
    WireLines(ps, serialize);
    RecordsReduce(Opened.lines, ps, serialize, parse);
  }

  /** One read holding the whole records for `g`. */
  lemma WholeRecordsRead(st: ClientState, g: seq<Payload>, serialize: Payload -> string, parse: string -> Option<EventData>)
    requires forall p :: p in g ==> Faithful(p, serialize, parse)
    ensures ChunkStep(Reader("", LineState("", "", st)), Wire(g, serialize), parse)
            == Reader("", LineState("", "", ReducePayloads(st, g)))
  {
    assert forall p :: p in g ==> '\n' !in serialize(p);
    WireLines(g, serialize);
    assert "" + Wire(g, serialize) == Wire(g, serialize);
    RecordsReduce(LineState("", "", st), g, serialize, parse);
  }

  /**
   * The loop as written does reach that state when every read holds whole
   * records, which is what the server's flush after each record produces
   * when nothing between them splits or merges writes.
   */
  lemma {:induction false} WholeRecordReads(chunks: seq<string>, groups: seq<seq<Payload>>,
                                            serialize: Payload -> string, parse: string -> Option<EventData>)
    requires |chunks| == |groups|
    requires forall i :: 0 <= i < |groups| ==> chunks[i] == Wire(groups[i], serialize)
    requires forall i, p :: 0 <= i < |groups| && p in groups[i] ==> Faithful(p, serialize, parse)
    ensures ReadAsWritten(chunks, parse) == Reader("", LineState("", "", ReducePayloads(Empty, Flatten(groups))))
    decreases |chunks|
  {
    if |chunks| > 0 {
      var n := |chunks| - 1;
      var g, front, fgroups := groups[n], chunks[..n], groups[..n];
      assert forall i :: 0 <= i < |fgroups| ==> front[i] == chunks[i] && fgroups[i] == groups[i];
      WholeRecordReads(front, fgroups, serialize, parse);
      var s := ReducePayloads(Empty, Flatten(fgroups));
      var r := ReadAsWritten(front, parse);
      assert r == Reader("", LineState("", "", s));
      assert ReadAsWritten(chunks, parse) == ChunkStep(r.(lines := Reset(r.lines)), chunks[n], parse);
      assert chunks[n] == Wire(g, serialize);
      WholeRecordsRead(s, g, serialize, parse);
      assert Flatten(groups) == Flatten(fgroups) + g;
      ReducePayloadsAppend(Empty, Flatten(fgroups), g);
    }
  }

  function Flatten<T>(groups: seq<seq<T>>): seq<T> {
    if |groups| == 0 then [] else Flatten(groups[..|groups| - 1]) + groups[|groups| - 1]
  }

  // ----- The reducer against the server --------------------------------------

  /**
   * The server attaches a result to the last call, the page to the first
   * unresolved call with the name the server reports (which is the last
   * call's name): when the first and last calls share a tool name and none is
   * resolved yet, they fill different calls.
   */
  lemma ResultTargetsDiffer(calls: seq<ToolCallInfo>, result: Option<string>)
    requires |calls| >= 2
    requires forall i :: 0 <= i < |calls| ==> calls[i].result.None?
    requires calls[0].toolName == calls[|calls| - 1].toolName
    ensures var page := ToClientCalls(calls);
            FillFirstUnresolved(page, Some(calls[|calls| - 1].toolName), result)
            == page[0 := page[0].(result := result)]
    ensures var last := |calls| - 1;
            SetLastResult(calls, result) == calls[last := calls[last].(result := result)]
  {
    var page := ToClientCalls(calls);
    FillFirstAt(page, Some(calls[|calls| - 1].toolName), result, 0);
    SetLastResultChangesLast(calls, result);
  }

  /** `tool_call`, `tool_result` and `text_token` change nothing while no step is open. */
  lemma ClosedStepIgnoresTools(st: ClientState, d: EventData)
    requires st.current.None?
    ensures Reduce(st, "tool_call", d) == st
    ensures Reduce(st, "tool_result", d) == st
    ensures Reduce(st, "text_token", d) == st
  {
  }

  /** `tool_call` appends a call with a `null` result to the open step, and changes nothing else. */
  lemma ToolCallAppends(st: ClientState, d: EventData)
    requires st.current.Some?
    ensures var r := Reduce(st, "tool_call", d);
            r.agentSteps == st.agentSteps && r.finalMessage == st.finalMessage && r.current.Some?
            && r.current.value.toolCalls == st.current.value.toolCalls + [ClientToolCall(d.toolName, d.arguments, None)]
            && r.current.value.agentName == st.current.value.agentName
            && r.current.value.textOutput == st.current.value.textOutput
  {
  }

  /**
   * `tool_result` fills in the first call with that name and no result, and
   * only it; with no such call the open step stays as it is.
   */
  lemma ToolResultFillsFirst(st: ClientState, d: EventData, j: nat)
    requires st.current.Some?
    requires j < |st.current.value.toolCalls| && Unresolved(st.current.value.toolCalls[j], d.toolName)
    requires forall i :: 0 <= i < j ==> !Unresolved(st.current.value.toolCalls[i], d.toolName)
    ensures var calls := st.current.value.toolCalls;
            Reduce(st, "tool_result", d) == st.(current := Some(st.current.value.(toolCalls := calls[j := calls[j].(result := d.result)])))
  {
    FillFirstAt(st.current.value.toolCalls, d.toolName, d.result, j);
  }

  lemma ToolResultWithoutMatch(st: ClientState, d: EventData)
    requires st.current.Some?
    requires forall i :: 0 <= i < |st.current.value.toolCalls| ==> !Unresolved(st.current.value.toolCalls[i], d.toolName)
    ensures Reduce(st, "tool_result", d) == st
  {
    FillNoneUnresolved(st.current.value.toolCalls, d.toolName, d.result);
  }

  /**
   * `agent_complete` records one copy of the open step, with the server's
   * calls when it sends them, and closes it; with no open step it does
   * nothing, so a second `agent_complete` in a row records nothing more.
   */
  lemma AgentCompleteRecordsOnce(st: ClientState, d: EventData, d2: EventData)
    ensures var st1 := Reduce(st, "agent_complete", d);
            st1.current.None? && st1.finalMessage == st.finalMessage
            && |st1.agentSteps| == |st.agentSteps| + (if st.current.Some? then 1 else 0)
            && st1.agentSteps[..|st.agentSteps|] == st.agentSteps
    ensures st.current.Some? && d.toolCalls.Some? ==>
              Reduce(st, "agent_complete", d).agentSteps[|st.agentSteps|].toolCalls == d.toolCalls.value
    ensures Reduce(Reduce(st, "agent_complete", d), "agent_complete", d2) == Reduce(st, "agent_complete", d)
  {
    var st1 := Reduce(st, "agent_complete", d);
    if st.current.Some? {
      assert st1.agentSteps[..|st.agentSteps|] == st.agentSteps;
    }
  }

  function CountCompletions(ps: seq<Payload>): nat {
    if |ps| == 0 then 0
    else CountCompletions(ps[..|ps| - 1]) + (if ps[|ps| - 1].AgentCompletePayload? then 1 else 0)
  }

  /**
   * Recorded steps are never rewritten, and each received `agent_complete`
   * records at most one.
   */
  lemma {:induction false} StepsOnlyGrow(st: ClientState, ps: seq<Payload>)
    ensures var r := ReducePayloads(st, ps);
            |st.agentSteps| <= |r.agentSteps| <= |st.agentSteps| + CountCompletions(ps)
            && r.agentSteps[..|st.agentSteps|] == st.agentSteps
    decreases |ps|
  {
    if |ps| > 0 {
      var front := ps[..|ps| - 1];
      StepsOnlyGrow(st, front);
      var mid := ReducePayloads(st, front);
      var p := ps[|ps| - 1];
      var r := Reduce(mid, EventName(p), ToEventData(p));
      assert r.agentSteps[..|mid.agentSteps|] == mid.agentSteps;
      assert r.agentSteps[..|st.agentSteps|] == mid.agentSteps[..|st.agentSteps|];
    }
  }

  function Texts(ps: seq<Payload>): string {
    if |ps| == 0 then ""
    else
      var p := ps[|ps| - 1];
      Texts(ps[..|ps| - 1]) + (if p.TextTokenPayload? then p.text else "")
  }

  predicate QuietFor(p: Payload) {
    p.TextTokenPayload? || p.ToolCallPayload? || p.ToolResultPayload? || p.ErrorPayload? || p.DonePayload?
  }

  /** One payload that neither starts nor completes a step, received while one is open. */
  lemma QuietStep(st: ClientState, p: Payload)
    requires st.current.Some? && QuietFor(p)
    ensures var r := Reduce(st, EventName(p), ToEventData(p));
            r.current.Some? && r.agentSteps == st.agentSteps
            && r.current.value.textOutput == st.current.value.textOutput + (if p.TextTokenPayload? then p.text else "")
  {
  }

  /**
   * While a step is open and no payload starts or completes a step, the
   * step's text is the concatenation of the tokens received.
   */
  lemma {:induction false} TokensAccumulate(st: ClientState, ps: seq<Payload>)
    requires st.current.Some?
    requires forall p :: p in ps ==> QuietFor(p)
    ensures ReducePayloads(st, ps).current.Some?
    ensures ReducePayloads(st, ps).current.value.textOutput == st.current.value.textOutput + Texts(ps)
    ensures ReducePayloads(st, ps).agentSteps == st.agentSteps
    decreases |ps|
  {
    if |ps| > 0 {
      var front := ps[..|ps| - 1];
      assert forall q :: q in front ==> q in ps;
      TokensAccumulate(st, front);
      var p := ps[|ps| - 1];
      assert p in ps;
      var mid := ReducePayloads(st, front);
      QuietStep(mid, p);
      assert ReducePayloads(st, ps) == Reduce(mid, EventName(p), ToEventData(p));
      var piece := if p.TextTokenPayload? then p.text else "";
      assert Texts(ps) == Texts(front) + piece;
      Associative(st.current.value.textOutput, Texts(front), piece);
    }
  }
}
