# Factory maintenance agents: a verified model of the orchestration core

This project is a Dafny model of the deterministic code that surrounds the AI-agent calls of the factory-maintenance sample. Everything an agent or a service would answer is a parameter. The model covers these pieces:

- **The .NET orchestrator** (`challenge-4/agent-workflow/dotnetworkflow/Program.cs`).
  - It folds the events of a workflow run into a `WorkflowResponse`. This is the batch endpoint (module `Batch`).
  - It streams the run as Server-Sent Events. An SSE record is an `event:` line, a `data:` line and a blank line (module `Stream`).
  - It extracts an agent's answer text and decides whether fault diagnosis is needed (module `WorkflowHelpers`).
  - The message and event shapes it reads are in module `WorkflowModel`.
- **The React page** (`challenge-4/agent-workflow/frontend/src/App.tsx`). It reads the SSE stream, splits it into lines, collects records and reduces them into the step list it displays (module `Client`).
- **The Python workflow helpers** (`challenge-4/agent-workflow/app/agents.py`). These are the required-environment check, the text extraction for messages, the first prompt and the diagnosis routing condition (module `Agents`).
- **The parts-ordering service** (`challenge-3/PartsOrderingAgent/Services/PartsOrderingAgentService.cs`). It selects a supplier, builds the purchase order and writes the ordering request text (module `PartsOrdering`).
- **The predictive-maintenance service** (`challenge-3/PredMaintenanceAgent/Services/PredictiveMaintenanceAgentService.cs`).
  - Module `Predictive` extracts the JSON answer and stamps identifiers on the parsed schedule.
  - Module `PredictiveContext` writes the analysis request text.
- **The shared records** (`challenge-3/SharedModels/MaintenanceModels.cs`), in module `MaintenanceModels`.
- **Supporting modules.**
  - `Text` holds the string operations of .NET and JavaScript that the code relies on: `IndexOf`, `LastIndexOf`, `Substring`, `Trim`, `Split`, `Join` and `Contains`, including the ignore-case form.
  - `Wrappers` holds `Option`, `Result` and the exceptions the code throws.

The code changes state in loops in several places: the event folds, the SSE read loop, the `StringBuilder` request builders and the stamping of the parsed schedule. There the model is a `method` with a `while` loop, or a method that updates an object. Each such method is proved equal to a specification function, and the properties are proved about that function.

## Model

| member | source | states |
|---|---|---|
| Batch.AnalyzeMachine | challenge-4/agent-workflow/dotnetworkflow/Program.cs:202-321 | The event loop, with its trailing flush, computes exactly the fold `AnalyzeEvents` of the run's events. |
| Batch.RunFromAppend | challenge-4/agent-workflow/dotnetworkflow/Program.cs:202-313 | Folding two event sequences one after the other equals folding their concatenation. |
| Batch.StepsFollowInvocations | challenge-4/agent-workflow/dotnetworkflow/Program.cs:205-215 | The recorded steps are named after the executor invocations, one per invocation and in order (`UnknownAgent` when the id is null). No step is lost or duplicated. |
| Batch.ClosedIgnoresUpdates | challenge-4/agent-workflow/dotnetworkflow/Program.cs:216-288 | With no step open, completions, updates and outputs neither open a step nor record one. |
| Batch.InvokeOpensFreshStep | challenge-4/agent-workflow/dotnetworkflow/Program.cs:207-214 | An invocation records the open step, if there is one, and opens an empty step for the new agent. |
| Batch.StepRecordsSegment | challenge-4/agent-workflow/dotnetworkflow/Program.cs:216-224 | While one step is open, completions and updates keep the recorded steps and the step's name. The step's final message is the data of the last completion. |
| Batch.StepCallsSegment | challenge-4/agent-workflow/dotnetworkflow/Program.cs:227-267 | The open step's tool calls grow by exactly the calls (function or MCP) named in the updates, in order. |
| Batch.StepTextSegment | challenge-4/agent-workflow/dotnetworkflow/Program.cs:281-287 | The open step's text grows by exactly the concatenated text tokens of the updates. |
| Batch.FinalMessageOverOutputs | challenge-4/agent-workflow/dotnetworkflow/Program.cs:290-312 | The response's final message is the one chosen by scanning all output messages in order, and nothing else decides it. |
| Batch.MessagesFinalAppend | challenge-4/agent-workflow/dotnetworkflow/Program.cs:299-311 | Scanning two message lists one after the other equals scanning their concatenation. |
| WorkflowModel.FirstOfRank | challenge-4/agent-workflow/dotnetworkflow/Program.cs:227-281 | `OfType<T>().FirstOrDefault()`: the index of the first content of a kind, or none when no content has that kind. |
| WorkflowModel.SelectedPriority | challenge-4/agent-workflow/dotnetworkflow/Program.cs:227-287 | An update acts on exactly one content: the first content of the highest-priority kind present (function call, function result, MCP call, MCP result, text). It acts on none when every content is of another kind. |
| WorkflowModel.SetLastResultChangesLast | challenge-4/agent-workflow/dotnetworkflow/Program.cs:242-251 | A result fills in only the last tool call. The other calls and the number of calls are unchanged. |
| WorkflowModel.CallsAfterNames | challenge-4/agent-workflow/dotnetworkflow/Program.cs:227-278 | After an update, the open step's call names are the old names plus the name of the selected call content, if any. |
| WorkflowModel.ScanFinalMessage | challenge-4/agent-workflow/dotnetworkflow/Program.cs:299-311 | The nested loop over output messages and their contents computes the specification function `MessagesFinal`. |
| WorkflowModel.FinalMessageIsLastCandidate | challenge-4/agent-workflow/dotnetworkflow/Program.cs:299-311 | The final message is the text of the last assistant text content that is not null or white space, over all messages. |
| WorkflowModel.FinalMessageWithoutCandidate | challenge-4/agent-workflow/dotnetworkflow/Program.cs:299-311 | Without such a content, the final message keeps its previous value. |
| WorkflowModel.NonAssistantKeeps | challenge-4/agent-workflow/dotnetworkflow/Program.cs:301 | Messages whose role is not assistant never set the final message. |
| Stream.SendSseEvent | challenge-4/agent-workflow/dotnetworkflow/Program.cs:597-603 | Sending an event appends exactly one SSE record to the response: `event: …`, `data: <json>`, then a blank line. |
| Stream.SseFrameLines | challenge-4/agent-workflow/dotnetworkflow/Program.cs:600 | For a name and JSON without line feeds, the record splits into the event line, the data line and the blank line that ends it. |
| Stream.WireSnoc | challenge-4/agent-workflow/dotnetworkflow/Program.cs:597-603 | The bytes written for a payload sequence are the records of its payloads, in order. |
| Stream.AnalyzeMachineStream | challenge-4/agent-workflow/dotnetworkflow/Program.cs:420-591 | The whole response body is the records of `StreamPayloads`: the transcoded events, then `done`, `error` or nothing, depending on how the run ended. |
| Stream.OnEvent | challenge-4/agent-workflow/dotnetworkflow/Program.cs:423-577 | One loop iteration updates the agent name and step as `StreamStep` does, and writes exactly the records `StreamStep` emits. |
| Stream.OnInvoked | challenge-4/agent-workflow/dotnetworkflow/Program.cs:426-443 | An invocation flushes a step that has content, then sends `agent_started` and opens a fresh step. |
| Stream.OnUpdate | challenge-4/agent-workflow/dotnetworkflow/Program.cs:456-544 | An update sends the record of its selected content and updates the step as `UpdateEmission` does. |
| Stream.OnOutput | challenge-4/agent-workflow/dotnetworkflow/Program.cs:545-576 | An output flushes a step that has content and sends `workflow_complete` with the scanned final message. |
| Stream.SendFlush | challenge-4/agent-workflow/dotnetworkflow/Program.cs:429-434 | A flush sends `agent_complete` for the step, marked done, only when the step has content. |
| Stream.RunAppend | challenge-4/agent-workflow/dotnetworkflow/Program.cs:423-577 | Transcoding two event sequences one after the other gives the concatenated records and the same final state. |
| Stream.LoopSendsNoTerminal | challenge-4/agent-workflow/dotnetworkflow/Program.cs:423-577 | The event loop itself never sends `done` or `error`. |
| Stream.StreamEndings | challenge-4/agent-workflow/dotnetworkflow/Program.cs:580-591 | A finished run ends with `done` and a failed run ends with `error` carrying the message. A cancelled run sends neither. A terminal record appears only in the last place. |
| Stream.StartedFollowInvocations | challenge-4/agent-workflow/dotnetworkflow/Program.cs:436-442 | The `agent_started` records name the invoked executors, one per invocation and in order. |
| Stream.NameIsLastInvoked | challenge-4/agent-workflow/dotnetworkflow/Program.cs:436 | The current agent name is the name of the last invocation, or absent before any invocation. |
| Stream.CompletionResets | challenge-4/agent-workflow/dotnetworkflow/Program.cs:444-455 | A completion sends one `agent_complete` for the step, marked done with the completion's data, and resets the step. |
| Stream.FeedTexts | challenge-4/agent-workflow/dotnetworkflow/Program.cs:530-543 | Within a step, the step's text is its old text plus exactly the `text_token` texts sent. |
| Stream.FeedCalls | challenge-4/agent-workflow/dotnetworkflow/Program.cs:458-528 | Within a step, the step's call names are its old names plus exactly the `tool_call` names sent. |
| Stream.CompletionSummarisesStream | challenge-4/agent-workflow/dotnetworkflow/Program.cs:426-455 | The `agent_complete` ending a step repeats what the client was streamed: the agent's name, the concatenated tokens, the called tools in order and the completion's data. |
| Stream.NestedCompletions | challenge-4/agent-workflow/dotnetworkflow/Program.cs:426-455 | When invocations and completions alternate, the completion records are the invocations so far, minus the one still open. |
| Stream.OneCompletionPerAgent | challenge-4/agent-workflow/dotnetworkflow/Program.cs:426-455 | Under that nesting, a finished stream sends exactly one `agent_complete` per invoked agent, in order. |
| Stream.OutputBeforeCompletionRepeatsAgent | challenge-4/agent-workflow/dotnetworkflow/Program.cs:545-553 | An output arriving before the completion of a step with content makes that agent complete twice. |
| Stream.TextTokenGivesContent | challenge-4/agent-workflow/dotnetworkflow/Program.cs:530-543 | One non-empty token after an invocation gives the step content, so the duplicate above is reachable. |
| WorkflowHelpers.ExtractText | challenge-4/agent-workflow/dotnetworkflow/Program.cs:607-611 | A run without messages yields the empty text. |
| WorkflowHelpers.ExtractTextLastWins | challenge-4/agent-workflow/dotnetworkflow/Program.cs:609-610 | Only the last message counts: earlier messages never change the extracted text. |
| WorkflowHelpers.MessageTextAppend | challenge-4/agent-workflow/dotnetworkflow/Program.cs:610 | A message's text is the concatenation of its contents' texts. |
| WorkflowHelpers.MessageTextOnlyText | challenge-4/agent-workflow/dotnetworkflow/Program.cs:610 | Contents that are not text contribute nothing. |
| WorkflowHelpers.ExtractTextOfPieces | challenge-4/agent-workflow/dotnetworkflow/Program.cs:607-611 | A final message of two text pieces around another content yields the two pieces joined. |
| WorkflowHelpers.MentionCallsForDiagnosis | challenge-4/agent-workflow/dotnetworkflow/Program.cs:613-617 | A keyword (critical, warning, high, alert) in any mix of cases, anywhere in the text, calls for a diagnosis. |
| Client.ProcessChunk | challenge-4/agent-workflow/frontend/src/App.tsx:208-346 | One read appends to the buffer, handles every complete line and keeps the last fragment, exactly as `ChunkStep` specifies. |
| Client.ReadStream | challenge-4/agent-workflow/frontend/src/App.tsx:205-347 | The read loop as written computes `ReadAsWritten`, which resets the pending event and data for every read. |
| Client.ReadStreamCarried | challenge-4/agent-workflow/frontend/src/App.tsx:205-347 | The corrected read loop, with the pending event and data kept across reads, computes `ReadCarried`. |
| Client.LinesAppend | challenge-4/agent-workflow/frontend/src/App.tsx:212-225 | The complete lines of a concatenation are those of the first part, then those of its fragment joined with the rest. The last fragment is always carried over. |
| Client.CarriedFollowsBody | challenge-4/agent-workflow/frontend/src/App.tsx:205-225 | With the state carried, reading chunks equals handling the complete lines of the concatenated body, keeping its last fragment. |
| Client.ChunkingInvisible | challenge-4/agent-workflow/frontend/src/App.tsx:205-225 | With the state carried, how the body is cut into reads makes no difference. |
| Client.EventLine | challenge-4/agent-workflow/frontend/src/App.tsx:227-228 | An `event:` line sets only the pending event name. |
| Client.DataLine | challenge-4/agent-workflow/frontend/src/App.tsx:229-230 | A `data:` line sets only the pending data, overwriting earlier data. |
| Client.LineEffects | challenge-4/agent-workflow/frontend/src/App.tsx:231-345 | The step state changes only at a blank line with both fields set and JSON that parses. A blank line with both fields set clears them. Malformed JSON changes nothing else. |
| Client.RecordDispatches | challenge-4/agent-workflow/frontend/src/App.tsx:227-235 | An event line, a data line and a blank line dispatch that record once and leave no pending field. |
| Client.DispatchFaithful | challenge-4/agent-workflow/frontend/src/App.tsx:231-235 | A record whose JSON parses back to its payload reduces as the payload itself. |
| Client.RecordsReduce | challenge-4/agent-workflow/frontend/src/App.tsx:218-345 | The lines of a sequence of such records reduce the payloads in order, ending with nothing pending. |
| Client.CarriedRebuildsPayloads | challenge-4/agent-workflow/frontend/src/App.tsx:205-345 | With the state carried, any cutting of the server's body into reads rebuilds exactly the reduction of the payloads the server sent. |
| Client.WholeRecordReads | challenge-4/agent-workflow/frontend/src/App.tsx:205-216 | As written, the reduction is right when every read holds whole records. |
| Client.SplitRecordLost | challenge-4/agent-workflow/frontend/src/App.tsx:215-216 | As written, a record cut after its event line is lost. |
| Client.SplitRecordKept | challenge-4/agent-workflow/frontend/src/App.tsx:215-216 | With the state carried, the same record is dispatched. |
| Client.SplitStartNotOpened | challenge-4/agent-workflow/frontend/src/App.tsx:237-249 | As written, an `agent_started` cut that way never opens a step. Carried, it does. |
| Client.ClosedStepIgnoresTools | challenge-4/agent-workflow/frontend/src/App.tsx:267-312 | `tool_call`, `tool_result` and `text_token` change nothing while no step is open. |
| Client.ToolCallAppends | challenge-4/agent-workflow/frontend/src/App.tsx:267-282 | `tool_call` appends a call with a null result and changes nothing else. |
| Client.ToolResultFillsFirst | challenge-4/agent-workflow/frontend/src/App.tsx:284-299 | `tool_result` fills in the first call with that name and no result, and only that call. |
| Client.ToolResultWithoutMatch | challenge-4/agent-workflow/frontend/src/App.tsx:284-299 | Without such a call, `tool_result` leaves the state unchanged. |
| Client.FillFirstAt | challenge-4/agent-workflow/frontend/src/App.tsx:288-293 | `find` followed by the assignment changes exactly the first unresolved call of that name. |
| Client.FillNoneUnresolved | challenge-4/agent-workflow/frontend/src/App.tsx:288-293 | Without an unresolved call of that name, the calls are unchanged. |
| Client.ResultTargetsDiffer | challenge-4/agent-workflow/frontend/src/App.tsx:284-299 | For two unresolved calls of one tool, the page fills the first while the server fills the last. |
| Client.AgentCompleteRecordsOnce | challenge-4/agent-workflow/frontend/src/App.tsx:251-265 | `agent_complete` records one copy of the open step, with the server's calls when they are given, and closes the step. A repeat records nothing. |
| Client.StepsOnlyGrow | challenge-4/agent-workflow/frontend/src/App.tsx:237-337 | Recorded steps are never rewritten, and each `agent_complete` adds at most one. |
| Client.TokensAccumulate | challenge-4/agent-workflow/frontend/src/App.tsx:301-312 | Within an open step, the text is the old text plus the tokens in order, and no step is recorded. |
| Agents.RequireEnv | challenge-4/agent-workflow/app/agents.py:15-22 | The value is returned iff the variable is set and non-empty. Otherwise a RuntimeError with the fixed message is raised. |
| Agents.MissingEnvNamesVariable | challenge-4/agent-workflow/app/agents.py:18-21 | The error for a missing variable names that variable. |
| Agents.SetVariableRequired | challenge-4/agent-workflow/app/agents.py:15-22 | A variable set to a non-empty value is returned, whatever else the environment holds. |
| Agents.ExtractIsFirstApplicable | challenge-4/agent-workflow/app/agents.py:70-94 | The text comes from the first of the five sources, in priority order, that applies. |
| Agents.DictParamsRule | challenge-4/agent-workflow/app/agents.py:83-86 | For dict parameters: the truthy `text` entry, otherwise `str(params)`; never None. |
| Agents.ExtractNoneOnlyFromAttributes | challenge-4/agent-workflow/app/agents.py:74-88 | The result is None only when the run response's text or the parameter object's `text` is None. |
| Agents.DiagnosisCondition | challenge-4/agent-workflow/app/agents.py:109-120 | Raises TypeError iff the extracted text is None. Otherwise the result says whether a keyword occurs. |
| Agents.ConditionsAgree | challenge-4/agent-workflow/app/agents.py:117-118 | The Python lower-case test and the C# ordinal ignore-case test route every text the same way. |
| Agents.MentionRoutesToDiagnosis | challenge-4/agent-workflow/app/agents.py:113-118 | A message whose text contains a keyword in any case routes to fault diagnosis. |
| Agents.Prompt | challenge-4/agent-workflow/app/agents.py:102-105 | The prompt starts with the fixed instruction and ends with the telemetry, shown as Python shows it. |
| Agents.PromptRoundTrip | challenge-4/agent-workflow/app/agents.py:105 | A machine id without ':' and the telemetry can be read back from the prompt. |
| MaintenanceModels.AddDays | challenge-3/PartsOrderingAgent/Services/PartsOrderingAgentService.cs:69 | `DateTime.AddDays` moves the time by whole days. It fails with ArgumentOutOfRange iff the result leaves the representable range. |
| MaintenanceModels.GuidStringShape | challenge-3/PartsOrderingAgent/Services/PartsOrderingAgentService.cs:63 | A Guid's string has 36 characters, starts with 8 hex digits and has dashes at 8, 13, 18 and 23. |
| MaintenanceModels.MaintenanceSchedule.constructor | challenge-3/SharedModels/MaintenanceModels.cs:59-90 | A schedule holds the given identifiers, date, window, action, reasoning and creation time. |
| PartsOrdering.FastestHighIndexSpec | challenge-3/PartsOrderingAgent/Services/PartsOrderingAgentService.cs:45-47 | The scan finds no supplier iff none has "High" reliability. Otherwise it finds the first one with the smallest lead time among them. |
| PartsOrdering.FastestHighUnique | challenge-3/PartsOrderingAgent/Services/PartsOrderingAgentService.cs:45-47 | That supplier is unique, because the ordering is stable. |
| PartsOrdering.SelectSupplier | challenge-3/PartsOrderingAgent/Services/PartsOrderingAgentService.cs:45-48 | Selection fails iff the list is empty. |
| PartsOrdering.SelectSupplierSpec | challenge-3/PartsOrderingAgent/Services/PartsOrderingAgentService.cs:45-48 | An empty list raises InvalidOperation. The result is the fastest High supplier when there is one, else the first supplier. |
| PartsOrdering.OrderItemsAppend | challenge-3/PartsOrderingAgent/Services/PartsOrderingAgentService.cs:50-59 | Items are built part by part, so the input order is kept. |
| PartsOrdering.OrderItemsMembers | challenge-3/PartsOrderingAgent/Services/PartsOrderingAgentService.cs:50-59 | The items are exactly the unavailable parts, with number, name and quantity copied and unit cost 100.00. |
| PartsOrdering.OrderItemsCount | challenge-3/PartsOrderingAgent/Services/PartsOrderingAgentService.cs:50-59 | There is one item per unavailable part. There are none iff every part is available. |
| PartsOrdering.OrderTotalIsPriced | challenge-3/PartsOrderingAgent/Services/PartsOrderingAgentService.cs:57-68 | The order total is 100.00 times the total quantity of the unavailable parts. |
| PartsOrdering.OrderId | challenge-3/PartsOrderingAgent/Services/PartsOrderingAgentService.cs:63 | The order id is "PO-" followed by the first 8 hex digits of the Guid. |
| PartsOrdering.GeneratePartsOrder | challenge-3/PartsOrderingAgent/Services/PartsOrderingAgentService.cs:45-74 | A built order is "Pending" and carries the work order's id. |
| PartsOrdering.PartsOrderContents | challenge-3/PartsOrderingAgent/Services/PartsOrderingAgentService.cs:61-71 | The order carries the selected supplier, the lead-time delivery date, the creation time, the item count and the priced total. It fails exactly when selection or `AddDays` throws. |
| PartsOrdering.BuildOrderingContext | challenge-3/PartsOrderingAgent/Services/PartsOrderingAgentService.cs:77-173 | The `StringBuilder` writes exactly the lines `OrderingContextLines` specifies. |
| PartsOrdering.AppendInventory | challenge-3/PartsOrderingAgent/Services/PartsOrderingAgentService.cs:102-120 | The inventory loop appends each item's lines, in order, under its heading. |
| PartsOrdering.AppendSuppliers | challenge-3/PartsOrderingAgent/Services/PartsOrderingAgentService.cs:122-138 | The supplier loop appends each supplier's lines, in order, under its heading. |
| PartsOrdering.AppendRequiredParts | challenge-3/PartsOrderingAgent/Services/PartsOrderingAgentService.cs:93-100 | The parts loop appends each required part's lines, in order, under its heading. |
| PartsOrdering.NeedsOrderingFlag | challenge-3/PartsOrderingAgent/Services/PartsOrderingAgentService.cs:107-112 | The status line says "NEEDS ORDERING" iff stock is at or below the reorder point. |
| PartsOrdering.InventoryLineAt | challenge-3/PartsOrderingAgent/Services/PartsOrderingAgentService.cs:102-120 | The inventory section appears unchanged at its offset in the request. |
| PartsOrdering.ContextStatusLine | challenge-3/PartsOrderingAgent/Services/PartsOrderingAgentService.cs:112 | Item k's status line sits at a fixed position in the request. |
| PartsOrdering.ContextFlagsItem | challenge-3/PartsOrderingAgent/Services/PartsOrderingAgentService.cs:107-112 | The request flags item k iff its stock is at or below its reorder point. |
| PartsOrdering.PartsAvailableListing | challenge-3/PartsOrderingAgent/Services/PartsOrderingAgentService.cs:131 | The parts line shows at most the first five parts, each in full. It ends in "..." when there are more than five, and shows the plain join otherwise. |
| PartsOrdering.SupplierSectionLine | challenge-3/PartsOrderingAgent/Services/PartsOrderingAgentService.cs:122-138 | The supplier section carries every supplier's parts line, in order. |
| Predictive.ExtractJsonFromResponse | challenge-3/PredMaintenanceAgent/Services/PredictiveMaintenanceAgentService.cs:211-231 | Extraction fails only with ArgumentOutOfRange (a negative length) or "Could not extract JSON". |
| Predictive.FencedBody | challenge-3/PredMaintenanceAgent/Services/PredictiveMaintenanceAgentService.cs:218-219 | The fenced body fails iff no closing fence follows its start. |
| Predictive.FencedReplyExtracts | challenge-3/PredMaintenanceAgent/Services/PredictiveMaintenanceAgentService.cs:214-220 | A reply with a fenced block yields the block's trimmed body, whatever precedes or follows it, braces included. |
| Predictive.PaddedFencedReplyExtracts | challenge-3/PredMaintenanceAgent/Services/PredictiveMaintenanceAgentService.cs:214-220 | White space around the fenced JSON is trimmed away. |
| Predictive.BareReplyExtracts | challenge-3/PredMaintenanceAgent/Services/PredictiveMaintenanceAgentService.cs:223-228 | Without a fence, the result runs from the first '{' to the last '}' inclusive. |
| Predictive.BareObjectOutcome | challenge-3/PredMaintenanceAgent/Services/PredictiveMaintenanceAgentService.cs:223-228 | Without a fence, with a '{', extraction succeeds iff the last '}' lies at most one place before the first '{'. |
| Predictive.ReversedBracesGiveEmpty | challenge-3/PredMaintenanceAgent/Services/PredictiveMaintenanceAgentService.cs:223-228 | "}{" yields the empty text, not an error. |
| Predictive.ExtractNoJson | challenge-3/PredMaintenanceAgent/Services/PredictiveMaintenanceAgentService.cs:223-230 | "Could not extract JSON" is thrown iff the reply has neither a fence nor a '{'. |
| Predictive.InlineFenceReturnsProse | challenge-3/PredMaintenanceAgent/Services/PredictiveMaintenanceAgentService.cs:217 | As written, a one-line fenced block yields the trimmed prose before the fence, not the block. |
| Predictive.FenceWithoutLineBreak | challenge-3/PredMaintenanceAgent/Services/PredictiveMaintenanceAgentService.cs:217 | As written, "```json{}```" yields "". |
| Predictive.ExtractJsonCorrected | challenge-3/PredMaintenanceAgent/Services/PredictiveMaintenanceAgentService.cs:214-220 | The corrected extraction fails only in the same two ways. |
| Predictive.CorrectedAgreesOnFencedLines | challenge-3/PredMaintenanceAgent/Services/PredictiveMaintenanceAgentService.cs:214-228 | When a line break follows the fence, the correction changes nothing. |
| Predictive.InlineFenceExtracts | challenge-3/PredMaintenanceAgent/Services/PredictiveMaintenanceAgentService.cs:214-220 | Corrected, a one-line fenced block yields its trimmed body. |
| Predictive.FenceWithoutLineBreakCorrected | challenge-3/PredMaintenanceAgent/Services/PredictiveMaintenanceAgentService.cs:214-220 | Corrected, "```json{}```" yields "{}". |
| Predictive.StampSchedule | challenge-3/PredMaintenanceAgent/Services/PredictiveMaintenanceAgentService.cs:70-81 | A null parse throws. Otherwise the schedule gets the fresh id, the work order's ids and the creation time, and keeps what the agent chose. |
| PredictiveContext.Relevant | challenge-3/PredMaintenanceAgent/Services/PredictiveMaintenanceAgentService.cs:107 | Filtering never adds records. |
| PredictiveContext.RelevantMembers | challenge-3/PredMaintenanceAgent/Services/PredictiveMaintenanceAgentService.cs:107 | The relevant records are exactly the history records with the work order's fault type. |
| PredictiveContext.RelevantAppend | challenge-3/PredMaintenanceAgent/Services/PredictiveMaintenanceAgentService.cs:107 | Filtering keeps the history order. |
| PredictiveContext.SortTicksSpec | challenge-3/PredMaintenanceAgent/Services/PredictiveMaintenanceAgentService.cs:117 | The sorted dates are ordered and a permutation of the dates. |
| PredictiveContext.SortedUnique | challenge-3/PredMaintenanceAgent/Services/PredictiveMaintenanceAgentService.cs:117 | Any sort gives the same sequence. |
| PredictiveContext.FailureIntervals | challenge-3/PredMaintenanceAgent/Services/PredictiveMaintenanceAgentService.cs:118-122 | The interval loop computes the gaps between consecutive dates. |
| PredictiveContext.GapsTelescope | challenge-3/PredMaintenanceAgent/Services/PredictiveMaintenanceAgentService.cs:118-124 | The gaps add up to the span from the first date to the last. |
| PredictiveContext.SortedGapsNonNegative | challenge-3/PredMaintenanceAgent/Services/PredictiveMaintenanceAgentService.cs:117-122 | The gaps of sorted dates are never negative. |
| PredictiveContext.LatestIsMaximum | challenge-3/PredMaintenanceAgent/Services/PredictiveMaintenanceAgentService.cs:126 | The latest occurrence is the maximum of the dates. |
| PredictiveContext.LatestIsLastSorted | challenge-3/PredMaintenanceAgent/Services/PredictiveMaintenanceAgentService.cs:117-126 | The latest occurrence is the last sorted date. |
| PredictiveContext.RelevantIntervalsSpan | challenge-3/PredMaintenanceAgent/Services/PredictiveMaintenanceAgentService.cs:115-130 | For at least two records there are one fewer intervals than records. The intervals are non-negative and sum to the span from the earliest occurrence to the latest. |
| PredictiveContext.ContextEvents | challenge-3/PredMaintenanceAgent/Services/PredictiveMaintenanceAgentService.cs:138-142 | The request lists exactly the first five history records, in order. |
| PredictiveContext.ContextWindows | challenge-3/PredMaintenanceAgent/Services/PredictiveMaintenanceAgentService.cs:151-167 | The request lists exactly the first ten maintenance windows, in order. |
| PredictiveContext.ContextIntervals | challenge-3/PredMaintenanceAgent/Services/PredictiveMaintenanceAgentService.cs:115-131 | The request shows a failure cycle iff at least two records share the fault type. The cycle is computed from the gaps of their sorted dates. |
| PredictiveContext.HistoryWarning | challenge-3/PredMaintenanceAgent/Services/PredictiveMaintenanceAgentService.cs:102-147 | The history section carries the "no historical data" notice iff there is no history. |
| PredictiveContext.WindowsWarning | challenge-3/PredMaintenanceAgent/Services/PredictiveMaintenanceAgentService.cs:151-166 | The window section carries the "no windows" notice iff no window is available. |
| PredictiveContext.SimilarHasNoWarning | challenge-3/PredMaintenanceAgent/Services/PredictiveMaintenanceAgentService.cs:108-135 | The similar-fault lines never contain the "no history" notice. |
| PredictiveContext.BuildPredictiveContext | challenge-3/PredMaintenanceAgent/Services/PredictiveMaintenanceAgentService.cs:84-209 | The `StringBuilder` writes exactly the lines `PredictiveContextLines` specifies. |
| PredictiveContext.ContextBuilder.AppendLine | challenge-3/PredMaintenanceAgent/Services/PredictiveMaintenanceAgentService.cs:91 | `AppendLine` adds one line at the end and changes nothing else. |
| PredictiveContext.AppendHistory | challenge-3/PredMaintenanceAgent/Services/PredictiveMaintenanceAgentService.cs:101-149 | The history section is written as specified, branch by branch. |
| PredictiveContext.AppendSimilarFault | challenge-3/PredMaintenanceAgent/Services/PredictiveMaintenanceAgentService.cs:107-135 | The similar-fault block is written as specified. |
| PredictiveContext.AppendFailureCycle | challenge-3/PredMaintenanceAgent/Services/PredictiveMaintenanceAgentService.cs:115-130 | The failure-cycle block is written as specified. |
| PredictiveContext.AppendRecentEvents | challenge-3/PredMaintenanceAgent/Services/PredictiveMaintenanceAgentService.cs:138-142 | The recent-events loop writes each record's line, in order. |
| PredictiveContext.AppendWindows | challenge-3/PredMaintenanceAgent/Services/PredictiveMaintenanceAgentService.cs:151-167 | The windows loop writes each of the first ten windows, in order, or the notice. |

## Left out

- **Floating point.** The averages, the MTBF, the percentages and the `:F0`/`:F2` formatting are kept as unformatted `ContextLine` data. Their inputs are proved, but the printed digits are not.
- **Intervals.** They are measured in ticks, not as `TotalDays`.
- **Risk score and failure probability.** These two `MaintenanceSchedule` fields are doubles that are only passed through, so they are not modelled.
- **Parameters for clocks and identifiers.** `DateTime.UtcNow` and `Guid.NewGuid()` are parameters (`now`, `deliveryClock`, `createdClock`, `g`).
  - A Guid is 32 nibbles.
  - Dates are tick counts.
  - `DateTime.ToString` formatting is not modelled.
- **Agent and service calls.** The agent and service calls are not modelled: `GetAgentAsync`, the placeholder agent answers, the Cosmos DB services, `InProcessExecution.RunAsync`, `get_a2a_agent` and `run_factory_workflow`. Their results are the inputs of the model: the event sequence, the reply text and the parsed schedule.
- **JSON.** `JsonSerializer.Serialize` is the parameter `serialize`. `JSON.parse` is the parameter `parse`, and a throw or a `null` value is `None`. The deserializer of the schedule is the `parsed` argument.
  - The page's `null`/`undefined` distinction is folded into `None`.
  - Only the fields the reducer reads are kept.
- **Strings.** The culture-sensitive `IndexOf(string)` is modelled as ordinal. `Environment.NewLine` is "\n". Case folding is ASCII-only, for both `OrdinalIgnoreCase` and Python's `lower()`.
- **React and the browser.** The React state setters (`setRunState`, `setApiError`, `setActiveAgentId`), `fetch` and `TextDecoder` are not modelled. The body arrives as already-decoded string chunks.
- **Python values.** Values other than `str` and `None` are represented by their `str()`. An object `params` or `response` that is falsy although it is not `None` is not modelled.
- **Logging and HTTP.** Logging, `FlushAsync` and the HTTP plumbing are left out.
- **Predictive.BareObjectOutcome.** When the last '}' precedes the first '{' by one place ("}{"), the code returns "" where an exception might be expected. The model follows the code, and `ReversedBracesGiveEmpty` records it.
- **Stream.OneCompletionPerAgent.** It is proved only for runs whose invocations and completions nest. `OutputBeforeCompletionRepeatsAgent` shows the duplicate that an output between them produces.

## Findings

| source | as written | input that shows it | evidently intended | confidence | as-written member | corrected member |
|---|---|---|---|---|---|---|
| challenge-4/agent-workflow/frontend/src/App.tsx:215-216 | `currentEvent` and `currentData` are re-initialised for every read, so a record split across two reads loses its event line | two reads, "event: agent_started\n" and "data: {...}\n\n" (`CutAfterEvent`) | the pending fields survive across reads, like the buffer | not executed | Client.SplitRecordLost | Client.SplitRecordKept |
| challenge-3/PredMaintenanceAgent/Services/PredictiveMaintenanceAgentService.cs:217 | with no line break after the fence, `IndexOf('\n') + 1` is 0, so the closing search finds the opening fence itself | "```json{}```" yields "" | read from just after the fence: "{}" | not executed | Predictive.FenceWithoutLineBreak | Predictive.FenceWithoutLineBreakCorrected |
