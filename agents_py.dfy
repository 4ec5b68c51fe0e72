/**
 * The helpers of the Python workflow (agent-workflow/app/agents.py): reading a
 * required environment variable, the text of a message flowing between
 * executors, the routing condition for fault diagnosis, and the first prompt.
 *
 * Python values that reach these helpers are strings or `None`; a value of any
 * other type is represented by the string `str()` gives for it.
 */
module Agents {
  import opened Wrappers
  import opened Text
  import WorkflowHelpers

  datatype PyValue = PyNone | PyStr(s: string) {
    /** Python truth value: `None` and the empty string are false. */
    predicate Truthy() {
      PyStr? && s != ""
    }

    /** `str(value)`, as an f-string shows it. */
    function Show(): string {
      if PyNone? then "None" else s
    }
  }

  // ---------------------------------------------------------------- _require_env

  const MissingEnvHint: string :=
    "This workflow expects Anomaly/Fault agents to be hosted in Foundry Agent Service and referenced by ID."

  function MissingEnvMessage(name: string): string {
    "Missing required environment variable: " + name + ". " + MissingEnvHint
  }

  /** `_require_env`: the variable's value, or a `RuntimeError` naming it when unset or empty. */
  function RequireEnv(name: string, env: map<string, string>): (r: Result<string, Error>)
    ensures r.Success? <==> name in env && env[name] != ""
    ensures r.Success? ==> r.value == env[name]
    ensures r.Failure? ==> r.error == RuntimeError(MissingEnvMessage(name))
  {
    if name in env && env[name] != "" then Success(env[name])
    else Failure(RuntimeError(MissingEnvMessage(name)))
  }

  /** The error raised for a missing variable names that variable. */
  lemma MissingEnvNamesVariable(name: string, env: map<string, string>)
    requires RequireEnv(name, env).Failure?
    ensures Contains(RequireEnv(name, env).error.message, name)
  {
    ContainsMiddle("Missing required environment variable: ", name, ". " + MissingEnvHint);
    Associative("Missing required environment variable: " + name, ". ", MissingEnvHint);
  }

  /** Setting a variable to a non-empty value makes it available, whatever else the environment holds. */
  lemma SetVariableRequired(name: string, value: string, env: map<string, string>)
    requires value != ""
    ensures RequireEnv(name, env[name := value]) == Success(value)
  {
  }

  // ---------------------------------------------------- extract_text_from_message

  /**
   * What `msg.params` holds when it is truthy: a non-empty dict, or another
   * object, with or without a `text` attribute.
   */
  datatype Params =
    | DictParams(entries: map<string, PyValue>, repr: string)
    | ObjectParams(text: Option<PyValue>, repr: string)

  /**
   * A message as the helper sees it, as a record of optional attributes.
   * `agentRunResponse` is None when the attribute is absent, Some(None) when
   * it is present without a `text`; `text` is None when absent; `response` is
   * None when absent or falsy, and holds the response's `text` otherwise;
   * `params` is None when absent or falsy (None, an empty dict).
   */
  datatype Message = Message(
    agentRunResponse: Option<Option<PyValue>>,
    text: Option<PyValue>,
    response: Option<Option<PyValue>>,
    params: Option<Params>,
    repr: string)

  predicate TextTruthy(v: Option<PyValue>) {
    v.Some? && v.value.Truthy()
  }

  /** Priority 4: the text of the event parameters. */
  function ParamsText(p: Params): PyValue {
    match p
    case DictParams(entries, repr) =>
      if "text" in entries && entries["text"].Truthy() then entries["text"] else PyStr(repr)
    case ObjectParams(text, repr) =>
      if text.Some? then text.value else PyStr(repr)
  }

  /** `extract_text_from_message`. */
  function ExtractTextFromMessage(msg: Message): PyValue {
    if msg.agentRunResponse.Some? && msg.agentRunResponse.value.Some? then
      msg.agentRunResponse.value.value
    else if TextTruthy(msg.text) then
      msg.text.value
    else if msg.response.Some? && TextTruthy(msg.response.value) then
      msg.response.value.value
    else if msg.params.Some? then
      ParamsText(msg.params.value)
    else
      PyStr(msg.repr)
  }

  /** One place the text may come from: whether it applies to the message, and what it gives. */
  datatype Source = Source(applies: bool, value: PyValue)

  /** The five sources of the helper, in priority order; the last always applies. */
  function Sources(msg: Message): (r: seq<Source>)
    ensures |r| == 5 && r[4].applies
  {
    [ Source(msg.agentRunResponse.Some? && msg.agentRunResponse.value.Some?,
             msg.agentRunResponse.GetOr(None).GetOr(PyNone)),
      Source(TextTruthy(msg.text), msg.text.GetOr(PyNone)),
      Source(msg.response.Some? && TextTruthy(msg.response.value), msg.response.GetOr(None).GetOr(PyNone)),
      Source(msg.params.Some?, if msg.params.Some? then ParamsText(msg.params.value) else PyNone),
      Source(true, PyStr(msg.repr)) ]
  }

  /** The index of the first source that applies. */
  function FirstApplicable(sources: seq<Source>): (r: nat)
    requires exists i :: 0 <= i < |sources| && sources[i].applies
    ensures r < |sources| && sources[r].applies
    ensures forall i :: 0 <= i < r ==> !sources[i].applies
  {
    if sources[0].applies then 0
    else
      assert exists i :: 0 <= i < |sources[1..]| && sources[1..][i].applies by {
        var i :| 0 <= i < |sources| && sources[i].applies;
        assert sources[1..][i - 1] == sources[i];
      }
      1 + FirstApplicable(sources[1..])
  }

  /** The helper returns the value of the first source, in priority order, that applies. */
  lemma ExtractIsFirstApplicable(msg: Message)
    ensures var sources := Sources(msg);
            ExtractTextFromMessage(msg) == sources[FirstApplicable(sources)].value
  {
    var sources := Sources(msg);
    var k := FirstApplicable(sources);
    assert k < 5 && sources[k].applies && forall i :: 0 <= i < k ==> !sources[i].applies;
    if k == 0 {
    } else if k == 1 {
      assert !sources[0].applies;
    } else if k == 2 {
      assert !sources[0].applies && !sources[1].applies;
    } else if k == 3 {
      assert !sources[0].applies && !sources[1].applies && !sources[2].applies;
    } else {
      assert !sources[0].applies && !sources[1].applies && !sources[2].applies && !sources[3].applies;
    }
  }

  /**
   * When the message falls through to dict parameters, the text is the dict's
   * `text` entry if that is truthy and the dict's `str()` otherwise, never `None`.
   */
  lemma DictParamsRule(msg: Message)
    requires !(msg.agentRunResponse.Some? && msg.agentRunResponse.value.Some?)
    requires !TextTruthy(msg.text) && !(msg.response.Some? && TextTruthy(msg.response.value))
    requires msg.params.Some? && msg.params.value.DictParams?
    ensures var d := msg.params.value;
            "text" in d.entries && d.entries["text"].Truthy() ==> ExtractTextFromMessage(msg) == d.entries["text"]
    ensures var d := msg.params.value;
            !("text" in d.entries && d.entries["text"].Truthy()) ==> ExtractTextFromMessage(msg) == PyStr(d.repr)
    ensures ExtractTextFromMessage(msg) != PyNone
  {
  }

  /**
   * The helper hands back `None` (despite its `str` annotation) only when
   * the agent run response's text or the parameters' text attribute is `None`.
   */
  lemma ExtractNoneOnlyFromAttributes(msg: Message)
    requires ExtractTextFromMessage(msg) == PyNone
    ensures msg.agentRunResponse == Some(Some(PyNone))
            || (!(msg.agentRunResponse.Some? && msg.agentRunResponse.value.Some?)
                && msg.params.Some? && msg.params.value == ObjectParams(Some(PyNone), msg.params.value.repr))
  {
  }

  // --------------------------------------------------------- diagnosis_condition

  const Keywords: seq<string> := ["critical", "warning", "high", "alert"]

  /** `any(keyword in text.lower() for keyword in keywords)`. */
  predicate MentionsKeyword(text: string) {
    exists k :: k in Keywords && Contains(Lower(text), k)
  }

  /**
   * `diagnosis_condition`: whether the extracted text mentions a keyword; a
   * `None` text raises `TypeError` where it is sliced for the log line.
   */
  function DiagnosisCondition(msg: Message): (r: Result<bool, Error>)
    ensures r.Failure? <==> ExtractTextFromMessage(msg) == PyNone
    ensures r.Failure? ==> r.error == TypeError
  {
    match ExtractTextFromMessage(msg)
    case PyNone => Failure(TypeError)
    case PyStr(s) => Success(MentionsKeyword(s))
  }

  /** The Python condition and the C# `CheckDiagnosisCondition` route every text the same way. */
  lemma ConditionsAgree(text: string)
    ensures MentionsKeyword(text) <==> WorkflowHelpers.CheckDiagnosisCondition(text)
  {
    assert Keywords == WorkflowHelpers.DiagnosisKeywords;
    WorkflowHelpers.KeywordsLowerCase();
    forall k | k in Keywords
      ensures Contains(Lower(text), k) <==> ContainsIgnoreCase(text, k)
    {
      ContainsLowerIffIgnoreCase(text, k);
    }
  }

  /** A message whose text mentions a keyword in any mix of cases routes to fault diagnosis. */
  lemma MentionRoutesToDiagnosis(msg: Message, before: string, mention: string, after: string, k: string)
    requires ExtractTextFromMessage(msg) == PyStr(before + mention + after)
    requires k in Keywords && EqualsIgnoreCase(mention, k)
    ensures DiagnosisCondition(msg) == Success(true)
  {
    assert k in WorkflowHelpers.DiagnosisKeywords;
    WorkflowHelpers.MentionCallsForDiagnosis(before, mention, after, k);
    ConditionsAgree(before + mention + after);
  }

  // ------------------------------------------------------ RequestProcessor.process

  const PromptHead: string := "Classify the following anomalies for machine "

  /** The prompt sent to the anomaly agent; a missing field is shown as `None`. */
  function Prompt(machineId: PyValue, telemetry: PyValue): (r: string)
    ensures StartsWith(r, PromptHead) && EndsWith(r, telemetry.Show())
  {
    PromptHead + machineId.Show() + ": " + telemetry.Show()
  }

  /** Reads the machine id and the telemetry back from a prompt, splitting at the first ": ". */
  function ParsePrompt(prompt: string): Option<(string, string)> {
    if StartsWith(prompt, PromptHead) then
      var rest := prompt[|PromptHead|..];
      var k := IndexOf(rest, ": ", 0);
      if k < 0 then None else Some((rest[..k], rest[k + 2..]))
    else None
  }

  /** A machine id without a colon can be read back from the prompt, together with the telemetry. */
  lemma PromptRoundTrip(machineId: PyValue, telemetry: PyValue)
    requires ':' !in machineId.Show()
    ensures ParsePrompt(Prompt(machineId, telemetry)) == Some((machineId.Show(), telemetry.Show()))
  {
    var m, t := machineId.Show(), telemetry.Show();
    Associative(PromptHead, m + ": ", t);
    Associative(PromptHead, m, ": ");
    ParseAfterHead(m, t);
  }

  lemma ParseAfterHead(m: string, t: string)
    requires ':' !in m
    ensures ParsePrompt(PromptHead + (m + ": " + t)) == Some((m, t))
  {
    var rest := m + ": " + t;
    var p := PromptHead + rest;
    assert p[..|PromptHead|] == PromptHead;
    assert p[|PromptHead|..] == rest;
    IndexOfAfter("", m, ": ", t);
    assert "" + m + ": " + t == rest;
    assert rest[..|m|] == m;
    assert rest[|m| + 2..] == t;
  }
}
