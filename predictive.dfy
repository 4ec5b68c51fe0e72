/**
 * The predictive-maintenance service of challenge-3
 * (PredictiveMaintenanceAgentService.cs): extracting the JSON answer from an
 * agent reply, stamping identifiers on the parsed schedule, and the counting
 * and filtering rules of the request text `BuildPredictiveContext` writes.
 */
module Predictive {
  import opened Wrappers
  import opened Text
  import opened MaintenanceModels

  // ----- Extracting the JSON answer ----------------------------------------------

  const Fence: string := "```json"
  const FenceEnd: string := "```"
  const NoJsonMessage: string := "Could not extract JSON from agent response"

  /**
   * `ExtractJsonFromResponse` as written. With a fence and no line break after
   * it, `IndexOf('\n', fence) + 1` is 0, so the text is taken from the start of
   * the reply (see FenceWithoutLineBreak).
   */
  function ExtractJsonFromResponse(response: string): (r: Result<string, Error>)
    ensures r.Failure? ==> r.error == ArgumentOutOfRange || r.error == GeneralException(NoJsonMessage)
  {
    var fence := IndexOf(response, Fence, 0);
    if fence >= 0 then
      var start := IndexOf(response, "\n", fence) + 1;
      FencedBody(response, start)
    else
      BareObject(response)
  }

  /** From `start` up to the next closing fence, trimmed; a missing fence makes the length negative. */
  function FencedBody(response: string, start: nat): (r: Result<string, Error>)
    requires start <= |response|
    ensures r.Failure? <==> IndexOf(response, FenceEnd, start) < 0
    ensures r.Failure? ==> r.error == ArgumentOutOfRange
  {
    var end := IndexOf(response, FenceEnd, start);
    match Substring(response, start, end - start)
    case Success(body) => Success(Trim(body, IsDotNetWhiteSpace))
    case Failure(e) => Failure(e)
  }

  /** With a fence at `fence`, extraction reads the body that starts after the next line break. */
  lemma ExtractAtFence(response: string, fence: nat, start: nat)
    requires fence <= |response| && IndexOf(response, Fence, 0) == fence
    requires IndexOf(response, "\n", fence) + 1 == start
    ensures ExtractJsonFromResponse(response) == FencedBody(response, start)
  {
  }

  /** A reply whose searches land at `fence`, `head` and after `body` yields the trimmed body. */
  lemma FencedAt(response: string, fence: nat, head: nat, body: string)
    requires fence <= |response| && IndexOf(response, Fence, 0) == fence
    requires IndexOf(response, "\n", fence) + 1 == head
    requires head + |body| <= |response| && response[head..head + |body|] == body
    requires IndexOf(response, FenceEnd, head) == head + |body|
    ensures ExtractJsonFromResponse(response) == Success(Trim(body, IsDotNetWhiteSpace))
  {
    ExtractAtFence(response, fence, head);
    FencedBodyAt(response, head, body);
  }

  /** The fenced body is the text up to the closing fence, trimmed. */
  lemma FencedBodyAt(response: string, start: nat, body: string)
    requires start + |body| <= |response| && response[start..start + |body|] == body
    requires IndexOf(response, FenceEnd, start) == start + |body|
    ensures FencedBody(response, start) == Success(Trim(body, IsDotNetWhiteSpace))
  {
    SubstringSlice(response, start, body);
  }

  /** From the first '{' through the last '}'. */
  function BareObject(response: string): (r: Result<string, Error>)
    ensures r.Failure? && r.error == GeneralException(NoJsonMessage) <==> '{' !in response
    ensures r.Failure? ==> r.error == ArgumentOutOfRange || r.error == GeneralException(NoJsonMessage)
  {
    FirstSeparator(response, '{');
    var open := IndexOf(response, "{", 0);
    if open >= 0 then
      var close := LastIndexOf(response, '}');
      Substring(response, open, close - open + 1)
    else
      Failure(GeneralException(NoJsonMessage))
  }

  /** Extraction throws the "could not extract" error exactly when the reply has neither a fence nor a '{'. */
  lemma ExtractNoJson(response: string)
    ensures var r := ExtractJsonFromResponse(response);
            (r.Failure? && r.error == GeneralException(NoJsonMessage)) <==> !Contains(response, Fence) && '{' !in response
  {
    IndexOfFindsContained(response, Fence);
  }

  /** A reply with a fenced block: prose, the opening fence `f` and its info string on one line, the body, the closing fence `e`. */
  function FencedLayout(prose: string, f: string, info: string, body: string, e: string, rest: string): string {
    prose + f + info + "\n" + body + e + rest
  }

  lemma OpeningFenceFound(prose: string, f: string, info: string, body: string, e: string, rest: string)
    requires |f| > 0 && f[0] !in prose
    ensures IndexOf(FencedLayout(prose, f, info, body, e, rest), f, 0) == |prose|
  {
    var p := prose + f;
    Associative(p, info, "\n");
    Associative(p, info + "\n", body);
    Associative(p, info + "\n" + body, e);
    Associative(p, info + "\n" + body + e, rest);
    assert "" + prose == prose;
    IndexOfAfter("", prose, f, info + "\n" + body + e + rest);
  }

  lemma FenceLineEnds(prose: string, f: string, info: string, body: string, e: string, rest: string)
    requires '\n' !in f + info
    ensures IndexOf(FencedLayout(prose, f, info, body, e, rest), "\n", |prose|) == |prose| + |f| + |info|
  {
    var p := prose + (f + info) + "\n";
    Associative(prose, f, info);
    Associative(p, body, e);
    Associative(p, body + e, rest);
    IndexOfAfter(prose, f + info, "\n", body + e + rest);
  }

  lemma FencedBodyFound(prose: string, f: string, info: string, body: string, e: string, rest: string, head: nat)
    requires |e| > 0 && e[0] !in body
    requires head == |prose| + |f| + |info| + 1
    ensures head + |body| <= |FencedLayout(prose, f, info, body, e, rest)|
    ensures FencedLayout(prose, f, info, body, e, rest)[head..head + |body|] == body
    ensures IndexOf(FencedLayout(prose, f, info, body, e, rest), e, head) == head + |body|
  {
    var s := FencedLayout(prose, f, info, body, e, rest);
    var opening := prose + f + info + "\n";
    assert s == opening + body + e + rest;
    IndexOfAfter(opening, body, e, rest);
    assert s[|opening|..|opening| + |body|] == body;
  }

  /**
   * A reply laid out as the request asks, prose then a fenced block on its own
   * lines, gives back the block's trimmed text.
   */
  lemma FencedReplyExtracts(prose: string, info: string, body: string, rest: string)
    requires '`' !in prose && '\n' !in info && '`' !in body
    ensures ExtractJsonFromResponse(prose + Fence + info + "\n" + body + FenceEnd + rest)
            == Success(Trim(body, IsDotNetWhiteSpace))
  {
    var s := FencedLayout(prose, Fence, info, body, FenceEnd, rest);
    var head := |prose| + |Fence| + |info| + 1;
    OpeningFenceFound(prose, Fence, info, body, FenceEnd, rest);
    FenceLineEnds(prose, Fence, info, body, FenceEnd, rest);
    FencedBodyFound(prose, Fence, info, body, FenceEnd, rest, head);
    FencedAt(s, |prose|, head, body);
  }

  /** With white space around a trimmed JSON text inside the fence, the JSON text itself comes back. */
  lemma PaddedFencedReplyExtracts(prose: string, info: string, before: string, json: string, after: string, rest: string)
    requires '`' !in prose && '\n' !in info && '`' !in before + json + after
    requires AllWhiteSpace(before, IsDotNetWhiteSpace) && AllWhiteSpace(after, IsDotNetWhiteSpace)
    requires IsTrimmed(json, IsDotNetWhiteSpace)
    ensures ExtractJsonFromResponse(prose + Fence + info + "\n" + (before + json + after) + FenceEnd + rest) == Success(json)
  {
    FencedReplyExtracts(prose, info, before + json + after, rest);
    TrimAround(before, json, after, IsDotNetWhiteSpace);
  }

  /** Without a fence, the object from the first '{' through the last '}' is returned as is. */
  lemma {:induction false} BareReplyExtracts(prose: string, json: string, rest: string)
    requires '`' !in prose + json + rest && '{' !in prose && '}' !in rest
    requires |json| >= 2 && json[0] == '{' && json[|json| - 1] == '}'
    ensures ExtractJsonFromResponse(prose + json + rest) == Success(json)
  {
    var s := prose + json + rest;
    forall i: nat | i <= |s| ensures !OccursAt(s, Fence, i) {
      if i < |s| {
        assert s[i] in prose + json + rest;
        NotAtFirstChar(s, Fence, i);
      }
    }
    var o := |prose|;
    assert s[o..o + 1] == "{";
    forall i: nat | i < o ensures !OccursAt(s, "{", i) {
      assert s[i] == prose[i];
      NotAtFirstChar(s, "{", i);
    }
    IndexOfAt(s, "{", 0, o);
    var c := |prose| + |json| - 1;
    assert s[c] == '}';
    forall i | c < i < |s| ensures s[i] != '}' {
      assert s[i] == rest[i - c - 1];
    }
    assert s[o..o + |json|] == json;
  }

  /**
   * When the '{' has no '}' after it, the result is a failure only if the last
   * '}' lies more than one place before the '{'; otherwise it is the text between.
   */
  lemma BareObjectOutcome(response: string)
    requires !Contains(response, Fence) && '{' in response
    ensures var open := IndexOf(response, "{", 0);
            var close := LastIndexOf(response, '}');
            ExtractJsonFromResponse(response).Success? <==> close >= open - 1
  {
    IndexOfFindsContained(response, Fence);
    FirstSeparator(response, '{');
  }

  /** A reply "}{" passes the brace scan and yields the empty text rather than an error. */
  lemma ReversedBracesGiveEmpty()
    ensures ExtractJsonFromResponse("}{") == Success("")
  {
    assert "}{" == "" + "}" + "{" + "";
    IndexOfAbsent("", "}{", Fence);
    IndexOfAfter("", "}", "{", "");
  }

  /**
   * A fence with the JSON on the same line: as written, the line break is not
   * found, scanning restarts at 0, the closing search stops at the opening
   * fence itself, and the trimmed prose before the fence is returned instead of
   * the block.
   */
  lemma InlineFenceReturnsProse(prose: string, body: string, rest: string)
    requires '`' !in prose && '\n' !in prose + Fence + body + FenceEnd + rest
    ensures ExtractJsonFromResponse(prose + Fence + body + FenceEnd + rest) == Success(Trim(prose, IsDotNetWhiteSpace))
  {
    var s := InlineLayout(prose, Fence, body, FenceEnd, rest);
    assert '\n' !in Fence + body + FenceEnd + rest;
    InlineOpeningFound(prose, Fence, body, FenceEnd, rest);
    InlineLineUnbroken(prose, Fence, body, FenceEnd, rest);
    assert Fence == FenceEnd + "json";
    InlineClosingAtOpening(prose, FenceEnd, "json", body, FenceEnd, rest);
    ProseAt(s, |prose|, prose);
  }

  /** A reply whose fence line does not end, and whose closing search stops at the opening fence, yields the trimmed prose. */
  lemma ProseAt(response: string, fence: nat, prose: string)
    requires fence <= |response| && IndexOf(response, Fence, 0) == fence
    requires IndexOf(response, "\n", fence) == -1
    requires |prose| == fence && response[0..fence] == prose
    requires IndexOf(response, FenceEnd, 0) == fence
    ensures ExtractJsonFromResponse(response) == Success(Trim(prose, IsDotNetWhiteSpace))
  {
    ExtractAtFence(response, fence, 0);
    FencedBodyAt(response, 0, prose);
  }

  /** A reply with a fenced block on one line: prose, the opening fence `f`, the body, the closing fence `e`. */
  function InlineLayout(prose: string, f: string, body: string, e: string, rest: string): string {
    prose + f + body + e + rest
  }

  lemma InlineOpeningFound(prose: string, f: string, body: string, e: string, rest: string)
    requires |f| > 0 && f[0] !in prose
    ensures IndexOf(InlineLayout(prose, f, body, e, rest), f, 0) == |prose|
  {
    var p := prose + f;
    Associative(p, body, e);
    Associative(p, body + e, rest);
    assert "" + prose == prose;
    IndexOfAfter("", prose, f, body + e + rest);
  }

  lemma InlineLineUnbroken(prose: string, f: string, body: string, e: string, rest: string)
    requires '\n' !in f + body + e + rest
    ensures IndexOf(InlineLayout(prose, f, body, e, rest), "\n", |prose|) == -1
  {
    Associative(prose, f, body);
    Associative(prose, f + body, e);
    Associative(prose, f + body + e, rest);
    IndexOfAbsent(prose, f + body + e + rest, "\n");
  }

  lemma InlineBodyFound(prose: string, f: string, body: string, e: string, rest: string)
    requires |e| > 0 && e[0] !in body
    ensures var s := InlineLayout(prose, f, body, e, rest);
            var head := |prose| + |f|;
            && head + |body| <= |s| && s[head..head + |body|] == body
            && IndexOf(s, e, head) == head + |body|
  {
    var s := InlineLayout(prose, f, body, e, rest);
    var head := prose + f;
    IndexOfAfter(head, body, e, rest);
    assert s[|head|..|head| + |body|] == body;
  }

  /** When the opening fence starts with the closing one, a search for the closing fence from 0 stops at the opening fence. */
  lemma InlineClosingAtOpening(prose: string, c: string, g: string, body: string, e: string, rest: string)
    requires |c| > 0 && c[0] !in prose
    ensures var s := InlineLayout(prose, c + g, body, e, rest);
            && |prose| <= |s| && s[0..|prose|] == prose
            && IndexOf(s, c, 0) == |prose|
  {
    var s := InlineLayout(prose, c + g, body, e, rest);
    Associative(prose, c, g);
    var p := prose + c;
    Associative(p, g, body);
    Associative(p, g + body, e);
    Associative(p, g + body + e, rest);
    assert "" + prose == prose;
    IndexOfAfter("", prose, c, g + body + e + rest);
    assert s[0..|prose|] == prose;
  }

  const InlineFenced: string := "```json{}```"

  /** The smallest such reply: "```json{}```" yields "" where "{}" was meant. */
  lemma FenceWithoutLineBreak()
    ensures ExtractJsonFromResponse(InlineFenced) == Success("")
  {
    assert InlineFenced == "" + Fence + "{}" + FenceEnd + "";
    InlineFenceReturnsProse("", "{}", "");
    assert Trim("", IsDotNetWhiteSpace) == "";
  }

  /** The corrected extraction gives the object of that reply back. */
  lemma FenceWithoutLineBreakCorrected()
    ensures ExtractJsonCorrected(InlineFenced) == Success("{}")
  {
    assert InlineFenced == "" + Fence + "{}" + FenceEnd + "";
    InlineFenceExtracts("", "{}", "");
    EmptyObjectTrimmed();
  }

  lemma EmptyObjectTrimmed()
    ensures Trim("{}", IsDotNetWhiteSpace) == "{}"
  {
    var obj := "{}";
    assert !IsDotNetWhiteSpace(obj[0]) && !IsDotNetWhiteSpace(obj[1]);
    TrimPadded("", obj, IsDotNetWhiteSpace);
    assert "" + obj == obj;
  }

  /**
   * The evident intent: the JSON starts after the line break that follows the
   * fence, or right after the fence when no line break follows it.
   */
  function ExtractJsonCorrected(response: string): (r: Result<string, Error>)
    ensures r.Failure? ==> r.error == ArgumentOutOfRange || r.error == GeneralException(NoJsonMessage)
  {
    var fence := IndexOf(response, Fence, 0);
    if fence >= 0 then
      var lineBreak := IndexOf(response, "\n", fence);
      var start := if lineBreak >= 0 then lineBreak + 1 else fence + |Fence|;
      FencedBody(response, start)
    else
      BareObject(response)
  }

  /** With a fence at `fence` and no line break after it, the corrected extraction reads from just after the fence. */
  lemma ExtractCorrectedAtFence(response: string, fence: nat, start: nat)
    requires fence <= |response| && IndexOf(response, Fence, 0) == fence
    requires IndexOf(response, "\n", fence) == -1 && start == fence + |Fence| <= |response|
    ensures ExtractJsonCorrected(response) == FencedBody(response, start)
  {
  }

  /** The correction changes nothing when the fence line ends in a line break. */
  lemma CorrectedAgreesOnFencedLines(response: string)
    requires var fence := IndexOf(response, Fence, 0); fence >= 0 ==> IndexOf(response, "\n", fence) >= 0
    ensures ExtractJsonCorrected(response) == ExtractJsonFromResponse(response)
  {
    IndexOfFindsContained(response, Fence);
  }

  /** A one-line fenced block is read from just after the fence. */
  lemma InlineFenceExtracts(prose: string, body: string, rest: string)
    requires '`' !in prose && '`' !in body && '\n' !in Fence + body + FenceEnd + rest
    ensures ExtractJsonCorrected(prose + Fence + body + FenceEnd + rest) == Success(Trim(body, IsDotNetWhiteSpace))
  {
    var s := InlineLayout(prose, Fence, body, FenceEnd, rest);
    InlineOpeningFound(prose, Fence, body, FenceEnd, rest);
    InlineLineUnbroken(prose, Fence, body, FenceEnd, rest);
    InlineBodyFound(prose, Fence, body, FenceEnd, rest);
    InlineAt(s, |prose|, body);
  }

  /** With no line break after the fence, the corrected extraction yields the trimmed body right after the fence. */
  lemma InlineAt(response: string, fence: nat, body: string)
    requires fence + |Fence| <= |response| && IndexOf(response, Fence, 0) == fence
    requires IndexOf(response, "\n", fence) == -1
    requires fence + |Fence| + |body| <= |response| && response[fence + |Fence|..fence + |Fence| + |body|] == body
    requires IndexOf(response, FenceEnd, fence + |Fence|) == fence + |Fence| + |body|
    ensures ExtractJsonCorrected(response) == Success(Trim(body, IsDotNetWhiteSpace))
  {
    ExtractCorrectedAtFence(response, fence, fence + |Fence|);
    FencedBodyAt(response, fence + |Fence|, body);
  }

  // ----- Stamping the schedule ---------------------------------------------------

  const NoScheduleMessage: string := "Failed to parse maintenance schedule from agent response"

  /**
   * The end of `PredictMaintenanceScheduleAsync`: `parsed` is what the JSON
   * deserializer returned (null when it gave nothing); the schedule gets a
   * fresh identifier, the work order's identifiers and the creation time, and
   * keeps everything the agent chose.
   */
  method StampSchedule(wo: WorkOrder, parsed: MaintenanceSchedule?, g: Guid, now: DateTime)
    returns (r: Result<MaintenanceSchedule, Error>)
    modifies parsed
    ensures parsed == null ==> r == Failure(GeneralException(NoScheduleMessage))
    ensures parsed != null ==> r == Success(parsed)
    ensures parsed != null ==>
              && parsed.id == GuidString(g) && parsed.workOrderId == wo.id
              && parsed.machineId == wo.machineId && parsed.createdAt == now
              && parsed.scheduledDate == old(parsed.scheduledDate)
              && parsed.maintenanceWindow == old(parsed.maintenanceWindow)
              && parsed.recommendedAction == old(parsed.recommendedAction)
              && parsed.reasoning == old(parsed.reasoning)
  {
    if parsed == null {
      return Failure(GeneralException(NoScheduleMessage));
    }
    parsed.id := GuidString(g);
    parsed.workOrderId := wo.id;
    parsed.machineId := wo.machineId;
    parsed.createdAt := now;
    r := Success(parsed);
  }
}
