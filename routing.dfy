/**
 * The helpers of the orchestrator's `Workflow` class (dotnetworkflow/Program.cs):
 * the text of an agent's answer, and the keyword test that decides whether a
 * fault diagnosis is needed.
 */
module WorkflowHelpers {
  import opened Wrappers
  import opened Text
  import opened WorkflowModel

  /** `ChatMessage.Text`: the texts of its text contents, in order; a null text adds nothing. */
  function MessageText(contents: seq<Content>): string {
    if |contents| == 0 then ""
    else
      var c := contents[|contents| - 1];
      MessageText(contents[..|contents| - 1]) + (if c.TextContent? && c.text.Some? then c.text.value else "")
  }

  /** The message text is the texts of the two parts of the contents, one after the other. */
  lemma {:induction false} MessageTextAppend(a: seq<Content>, b: seq<Content>)
    ensures MessageText(a + b) == MessageText(a) + MessageText(b)
    decreases |b|
  {
    if |b| > 0 {
      var front := b[..|b| - 1];
      assert (a + b)[..|a + b| - 1] == a + front;
      assert (a + b)[|a + b| - 1] == b[|b| - 1];
      MessageTextAppend(a, front);
      var c := b[|b| - 1];
      Associative(MessageText(a), MessageText(front), if c.TextContent? && c.text.Some? then c.text.value else "");
    } else {
      assert a + b == a;
    }
  }

  /** Only text contents count: contents of any other kind leave the text as it is. */
  lemma {:induction false} MessageTextOnlyText(contents: seq<Content>)
    requires forall i :: 0 <= i < |contents| ==> !contents[i].TextContent?
    ensures MessageText(contents) == ""
    decreases |contents|
  {
    if |contents| > 0 {
      MessageTextOnlyText(contents[..|contents| - 1]);
    }
  }

  /** `Workflow.ExtractText`: the text of the last message of the run, or "" when there is none. */
  function ExtractText(messages: seq<ChatMessage>): (r: string)
    ensures |messages| == 0 ==> r == ""
  {
    if |messages| == 0 then "" else MessageText(messages[|messages| - 1].contents)
  }

  /** Only the last message counts: earlier messages never change the extracted text. */
  lemma ExtractTextLastWins(earlier: seq<ChatMessage>, later: seq<ChatMessage>)
    requires |later| > 0
    ensures ExtractText(earlier + later) == ExtractText(later)
  {
    assert (earlier + later)[|earlier + later| - 1] == later[|later| - 1];
  }

  /** A final message made of text pieces yields those pieces, joined. */
  lemma ExtractTextOfPieces(earlier: seq<ChatMessage>, role: ChatRole, a: string, b: string)
    ensures ExtractText(earlier + [ChatMessage(role, [TextContent(Some(a)), OtherContent, TextContent(Some(b))])]) == a + b
  {
    var cs := [TextContent(Some(a)), OtherContent, TextContent(Some(b))];
    assert cs == [TextContent(Some(a))] + [OtherContent] + [TextContent(Some(b))];
    MessageTextAppend([TextContent(Some(a))], [OtherContent]);
    MessageTextAppend([TextContent(Some(a))] + [OtherContent], [TextContent(Some(b))]);
    assert [TextContent(Some(a))][..0] == [];
    assert [OtherContent][..0] == [];
    assert [TextContent(Some(b))][..0] == [];
    ExtractTextLastWins(earlier, [ChatMessage(role, cs)]);
  }

  /** The words that call for a fault diagnosis, all lower case. */
  const DiagnosisKeywords: seq<string> := ["critical", "warning", "high", "alert"]

  /** `Workflow.CheckDiagnosisCondition`: some keyword occurs, compared ordinally ignoring case. */
  predicate CheckDiagnosisCondition(text: string) {
    exists k :: k in DiagnosisKeywords && ContainsIgnoreCase(text, k)
  }

  lemma KeywordsLowerCase()
    ensures forall k :: k in DiagnosisKeywords ==> Lower(k) == k
  {
    assert Lower("critical") == "critical";
    assert Lower("warning") == "warning";
    assert Lower("high") == "high";
    assert Lower("alert") == "alert";
  }

  /** A keyword written in any mix of cases, anywhere in the text, calls for a diagnosis. */
  lemma MentionCallsForDiagnosis(before: string, mention: string, after: string, k: string)
    requires k in DiagnosisKeywords && EqualsIgnoreCase(mention, k)
    ensures CheckDiagnosisCondition(before + mention + after)
  {
    var s := before + mention + after;
    var i := |before|;
    assert s[i..i + |mention|] == mention;
    assert MatchesIgnoreCaseAt(s, k, i);
  }
}
