/**
 * The request text `BuildPredictiveContext` writes for the predictive agent
 * (PredictiveMaintenanceAgentService.cs): which history records count as
 * relevant, how the failure intervals are taken, and what is listed.
 * Averages, day counts and percentages are floating point and their
 * formatting is not modelled, so the lines that show them carry the exact
 * integer data they are computed from.
 */
module PredictiveContext {
  import opened Wrappers
  import opened Text
  import opened MaintenanceModels

  /** One line of the request; the figures a line formats are kept as data. */
  datatype ContextLine =
    | Plain(text: string)
    | AverageDowntime(minutes: seq<int>)                       // mean of the minutes, "F0"
    | AverageCost(costsCents: seq<int>)                        // mean of the costs, "F2"
    | MeanTimeBetweenFailures(intervalTicks: seq<int>)         // mean interval in days, "F0"
    | DaysSinceLast(elapsedTicks: int)                         // elapsed days, "F0"
    | CycleProgress(elapsedTicks: int, intervalTicks: seq<int>) // elapsed / mean interval, percent
    | RecentEvent(record: MaintenanceHistory)                  // date, fault type, downtime, cost
    | WindowSpan(window: MaintenanceWindow)                    // start, end and length in hours

  // ----- Relevant history ------------------------------------------------------

  /** `history.Where(h => h.FaultType == faultType)`. */
  function Relevant(history: seq<MaintenanceHistory>, faultType: string): (r: seq<MaintenanceHistory>)
    ensures |r| <= |history|
  {
    if |history| == 0 then []
    else
      var last := history[|history| - 1];
      Relevant(history[..|history| - 1], faultType) + (if last.faultType == faultType then [last] else [])
  }

  /** The relevant records are exactly those of the work order's fault type. */
  lemma {:induction false} RelevantMembers(history: seq<MaintenanceHistory>, faultType: string, h: MaintenanceHistory)
    ensures h in Relevant(history, faultType) <==> h in history && h.faultType == faultType
    decreases |history|
  {
    if |history| > 0 {
      var front := history[..|history| - 1];
      RelevantMembers(front, faultType, h);
      assert history == front + [history[|history| - 1]];
    }
  }

  /** The filter keeps the order of the history: filtering a concatenation concatenates the filtered parts. */
  lemma {:induction false} RelevantAppend(a: seq<MaintenanceHistory>, b: seq<MaintenanceHistory>, faultType: string)
    ensures Relevant(a + b, faultType) == Relevant(a, faultType) + Relevant(b, faultType)
    decreases |b|
  {
    if |b| > 0 {
      var front := b[..|b| - 1];
      assert (a + b)[..|a + b| - 1] == a + front;
      assert (a + b)[|a + b| - 1] == b[|b| - 1];
      RelevantAppend(a, front, faultType);
      var last := if b[|b| - 1].faultType == faultType then [b[|b| - 1]] else [];
      Associative(Relevant(a, faultType), Relevant(front, faultType), last);
    } else {
      assert a + b == a;
    }
  }

  function OccurrenceTicks(rs: seq<MaintenanceHistory>): seq<int> {
    seq(|rs|, i requires 0 <= i < |rs| => rs[i].occurrenceDate.ticks)
  }

  function Downtimes(rs: seq<MaintenanceHistory>): seq<int> {
    seq(|rs|, i requires 0 <= i < |rs| => rs[i].downtimeMinutes)
  }

  function Costs(rs: seq<MaintenanceHistory>): seq<int> {
    seq(|rs|, i requires 0 <= i < |rs| => rs[i].costCents)
  }

  // ----- Ordering the occurrence dates ----------------------------------------------

  predicate Sorted(s: seq<int>) {
    forall i, j :: 0 <= i < j < |s| ==> s[i] <= s[j]
  }

  function Insert(x: int, s: seq<int>): seq<int> {
    if |s| == 0 || x <= s[0] then [x] + s else [s[0]] + Insert(x, s[1..])
  }

  /** `OrderBy(d => d)` on the occurrence instants. */
  function SortTicks(s: seq<int>): seq<int> {
    if |s| == 0 then [] else Insert(s[0], SortTicks(s[1..]))
  }

  lemma {:induction false} InsertSorted(x: int, s: seq<int>)
    requires Sorted(s)
    ensures |Insert(x, s)| == |s| + 1 && Sorted(Insert(x, s))
    ensures Insert(x, s)[0] == if |s| == 0 || x <= s[0] then x else s[0]
    decreases |s|
  {
    if |s| > 0 && x > s[0] {
      var t := s[1..];
      InsertSorted(x, t);
      var r := Insert(x, t);
      assert s[0] <= r[0] by {
        if |t| > 0 { assert s[0] <= s[1]; }
      }
      var q := [s[0]] + r;
      forall i, j | 0 <= i < j < |q| ensures q[i] <= q[j] {
        if i == 0 {
          assert q[j] == r[j - 1];
          assert r[0] <= r[j - 1];
        } else {
          assert q[i] == r[i - 1] && q[j] == r[j - 1];
        }
      }
    }
  }

  lemma {:induction false} InsertPermutes(x: int, s: seq<int>)
    ensures multiset(Insert(x, s)) == multiset(s) + multiset{x}
    decreases |s|
  {
    if |s| > 0 && x > s[0] {
      InsertPermutes(x, s[1..]);
      assert s == [s[0]] + s[1..];
    }
  }

  /** The sorted dates are in ascending order and are the same dates. */
  lemma {:induction false} SortTicksSpec(s: seq<int>)
    ensures Sorted(SortTicks(s)) && multiset(SortTicks(s)) == multiset(s)
    decreases |s|
  {
    if |s| > 0 {
      SortTicksSpec(s[1..]);
      InsertSorted(s[0], SortTicks(s[1..]));
      InsertPermutes(s[0], SortTicks(s[1..]));
      assert s == [s[0]] + s[1..];
    }
  }

  /** Any ascending rearrangement is this one, so the choice of sorting algorithm does not matter. */
  lemma {:induction false} SortedUnique(a: seq<int>, b: seq<int>)
    requires Sorted(a) && Sorted(b) && multiset(a) == multiset(b)
    ensures a == b
    decreases |a|
  {
    assert |a| == |multiset(a)| == |b|;
    if |a| > 0 {
      SortedSameFirst(a, b);
      TailMultiset(a);
      TailMultiset(b);
      SortedUnique(a[1..], b[1..]);
      assert a == [a[0]] + a[1..] && b == [b[0]] + b[1..];
    }
  }

  /** Two sorted orderings of the same values start with the same, smallest, value. */
  lemma SortedSameFirst(a: seq<int>, b: seq<int>)
    requires Sorted(a) && Sorted(b) && multiset(a) == multiset(b) && |a| > 0
    ensures |b| > 0 && a[0] == b[0]
  {
    assert a[0] in multiset(b);
    var i :| 0 <= i < |b| && b[i] == a[0];
    assert b[0] in multiset(a);
    var j :| 0 <= j < |a| && a[j] == b[0];
    assert b[0] <= b[i] && a[0] <= a[j];
  }

  lemma TailMultiset(a: seq<int>)
    requires |a| > 0
    ensures multiset(a[1..]) == multiset(a) - multiset{a[0]}
  {
    assert a == [a[0]] + a[1..];
  }

  // ----- Failure intervals ---------------------------------------------------------

  /** The gaps between consecutive dates. */
  function Gaps(dates: seq<int>): (r: seq<int>)
    ensures |r| == if |dates| < 2 then 0 else |dates| - 1
  {
    if |dates| < 2 then [] else seq(|dates| - 1, i requires 0 <= i < |dates| - 1 => dates[i + 1] - dates[i])
  }

  /** The `for` loop that fills `intervals` with `dates[i] - dates[i-1]`. */
  method FailureIntervals(dates: seq<int>) returns (intervals: seq<int>)
    ensures intervals == Gaps(dates)
  {
    intervals := [];
    var i := 1;
    while i < |dates|
      invariant 1 <= i <= if |dates| == 0 then 1 else |dates|
      invariant |intervals| == i - 1
      invariant forall k :: 0 <= k < i - 1 ==> intervals[k] == dates[k + 1] - dates[k]
    {
      intervals := intervals + [dates[i] - dates[i - 1]];
      i := i + 1;
    }
    assert |intervals| == |Gaps(dates)|;
  }

  function Sum(xs: seq<int>): int {
    if |xs| == 0 then 0 else Sum(xs[..|xs| - 1]) + xs[|xs| - 1]
  }

  /**
   * The intervals add up to the span from the first to the last date, so their
   * mean, the MTBF, is that span divided by one less than the number of dates.
   */
  lemma {:induction false} GapsTelescope(dates: seq<int>)
    requires |dates| >= 1
    ensures Sum(Gaps(dates)) == dates[|dates| - 1] - dates[0]
    decreases |dates|
  {
    if |dates| >= 2 {
      var front := dates[..|dates| - 1];
      GapsTelescope(front);
      var g := Gaps(dates);
      assert g[..|g| - 1] == Gaps(front);
    }
  }

  /** Between sorted dates no interval is negative. */
  lemma SortedGapsNonNegative(dates: seq<int>)
    requires Sorted(dates)
    ensures forall k :: 0 <= k < |Gaps(dates)| ==> Gaps(dates)[k] >= 0
  {
    forall k | 0 <= k < |Gaps(dates)| ensures Gaps(dates)[k] >= 0 {
      assert Gaps(dates)[k] == dates[k + 1] - dates[k];
    }
  }

  /** `relevantHistory.Max(h => h.OccurrenceDate)`. */
  function Latest(ts: seq<int>): int
    requires |ts| > 0
  {
    if |ts| == 1 then ts[0]
    else
      var m := Latest(ts[..|ts| - 1]);
      if ts[|ts| - 1] > m then ts[|ts| - 1] else m
  }

  lemma {:induction false} LatestIsMaximum(ts: seq<int>)
    requires |ts| > 0
    ensures Latest(ts) in ts && forall t :: t in ts ==> t <= Latest(ts)
    decreases |ts|
  {
    if |ts| > 1 {
      var front := ts[..|ts| - 1];
      LatestIsMaximum(front);
      assert ts == front + [ts[|ts| - 1]];
    }
  }

  /** The latest occurrence is the last of the sorted dates. */
  lemma LatestIsLastSorted(ts: seq<int>)
    requires |ts| > 0
    ensures |SortTicks(ts)| == |ts| && Latest(ts) == SortTicks(ts)[|ts| - 1]
  {
    var s := SortTicks(ts);
    SortTicksSpec(ts);
    assert |s| == |multiset(s)| == |ts|;
    LatestIsMaximum(ts);
    var last := s[|s| - 1];
    assert last in multiset(ts);
    assert last in ts;
    assert Latest(ts) in multiset(s);
    var i :| 0 <= i < |s| && s[i] == Latest(ts);
    assert s[i] <= last;
    assert last <= Latest(ts);
  }

  /**
   * For at least two relevant records the intervals are one fewer than the
   * records, none is negative, and together they span from the earliest
   * occurrence to the latest one.
   */
  lemma RelevantIntervalsSpan(relevant: seq<MaintenanceHistory>)
    requires |relevant| >= 2
    ensures var ts := OccurrenceTicks(relevant);
            var intervals := Gaps(SortTicks(ts));
            && |intervals| == |relevant| - 1
            && (forall k :: 0 <= k < |intervals| ==> intervals[k] >= 0)
            && Sum(intervals) == Latest(ts) - SortTicks(ts)[0]
  {
    var ts := OccurrenceTicks(relevant);
    SortTicksSpec(ts);
    LatestIsLastSorted(ts);
    SortedGapsNonNegative(SortTicks(ts));
    GapsTelescope(SortTicks(ts));
  }

  // ----- The lines of the request ------------------------------------------------------

  /** Lines 91-99: the title and the work order. */
  function HeaderLines(wo: WorkOrder): seq<ContextLine> {
    [Plain("# Predictive Maintenance Analysis Request"),
     Plain(""),
     Plain("## Work Order Information"),
     Plain("- Work Order ID: " + wo.id),
     Plain("- Machine ID: " + wo.machineId),
     Plain("- Fault Type: " + wo.faultType),
     Plain("- Priority: " + wo.priority),
     Plain("- Estimated Duration: " + IntToString(wo.estimatedDurationMinutes) + " minutes"),
     Plain("")]
  }

  const HistoryHeading: string := "## Historical Maintenance Data"
  const Warning: string := "\U{26A0}\U{FE0F}"
  const NoHistoryWarning: string := Warning + "  No historical maintenance data available for this machine."
  const NoHistoryNote: string := "Risk assessment will be based on fault type and priority only."
  const RecentHeading: string := "**Recent maintenance events (all types):**"

  /** The MTBF, the days since the last failure and the cycle progress, for at least one relevant record. */
  function FailureCycleLines(relevant: seq<MaintenanceHistory>, now: DateTime): seq<ContextLine>
    requires |relevant| > 0
  {
    var intervals := Gaps(SortTicks(OccurrenceTicks(relevant)));
    var elapsed := now.ticks - Latest(OccurrenceTicks(relevant));
    [MeanTimeBetweenFailures(intervals), DaysSinceLast(elapsed), CycleProgress(elapsed, intervals)]
  }

  /** Lines 108-135: what the records of the same fault type show. */
  function SimilarFaultLines(faultType: string, relevant: seq<MaintenanceHistory>, now: DateTime): seq<ContextLine> {
    if |relevant| > 0 then
      [Plain("**Similar fault type (" + faultType + "):**"),
       Plain("- Occurrences: " + NatToString(|relevant|)),
       AverageDowntime(Downtimes(relevant)),
       AverageCost(Costs(relevant))]
      + (if |relevant| >= 2 then FailureCycleLines(relevant, now) else [])
    else
      [Plain("**No previous occurrences of " + faultType + " fault type.**")]
  }

  function EventLine(record: MaintenanceHistory): seq<ContextLine> {
    [RecentEvent(record)]
  }

  /** Lines 102-148: the body of the history section. */
  function HistoryBody(wo: WorkOrder, history: seq<MaintenanceHistory>, now: DateTime): seq<ContextLine> {
    if |history| > 0 then
      [Plain("Total maintenance events: " + NatToString(|history|)), Plain("")]
      + SimilarFaultLines(wo.faultType, Relevant(history, wo.faultType), now)
      + [Plain(""), Plain(RecentHeading)]
      + ConcatMap(Take(history, 5), EventLine)
    else
      [Plain(NoHistoryWarning), Plain(NoHistoryNote)]
  }

  const WindowsHeading: string := "## Available Maintenance Windows (Next 14 Days)"
  const NoWindowsWarning: string := Warning + "  No maintenance windows available in the next 14 days!"
  const NoWindowsNote: string := "You may need to recommend urgent scheduling outside normal windows."

  function WindowLines(w: MaintenanceWindow): seq<ContextLine> {
    [WindowSpan(w), Plain("  * Production Impact: " + w.productionImpact), Plain("  * Window ID: " + w.id)]
  }

  /** Lines 152-166: the body of the windows section. */
  function WindowBody(windows: seq<MaintenanceWindow>): seq<ContextLine> {
    if |windows| > 0 then ConcatMap(Take(windows, 10), WindowLines)
    else [Plain(NoWindowsWarning), Plain(NoWindowsNote)]
  }

  /** A heading, its body and the blank line after it. */
  function Block(heading: string, body: seq<ContextLine>): seq<ContextLine> {
    [Plain(heading)] + body + [Plain("")]
  }

  // Lines 169-206, the fixed request for analysis and the JSON shape.
  const RiskSteps: seq<ContextLine> := [
    Plain("## Analysis Required"),
    Plain("Based on the above information, please:"),
    Plain("1. Calculate a risk score (0-100) considering:"),
    Plain("   - Work order priority (CRITICAL=100, HIGH=75, MEDIUM=50, LOW=25 base)"),
    Plain("   - Time since last similar failure vs MTBF"),
    Plain("   - Historical downtime and cost impact"),
    Plain("")]
  const ProbabilitySteps: seq<ContextLine> := [
    Plain("2. Estimate failure probability (0.0-1.0) based on:"),
    Plain("   - Fault type history"),
    Plain("   - Cycle progress toward MTBF"),
    Plain("   - Machine age and usage patterns"),
    Plain("")]
  const WindowSteps: seq<ContextLine> := [
    Plain("3. Select the optimal maintenance window considering:"),
    Plain("   - Urgency from risk score (>80=IMMEDIATE, >50=URGENT, <=50=SCHEDULED)"),
    Plain("   - Production impact (prefer Low, then Medium, then High)"),
    Plain("   - Window duration vs estimated maintenance time"),
    Plain("")]
  const ActionSteps: seq<ContextLine> := [
    Plain("4. Recommend action: IMMEDIATE, URGENT, or SCHEDULED"),
    Plain(""),
    Plain("5. Provide detailed reasoning for your recommendations"),
    Plain("")]
  const JsonHead: seq<ContextLine> := [
    Plain("Please respond in JSON format:"),
    Plain("```json"),
    Plain("{"),
    Plain("  \"scheduledDate\": \"<ISO datetime of selected window start>\","),
    Plain("  \"maintenanceWindow\": {"),
    Plain("    \"id\": \"<selected window ID>\","),
    Plain("    \"startTime\": \"<ISO datetime>\",")]
  const JsonMiddle: seq<ContextLine> := [
    Plain("    \"endTime\": \"<ISO datetime>\","),
    Plain("    \"productionImpact\": \"<Low|Medium|High>\","),
    Plain("    \"isAvailable\": true"),
    Plain("  },"),
    Plain("  \"riskScore\": <number 0-100>,"),
    Plain("  \"predictedFailureProbability\": <number 0.0-1.0>,"),
    Plain("  \"recommendedAction\": \"<IMMEDIATE|URGENT|SCHEDULED>\",")]
  const JsonTail: seq<ContextLine> := [
    Plain("  \"reasoning\": \"<detailed explanation of your analysis and recommendations>\""),
    Plain("}"),
    Plain("```")]

  function AnalysisLines(): seq<ContextLine> {
    RiskSteps + ProbabilitySteps + WindowSteps + ActionSteps + JsonHead + JsonMiddle + JsonTail
  }

  function ListingLines(wo: WorkOrder, history: seq<MaintenanceHistory>, windows: seq<MaintenanceWindow>, now: DateTime): seq<ContextLine> {
    HeaderLines(wo) + Block(HistoryHeading, HistoryBody(wo, history, now)) + Block(WindowsHeading, WindowBody(windows))
  }

  /** The whole request, `now` standing for the `DateTime.UtcNow` it reads. */
  function PredictiveContextLines(wo: WorkOrder, history: seq<MaintenanceHistory>, windows: seq<MaintenanceWindow>, now: DateTime): seq<ContextLine> {
    ListingLines(wo, history, windows, now) + AnalysisLines()
  }

  // ----- What the request lists -------------------------------------------------------

  /** The values `pick` finds in the lines, in order. */
  function Collect<T>(ls: seq<ContextLine>, pick: ContextLine -> Option<T>): seq<T> {
    if |ls| == 0 then []
    else
      Collect(ls[..|ls| - 1], pick)
      + (match pick(ls[|ls| - 1]) case Some(v) => [v] case None => [])
  }

  lemma {:induction false} CollectAppend<T>(a: seq<ContextLine>, b: seq<ContextLine>, pick: ContextLine -> Option<T>)
    ensures Collect(a + b, pick) == Collect(a, pick) + Collect(b, pick)
    decreases |b|
  {
    if |b| > 0 {
      var front := b[..|b| - 1];
      assert (a + b)[..|a + b| - 1] == a + front;
      assert (a + b)[|a + b| - 1] == b[|b| - 1];
      CollectAppend(a, front, pick);
      var last := match pick(b[|b| - 1]) case Some(v) => [v] case None => [];
      Associative(Collect(a, pick), Collect(front, pick), last);
    } else {
      assert a + b == a;
    }
  }

  /** When every element's lines show just that element, the lines of all of them show them all, in order. */
  lemma {:induction false} CollectConcatMap<T>(xs: seq<T>, f: T -> seq<ContextLine>, pick: ContextLine -> Option<T>)
    requires forall x :: Collect(f(x), pick) == [x]
    ensures Collect(ConcatMap(xs, f), pick) == xs
    decreases |xs|
  {
    if |xs| > 0 {
      var front := xs[..|xs| - 1];
      CollectConcatMap(front, f, pick);
      CollectAppend(ConcatMap(front, f), f(xs[|xs| - 1]), pick);
    }
  }

  function EventOf(l: ContextLine): Option<MaintenanceHistory> {
    if l.RecentEvent? then Some(l.record) else None
  }

  function WindowOf(l: ContextLine): Option<MaintenanceWindow> {
    if l.WindowSpan? then Some(l.window) else None
  }

  function IntervalsOf(l: ContextLine): Option<seq<int>> {
    if l.MeanTimeBetweenFailures? then Some(l.intervalTicks) else None
  }

  /** A picker that finds nothing in any line finds nothing in all of them. */
  lemma {:induction false} CollectNone<T>(ls: seq<ContextLine>, pick: ContextLine -> Option<T>)
    requires forall i :: 0 <= i < |ls| ==> pick(ls[i]).None?
    ensures Collect(ls, pick) == []
    decreases |ls|
  {
    if |ls| > 0 {
      CollectNone(ls[..|ls| - 1], pick);
    }
  }

  /** When no element's lines show anything, the lines of all of them show nothing. */
  lemma {:induction false} CollectConcatMapNone<T, U>(xs: seq<T>, f: T -> seq<ContextLine>, pick: ContextLine -> Option<U>)
    requires forall x :: Collect(f(x), pick) == []
    ensures Collect(ConcatMap(xs, f), pick) == []
    decreases |xs|
  {
    if |xs| > 0 {
      var front := xs[..|xs| - 1];
      CollectConcatMapNone(front, f, pick);
      CollectAppend(ConcatMap(front, f), f(xs[|xs| - 1]), pick);
    }
  }

  predicate AllPlain(ls: seq<ContextLine>) {
    forall i :: 0 <= i < |ls| ==> ls[i].Plain?
  }

  /** A picker that ignores plain text finds nothing in plain lines. */
  lemma {:induction false} PlainCollectsNothing<T>(ls: seq<ContextLine>, pick: ContextLine -> Option<T>)
    requires AllPlain(ls) && forall t :: pick(Plain(t)).None?
    ensures Collect(ls, pick) == []
    decreases |ls|
  {
    if |ls| > 0 {
      var last := ls[|ls| - 1];
      assert last == Plain(last.text);
      PlainCollectsNothing(ls[..|ls| - 1], pick);
    }
  }

  lemma AnalysisPlain()
    ensures AllPlain(AnalysisLines())
  {
    assert AllPlain(RiskSteps) && AllPlain(ProbabilitySteps) && AllPlain(WindowSteps) && AllPlain(ActionSteps);
    assert AllPlain(JsonHead) && AllPlain(JsonMiddle) && AllPlain(JsonTail);
  }

  lemma AnalysisCollectsNothing<T>(pick: ContextLine -> Option<T>)
    requires forall t :: pick(Plain(t)).None?
    ensures Collect(AnalysisLines(), pick) == []
  {
    AnalysisPlain();
    PlainCollectsNothing(AnalysisLines(), pick);
  }

  lemma BlockCollect<T>(heading: string, body: seq<ContextLine>, pick: ContextLine -> Option<T>)
    requires forall t :: pick(Plain(t)).None?
    ensures Collect(Block(heading, body), pick) == Collect(body, pick)
  {
    PlainCollectsNothing([Plain(heading)], pick);
    PlainCollectsNothing([Plain("")], pick);
    CollectAppend([Plain(heading)], body, pick);
    CollectAppend([Plain(heading)] + body, [Plain("")], pick);
  }

  lemma HeaderCollectsNothing<T>(wo: WorkOrder, pick: ContextLine -> Option<T>)
    requires forall t :: pick(Plain(t)).None?
    ensures Collect(HeaderLines(wo), pick) == []
  {
    HeaderPlain(wo);
    PlainCollectsNothing(HeaderLines(wo), pick);
  }

  lemma HeaderPlain(wo: WorkOrder)
    ensures AllPlain(HeaderLines(wo))
  {
  }

  lemma SectionsCollect<T>(header: seq<ContextLine>, h: seq<ContextLine>, w: seq<ContextLine>, pick: ContextLine -> Option<T>)
    requires forall t :: pick(Plain(t)).None?
    requires Collect(header, pick) == []
    ensures Collect(header + Block(HistoryHeading, h) + Block(WindowsHeading, w), pick)
            == Collect(h, pick) + Collect(w, pick)
  {
    BlockCollect(HistoryHeading, h, pick);
    BlockCollect(WindowsHeading, w, pick);
    CollectAppend(header, Block(HistoryHeading, h), pick);
    CollectAppend(header + Block(HistoryHeading, h), Block(WindowsHeading, w), pick);
  }

  lemma ListingCollect<T>(wo: WorkOrder, history: seq<MaintenanceHistory>, windows: seq<MaintenanceWindow>, now: DateTime,
                          pick: ContextLine -> Option<T>)
    requires forall t :: pick(Plain(t)).None?
    ensures Collect(ListingLines(wo, history, windows, now), pick)
            == Collect(HistoryBody(wo, history, now), pick) + Collect(WindowBody(windows), pick)
  {
    HeaderCollectsNothing(wo, pick);
    SectionsCollect(HeaderLines(wo), HistoryBody(wo, history, now), WindowBody(windows), pick);
  }

  /**
   * Whatever a picker that ignores plain text finds in the request, it finds in
   * the history and window sections, in that order.
   */
  lemma ContextCollect<T>(wo: WorkOrder, history: seq<MaintenanceHistory>, windows: seq<MaintenanceWindow>, now: DateTime,
                          pick: ContextLine -> Option<T>)
    requires forall t :: pick(Plain(t)).None?
    ensures Collect(PredictiveContextLines(wo, history, windows, now), pick)
            == Collect(HistoryBody(wo, history, now), pick) + Collect(WindowBody(windows), pick)
  {
    ListingCollect(wo, history, windows, now, pick);
    AnalysisCollectsNothing(pick);
    CollectAppend(ListingLines(wo, history, windows, now), AnalysisLines(), pick);
  }

  /** The history section lists the first five records, in order, and nothing else. */
  lemma HistoryEvents(wo: WorkOrder, history: seq<MaintenanceHistory>, now: DateTime)
    ensures Collect(HistoryBody(wo, history, now), EventOf) == Take(history, 5)
  {
    if |history| > 0 {
      var similar := SimilarFaultLines(wo.faultType, Relevant(history, wo.faultType), now);
      var front := [Plain("Total maintenance events: " + NatToString(|history|)), Plain("")];
      var middle := [Plain(""), Plain(RecentHeading)];
      CollectNone(front, EventOf);
      CollectNone(similar, EventOf);
      CollectNone(middle, EventOf);
      forall x | true ensures Collect(EventLine(x), EventOf) == [x] {
        assert EventLine(x)[..0] == [];
      }
      CollectConcatMap(Take(history, 5), EventLine, EventOf);
      CollectAppend(front, similar, EventOf);
      CollectAppend(front + similar, middle, EventOf);
      CollectAppend(front + similar + middle, ConcatMap(Take(history, 5), EventLine), EventOf);
    } else {
      CollectNone(HistoryBody(wo, history, now), EventOf);
    }
  }

  /** The window section shows no history record. */
  lemma WindowBodyEvents(windows: seq<MaintenanceWindow>)
    ensures Collect(WindowBody(windows), EventOf) == []
  {
    forall x | true ensures Collect(WindowLines(x), EventOf) == [] {
      CollectNone(WindowLines(x), EventOf);
    }
    if |windows| > 0 {
      CollectConcatMapNone(Take(windows, 10), WindowLines, EventOf);
    } else {
      CollectNone(WindowBody(windows), EventOf);
    }
  }

  /** The request lists exactly the first five history records, in order. */
  lemma ContextEvents(wo: WorkOrder, history: seq<MaintenanceHistory>, windows: seq<MaintenanceWindow>, now: DateTime)
    ensures Collect(PredictiveContextLines(wo, history, windows, now), EventOf) == Take(history, 5)
  {
    ContextCollect(wo, history, windows, now, EventOf);
    HistoryEvents(wo, history, now);
    WindowBodyEvents(windows);
  }

  lemma WindowLinesShowWindow(w: MaintenanceWindow)
    ensures Collect(WindowLines(w), WindowOf) == [w]
  {
    var first := [WindowSpan(w)];
    var others := [Plain("  * Production Impact: " + w.productionImpact), Plain("  * Window ID: " + w.id)];
    assert WindowLines(w) == first + others;
    assert first[..0] == [];
    CollectNone(others, WindowOf);
    CollectAppend(first, others, WindowOf);
  }

  /** The window section lists the first ten windows, in order. */
  lemma WindowBodyWindows(windows: seq<MaintenanceWindow>)
    ensures Collect(WindowBody(windows), WindowOf) == Take(windows, 10)
  {
    if |windows| > 0 {
      forall x | true ensures Collect(WindowLines(x), WindowOf) == [x] {
        WindowLinesShowWindow(x);
      }
      CollectConcatMap(Take(windows, 10), WindowLines, WindowOf);
    } else {
      CollectNone(WindowBody(windows), WindowOf);
    }
  }

  /** The lines of the history section that are not records, for a non-empty history. */
  lemma HistoryBodyParts(wo: WorkOrder, history: seq<MaintenanceHistory>, now: DateTime)
    requires |history| > 0
    ensures HistoryBody(wo, history, now)
            == [Plain("Total maintenance events: " + NatToString(|history|)), Plain("")]
               + SimilarFaultLines(wo.faultType, Relevant(history, wo.faultType), now)
               + [Plain(""), Plain(RecentHeading)]
               + ConcatMap(Take(history, 5), EventLine)
  {
  }

  lemma MiddleCollect<T>(front: seq<ContextLine>, m: seq<ContextLine>, middle: seq<ContextLine>, events: seq<ContextLine>,
                         pick: ContextLine -> Option<T>)
    requires Collect(front, pick) == [] && Collect(middle, pick) == [] && Collect(events, pick) == []
    ensures Collect(front + m + middle + events, pick) == Collect(m, pick)
  {
    CollectAppend(front, m, pick);
    CollectAppend(front + m, middle, pick);
    CollectAppend(front + m + middle, events, pick);
  }

  lemma HistoryBodyWindows(wo: WorkOrder, history: seq<MaintenanceHistory>, now: DateTime)
    ensures Collect(HistoryBody(wo, history, now), WindowOf) == []
  {
    if |history| > 0 {
      var similar := SimilarFaultLines(wo.faultType, Relevant(history, wo.faultType), now);
      var front := [Plain("Total maintenance events: " + NatToString(|history|)), Plain("")];
      var middle := [Plain(""), Plain(RecentHeading)];
      forall x | true ensures Collect(EventLine(x), WindowOf) == [] {
        CollectNone(EventLine(x), WindowOf);
      }
      CollectConcatMapNone(Take(history, 5), EventLine, WindowOf);
      CollectNone(front, WindowOf);
      CollectNone(middle, WindowOf);
      CollectNone(similar, WindowOf);
      HistoryBodyParts(wo, history, now);
      MiddleCollect(front, similar, middle, ConcatMap(Take(history, 5), EventLine), WindowOf);
    } else {
      CollectNone(HistoryBody(wo, history, now), WindowOf);
    }
  }

  /** The request lists exactly the first ten maintenance windows, in order. */
  lemma ContextWindows(wo: WorkOrder, history: seq<MaintenanceHistory>, windows: seq<MaintenanceWindow>, now: DateTime)
    ensures Collect(PredictiveContextLines(wo, history, windows, now), WindowOf) == Take(windows, 10)
  {
    ContextCollect(wo, history, windows, now, WindowOf);
    HistoryBodyWindows(wo, history, now);
    WindowBodyWindows(windows);
  }

  /** The intervals of the sorted dates of the relevant records. */
  function RelevantIntervals(history: seq<MaintenanceHistory>, faultType: string): seq<int> {
    Gaps(SortTicks(OccurrenceTicks(Relevant(history, faultType))))
  }

  lemma SimilarIntervals(faultType: string, relevant: seq<MaintenanceHistory>, now: DateTime)
    ensures Collect(SimilarFaultLines(faultType, relevant, now), IntervalsOf)
            == if |relevant| >= 2 then [Gaps(SortTicks(OccurrenceTicks(relevant)))] else []
  {
    if |relevant| > 0 {
      var counts := [Plain("**Similar fault type (" + faultType + "):**"),
                     Plain("- Occurrences: " + NatToString(|relevant|)),
                     AverageDowntime(Downtimes(relevant)),
                     AverageCost(Costs(relevant))];
      CollectNone(counts, IntervalsOf);
      if |relevant| >= 2 {
        var cycle := FailureCycleLines(relevant, now);
        var first := [cycle[0]];
        var others := [cycle[1], cycle[2]];
        assert cycle == first + others;
        assert first[..0] == [];
        CollectNone(others, IntervalsOf);
        CollectAppend(first, others, IntervalsOf);
        CollectAppend(counts, cycle, IntervalsOf);
      } else {
        CollectNone(SimilarFaultLines(faultType, relevant, now), IntervalsOf);
      }
    } else {
      CollectNone(SimilarFaultLines(faultType, relevant, now), IntervalsOf);
    }
  }

  lemma WindowBodyIntervals(windows: seq<MaintenanceWindow>)
    ensures Collect(WindowBody(windows), IntervalsOf) == []
  {
    forall x | true ensures Collect(WindowLines(x), IntervalsOf) == [] {
      CollectNone(WindowLines(x), IntervalsOf);
    }
    if |windows| > 0 {
      CollectConcatMapNone(Take(windows, 10), WindowLines, IntervalsOf);
    } else {
      CollectNone(WindowBody(windows), IntervalsOf);
    }
  }

  lemma HistoryBodyIntervals(wo: WorkOrder, history: seq<MaintenanceHistory>, now: DateTime)
    ensures Collect(HistoryBody(wo, history, now), IntervalsOf)
            == if |Relevant(history, wo.faultType)| >= 2 then [RelevantIntervals(history, wo.faultType)] else []
  {
    if |history| > 0 {
      var similar := SimilarFaultLines(wo.faultType, Relevant(history, wo.faultType), now);
      var front := [Plain("Total maintenance events: " + NatToString(|history|)), Plain("")];
      var middle := [Plain(""), Plain(RecentHeading)];
      forall x | true ensures Collect(EventLine(x), IntervalsOf) == [] {
        CollectNone(EventLine(x), IntervalsOf);
      }
      CollectConcatMapNone(Take(history, 5), EventLine, IntervalsOf);
      CollectNone(front, IntervalsOf);
      CollectNone(middle, IntervalsOf);
      SimilarIntervals(wo.faultType, Relevant(history, wo.faultType), now);
      HistoryBodyParts(wo, history, now);
      MiddleCollect(front, similar, middle, ConcatMap(Take(history, 5), EventLine), IntervalsOf);
    } else {
      CollectNone(HistoryBody(wo, history, now), IntervalsOf);
    }
  }

  /**
   * The request shows a mean time between failures exactly when at least two
   * records share the work order's fault type, and then computes it from the
   * gaps between their sorted dates.
   */
  lemma ContextIntervals(wo: WorkOrder, history: seq<MaintenanceHistory>, windows: seq<MaintenanceWindow>, now: DateTime)
    ensures Collect(PredictiveContextLines(wo, history, windows, now), IntervalsOf)
            == if |Relevant(history, wo.faultType)| >= 2 then [RelevantIntervals(history, wo.faultType)] else []
  {
    ContextCollect(wo, history, windows, now, IntervalsOf);
    HistoryBodyIntervals(wo, history, now);
    WindowBodyIntervals(windows);
  }

  // ----- The notices for missing data ------------------------------------------------

  lemma NotWarning(prefix: string, rest: string)
    requires |prefix| > 0 && prefix[0] != Warning[0]
    ensures Plain(prefix + rest) != Plain(NoHistoryWarning) && Plain(prefix + rest) != Plain(NoWindowsWarning)
  {
    assert (prefix + rest)[0] == prefix[0];
  }

  lemma SimilarHasNoWarning(faultType: string, relevant: seq<MaintenanceHistory>, now: DateTime)
    ensures Plain(NoHistoryWarning) !in SimilarFaultLines(faultType, relevant, now)
  {
    NotWarning("**Similar fault type (", faultType + "):**");
    NotWarning("- Occurrences: ", NatToString(|relevant|));
    NotWarning("**No previous occurrences of ", faultType + " fault type.**");
    assert "**Similar fault type (" + faultType + "):**" == "**Similar fault type (" + (faultType + "):**");
    assert "**No previous occurrences of " + faultType + " fault type.**"
        == "**No previous occurrences of " + (faultType + " fault type.**");
  }

  /** The history section carries the "no historical data" notice exactly when there is no history. */
  lemma HistoryWarning(wo: WorkOrder, history: seq<MaintenanceHistory>, now: DateTime)
    ensures Plain(NoHistoryWarning) in HistoryBody(wo, history, now) <==> |history| == 0
  {
    if |history| > 0 {
      HistoryBodyParts(wo, history, now);
      NotWarning("Total maintenance events: ", NatToString(|history|));
      NotWarning(RecentHeading, "");
      assert RecentHeading + "" == RecentHeading;
      assert Plain("") != Plain(NoHistoryWarning);
      SimilarHasNoWarning(wo.faultType, Relevant(history, wo.faultType), now);
      if Plain(NoHistoryWarning) in ConcatMap(Take(history, 5), EventLine) {
        ConcatMapMember(Take(history, 5), EventLine, Plain(NoHistoryWarning));
        assert false;
      }
    }
  }

  /** The window section carries the "no windows" notice exactly when no window is available. */
  lemma WindowsWarning(windows: seq<MaintenanceWindow>)
    ensures Plain(NoWindowsWarning) in WindowBody(windows) <==> |windows| == 0
  {
    if |windows| > 0 && Plain(NoWindowsWarning) in WindowBody(windows) {
      ConcatMapMember(Take(windows, 10), WindowLines, Plain(NoWindowsWarning));
      var w :| w in Take(windows, 10) && Plain(NoWindowsWarning) in WindowLines(w);
      NotWarning("  * Production Impact: ", w.productionImpact);
      NotWarning("  * Window ID: ", w.id);
      assert false;
    }
  }

  // ----- Writing the request -----------------------------------------------------------

  /**
   * The `StringBuilder` of `BuildPredictiveContext`, holding the lines appended
   * so far with their figures unformatted.
   */
  class ContextBuilder {
    var lines: seq<ContextLine>

    constructor ()
      ensures lines == []
    {
      lines := [];
    }

    method AppendLine(l: ContextLine)
      modifies this
      ensures lines == old(lines) + [l]
    {
      lines := lines + [l];
    }
  }

  /** `BuildPredictiveContext`: the request for a work order, its machine's history and the open windows. */
  method BuildPredictiveContext(wo: WorkOrder, history: seq<MaintenanceHistory>, windows: seq<MaintenanceWindow>, now: DateTime)
    returns (context: seq<ContextLine>)
    ensures context == PredictiveContextLines(wo, history, windows, now)
  {
    var sb := new ContextBuilder();
    AppendHeader(sb, wo);
    AppendHistory(sb, wo, history, now);
    AppendWindows(sb, windows);
    assert [] + HeaderLines(wo) == HeaderLines(wo);
    assert sb.lines == ListingLines(wo, history, windows, now);
    AppendAnalysis(sb);
    context := sb.lines;
  }

  method AppendHeader(sb: ContextBuilder, wo: WorkOrder)
    modifies sb
    ensures sb.lines == old(sb.lines) + HeaderLines(wo)
  {
    sb.AppendLine(Plain("# Predictive Maintenance Analysis Request"));
    sb.AppendLine(Plain(""));
    sb.AppendLine(Plain("## Work Order Information"));
    sb.AppendLine(Plain("- Work Order ID: " + wo.id));
    sb.AppendLine(Plain("- Machine ID: " + wo.machineId));
    sb.AppendLine(Plain("- Fault Type: " + wo.faultType));
    sb.AppendLine(Plain("- Priority: " + wo.priority));
    sb.AppendLine(Plain("- Estimated Duration: " + IntToString(wo.estimatedDurationMinutes) + " minutes"));
    sb.AppendLine(Plain(""));
  }

  method AppendHistory(sb: ContextBuilder, wo: WorkOrder, history: seq<MaintenanceHistory>, now: DateTime)
    modifies sb
    ensures sb.lines == old(sb.lines) + Block(HistoryHeading, HistoryBody(wo, history, now))
  {
    sb.AppendLine(Plain(HistoryHeading));
    if |history| > 0 {
      AppendHistoryRecords(sb, wo, history, now);
    } else {
      sb.AppendLine(Plain(NoHistoryWarning));
      sb.AppendLine(Plain(NoHistoryNote));
    }
    sb.AppendLine(Plain(""));
    Associative(old(sb.lines), [Plain(HistoryHeading)], HistoryBody(wo, history, now));
  }

  method AppendHistoryRecords(sb: ContextBuilder, wo: WorkOrder, history: seq<MaintenanceHistory>, now: DateTime)
    requires |history| > 0
    modifies sb
    ensures sb.lines == old(sb.lines) + HistoryBody(wo, history, now)
  {
    sb.AppendLine(Plain("Total maintenance events: " + NatToString(|history|)));
    sb.AppendLine(Plain(""));
    var relevant := Relevant(history, wo.faultType);
    AppendSimilarFault(sb, wo.faultType, relevant, now);
    sb.AppendLine(Plain(""));
    sb.AppendLine(Plain(RecentHeading));
    AppendRecentEvents(sb, Take(history, 5));
    HistoryBodyParts(wo, history, now);
    JoinBody(old(sb.lines), [Plain("Total maintenance events: " + NatToString(|history|)), Plain("")],
             SimilarFaultLines(wo.faultType, relevant, now), [Plain(""), Plain(RecentHeading)],
             ConcatMap(Take(history, 5), EventLine));
  }

  lemma JoinBody(start: seq<ContextLine>, a: seq<ContextLine>, b: seq<ContextLine>, c: seq<ContextLine>, d: seq<ContextLine>)
    ensures start + a + b + c + d == start + (a + b + c + d)
  {
  }

  method AppendSimilarFault(sb: ContextBuilder, faultType: string, relevant: seq<MaintenanceHistory>, now: DateTime)
    modifies sb
    ensures sb.lines == old(sb.lines) + SimilarFaultLines(faultType, relevant, now)
  {
    if |relevant| > 0 {
      sb.AppendLine(Plain("**Similar fault type (" + faultType + "):**"));
      sb.AppendLine(Plain("- Occurrences: " + NatToString(|relevant|)));
      sb.AppendLine(AverageDowntime(Downtimes(relevant)));
      sb.AppendLine(AverageCost(Costs(relevant)));
      if |relevant| >= 2 {
        AppendFailureCycle(sb, relevant, now);
      }
    } else {
      sb.AppendLine(Plain("**No previous occurrences of " + faultType + " fault type.**"));
    }
  }

  method AppendFailureCycle(sb: ContextBuilder, relevant: seq<MaintenanceHistory>, now: DateTime)
    requires |relevant| > 0
    modifies sb
    ensures sb.lines == old(sb.lines) + FailureCycleLines(relevant, now)
  {
    var dates := SortTicks(OccurrenceTicks(relevant));
    var intervals := FailureIntervals(dates);
    var elapsed := now.ticks - Latest(OccurrenceTicks(relevant));
    sb.AppendLine(MeanTimeBetweenFailures(intervals));
    sb.AppendLine(DaysSinceLast(elapsed));
    sb.AppendLine(CycleProgress(elapsed, intervals));
  }

  method AppendRecentEvents(sb: ContextBuilder, records: seq<MaintenanceHistory>)
    modifies sb
    ensures sb.lines == old(sb.lines) + ConcatMap(records, EventLine)
  {
    ghost var start := sb.lines;
    for i := 0 to |records|
      invariant sb.lines == start + ConcatMap(records[..i], EventLine)
    {
      sb.AppendLine(RecentEvent(records[i]));
      ConcatMapSnoc(records, i, EventLine);
      Associative(start, ConcatMap(records[..i], EventLine), EventLine(records[i]));
    }
    assert records[..|records|] == records;
  }

  method AppendWindows(sb: ContextBuilder, windows: seq<MaintenanceWindow>)
    modifies sb
    ensures sb.lines == old(sb.lines) + Block(WindowsHeading, WindowBody(windows))
  {
    sb.AppendLine(Plain(WindowsHeading));
    ghost var start := sb.lines;
    if |windows| > 0 {
      var shown := Take(windows, 10);
      for i := 0 to |shown|
        invariant sb.lines == start + ConcatMap(shown[..i], WindowLines)
      {
        AppendWindow(sb, shown[i]);
        ConcatMapSnoc(shown, i, WindowLines);
        Associative(start, ConcatMap(shown[..i], WindowLines), WindowLines(shown[i]));
      }
      assert shown[..|shown|] == shown;
    } else {
      sb.AppendLine(Plain(NoWindowsWarning));
      sb.AppendLine(Plain(NoWindowsNote));
    }
    sb.AppendLine(Plain(""));
    Associative(old(sb.lines), [Plain(WindowsHeading)], WindowBody(windows));
  }

  method AppendWindow(sb: ContextBuilder, w: MaintenanceWindow)
    modifies sb
    ensures sb.lines == old(sb.lines) + WindowLines(w)
  {
    sb.AppendLine(WindowSpan(w));
    sb.AppendLine(Plain("  * Production Impact: " + w.productionImpact));
    sb.AppendLine(Plain("  * Window ID: " + w.id));
  }

  method AppendAnalysis(sb: ContextBuilder)
    modifies sb
    ensures sb.lines == old(sb.lines) + AnalysisLines()
  {
    ghost var l0 := sb.lines;
    AppendRiskSteps(sb);
    AppendProbabilitySteps(sb);
    AppendWindowSteps(sb);
    AppendActionSteps(sb);
    AppendJsonHead(sb);
    AppendJsonMiddle(sb);
    AppendJsonTail(sb);
    JoinChunks(l0, RiskSteps, ProbabilitySteps, WindowSteps, ActionSteps, JsonHead, JsonMiddle, JsonTail);
  }

  lemma JoinChunks(l0: seq<ContextLine>, a: seq<ContextLine>, b: seq<ContextLine>, c: seq<ContextLine>, d: seq<ContextLine>,
                   e: seq<ContextLine>, f: seq<ContextLine>, g: seq<ContextLine>)
    ensures l0 + a + b + c + d + e + f + g == l0 + (a + b + c + d + e + f + g)
  {
  }

  method AppendRiskSteps(sb: ContextBuilder)
    modifies sb
    ensures sb.lines == old(sb.lines) + RiskSteps
  {
    sb.AppendLine(Plain("## Analysis Required"));
    sb.AppendLine(Plain("Based on the above information, please:"));
    sb.AppendLine(Plain("1. Calculate a risk score (0-100) considering:"));
    sb.AppendLine(Plain("   - Work order priority (CRITICAL=100, HIGH=75, MEDIUM=50, LOW=25 base)"));
    sb.AppendLine(Plain("   - Time since last similar failure vs MTBF"));
    sb.AppendLine(Plain("   - Historical downtime and cost impact"));
    sb.AppendLine(Plain(""));
  }

  method AppendProbabilitySteps(sb: ContextBuilder)
    modifies sb
    ensures sb.lines == old(sb.lines) + ProbabilitySteps
  {
    sb.AppendLine(Plain("2. Estimate failure probability (0.0-1.0) based on:"));
    sb.AppendLine(Plain("   - Fault type history"));
    sb.AppendLine(Plain("   - Cycle progress toward MTBF"));
    sb.AppendLine(Plain("   - Machine age and usage patterns"));
    sb.AppendLine(Plain(""));
  }

  method AppendWindowSteps(sb: ContextBuilder)
    modifies sb
    ensures sb.lines == old(sb.lines) + WindowSteps
  {
    sb.AppendLine(Plain("3. Select the optimal maintenance window considering:"));
    sb.AppendLine(Plain("   - Urgency from risk score (>80=IMMEDIATE, >50=URGENT, <=50=SCHEDULED)"));
    sb.AppendLine(Plain("   - Production impact (prefer Low, then Medium, then High)"));
    sb.AppendLine(Plain("   - Window duration vs estimated maintenance time"));
    sb.AppendLine(Plain(""));
  }

  method AppendActionSteps(sb: ContextBuilder)
    modifies sb
    ensures sb.lines == old(sb.lines) + ActionSteps
  {
    sb.AppendLine(Plain("4. Recommend action: IMMEDIATE, URGENT, or SCHEDULED"));
    sb.AppendLine(Plain(""));
    sb.AppendLine(Plain("5. Provide detailed reasoning for your recommendations"));
    sb.AppendLine(Plain(""));
  }

  method AppendJsonHead(sb: ContextBuilder)
    modifies sb
    ensures sb.lines == old(sb.lines) + JsonHead
  {
    sb.AppendLine(Plain("Please respond in JSON format:"));
    sb.AppendLine(Plain("```json"));
    sb.AppendLine(Plain("{"));
    sb.AppendLine(Plain("  \"scheduledDate\": \"<ISO datetime of selected window start>\","));
    sb.AppendLine(Plain("  \"maintenanceWindow\": {"));
    sb.AppendLine(Plain("    \"id\": \"<selected window ID>\","));
    sb.AppendLine(Plain("    \"startTime\": \"<ISO datetime>\","));
  }

  method AppendJsonMiddle(sb: ContextBuilder)
    modifies sb
    ensures sb.lines == old(sb.lines) + JsonMiddle
  {
    sb.AppendLine(Plain("    \"endTime\": \"<ISO datetime>\","));
    sb.AppendLine(Plain("    \"productionImpact\": \"<Low|Medium|High>\","));
    sb.AppendLine(Plain("    \"isAvailable\": true"));
    sb.AppendLine(Plain("  },"));
    sb.AppendLine(Plain("  \"riskScore\": <number 0-100>,"));
    sb.AppendLine(Plain("  \"predictedFailureProbability\": <number 0.0-1.0>,"));
    sb.AppendLine(Plain("  \"recommendedAction\": \"<IMMEDIATE|URGENT|SCHEDULED>\","));
  }

  method AppendJsonTail(sb: ContextBuilder)
    modifies sb
    ensures sb.lines == old(sb.lines) + JsonTail
  {
    sb.AppendLine(Plain("  \"reasoning\": \"<detailed explanation of your analysis and recommendations>\""));
    sb.AppendLine(Plain("}"));
    sb.AppendLine(Plain("```"));
  }
}
