/** The values that flow through the audit worker: the raw metrics record one
    Lighthouse run produces, the outputs of the rule stages, and the final
    report that is stored under the job id and appended to the url's history.
    Message texts of the source that carry emoji or number formatting are
    modelled as tags; their numeric payload is kept as a field. */
module Records {

  datatype Option<+T> = None | Some(value: T)

  /** The optional `deep_audits` object. A key that is absent reads as an
      empty list; each list holds the `wastedBytes` of its entries. */
  datatype DeepAudits = DeepAudits(unusedJs: seq<int>, unusedCss: seq<int>)

  /** The raw record printed by the audit tool. */
  datatype Metrics = Metrics(
    performanceScore: int,
    lcp: real,
    cls: real,
    tbt: real,
    deepAudits: Option<DeepAudits>)

  /** `data.get("deep_audits", {})` with absent lists read as empty. */
  function DeepOf(m: Metrics): DeepAudits
  {
    match m.deepAudits
    case None => DeepAudits([], [])
    case Some(d) => d
  }

  /** One warning of the insights stage. */
  datatype Insight =
    | LowScore                  // performance score very low
    | LcpTooHigh(lcpMs: real)   // LCP too high, with the measured value
    | LayoutShifts              // layout shifts detected
    | HighBlockingTime          // high total blocking time

  /** The issue a suggestion addresses: "Large LCP detected", "Layout shift
      detected", "High JS blocking time". */
  datatype Issue = LargeLcp | LayoutShift | HighJsBlocking

  /** One fix record of the suggestions stage. */
  datatype Suggestion = Suggestion(issue: Issue, fix: string, estimatedImprovementScore: int)

  /** One causal sentence of the explanation stage. */
  datatype Cause =
    | LateRender          // main content renders late
    | LongJsExecution     // long JavaScript execution blocks interaction
    | LayoutShiftCause    // shifts caused by images or dynamic DOM changes
    | UnusedJsLoad        // large unused JS increases load time
    | UnusedCssRender     // unused CSS slows rendering

  datatype DeepIssue = UnusedJavaScript | UnusedCss

  /** One entry of the deep insights stage: "Reduce ~<reduceKb>KB". */
  datatype DeepInsight = DeepInsight(issue: DeepIssue, reduceKb: int)

  /** One remediation snippet; only the LCP snippet has a React variant. */
  datatype CodeFix = CodeFix(issue: string, html: string, react: Option<string>)

  /** The report dictionary. A `None` field is a key the dictionary does not
      hold (yet); `alert` carries the number of points the score dropped by. */
  datatype Report = Report(
    metrics: Metrics,
    insights: Option<seq<Insight>>,
    suggestions: Option<seq<Suggestion>>,
    aiExplanation: Option<seq<Cause>>,
    deepInsights: Option<seq<DeepInsight>>,
    simulation: Option<Report>,
    predictedScore: Option<int>,
    codeFixes: Option<seq<CodeFix>>,
    alert: Option<int>)

  /** The report as parsed from the audit tool's output, before any stage ran. */
  function RawReport(m: Metrics): Report
  {
    Report(m, None, None, None, None, None, None, None, None)
  }

  /** A queued audit job. */
  datatype Job = Job(id: string, url: string)
}
