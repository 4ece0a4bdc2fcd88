/** The "after fix" projection: a copy of the report in which lcp is halved
    once per LCP suggestion and cls is scaled by 0.3 once per layout-shift
    suggestion. Nothing else, tbt included, is touched. */
module Simulation {
  import opened Records
  import opened Rules

  const LCP_FACTOR: real := 0.5
  const CLS_FACTOR: real := 0.3

  /** `b` multiplied by itself `n` times. */
  function Power(b: real, n: nat): real
  {
    if n == 0 then 1.0 else Power(b, n - 1) * b
  }

  /** The projected report: the input with lcp scaled by 0.5 per
      "Large LCP detected" suggestion and cls by 0.3 per "Layout shift
      detected" suggestion. */
  function Simulated(data: Report, suggestions: seq<Suggestion>): Report
  {
    data.(metrics := data.metrics.(
      lcp := data.metrics.lcp * Power(LCP_FACTOR, CountIssue(suggestions, LargeLcp)),
      cls := data.metrics.cls * Power(CLS_FACTOR, CountIssue(suggestions, LayoutShift))))
  }

  /** Works on a copy of `data` (a value), updating its lcp and cls once per
      matching suggestion. */
  method SimulateAfterFix(data: Report, suggestions: seq<Suggestion>) returns (simulated: Report)
    ensures simulated == Simulated(data, suggestions)
  {
    simulated := data;
    for i := 0 to |suggestions|
      invariant simulated == Simulated(data, suggestions[..i])
    {
      var s := suggestions[i];
      assert suggestions[..i + 1][..i] == suggestions[..i];
      if s.issue == LargeLcp {
        simulated := simulated.(metrics := simulated.metrics.(lcp := simulated.metrics.lcp * LCP_FACTOR));
      }
      if s.issue == LayoutShift {
        simulated := simulated.(metrics := simulated.metrics.(cls := simulated.metrics.cls * CLS_FACTOR));
      }
    }
    assert suggestions[..|suggestions|] == suggestions;
  }

  /** With no matching suggestion the projection is the input itself; with
      exactly one, lcp (or cls) is scaled once and tbt, the score and every
      stage output stay as they were. */
  lemma SimulatedSingleFix(data: Report, suggestions: seq<Suggestion>)
    requires CountIssue(suggestions, LargeLcp) <= 1 && CountIssue(suggestions, LayoutShift) <= 1
    ensures Simulated(data, suggestions).metrics.lcp ==
      (if CountIssue(suggestions, LargeLcp) == 1 then data.metrics.lcp * 0.5 else data.metrics.lcp)
    ensures Simulated(data, suggestions).metrics.cls ==
      (if CountIssue(suggestions, LayoutShift) == 1 then data.metrics.cls * 0.3 else data.metrics.cls)
    ensures Simulated(data, suggestions).metrics.tbt == data.metrics.tbt
    ensures Simulated(data, suggestions).metrics.performanceScore == data.metrics.performanceScore
    ensures Simulated(data, suggestions).(metrics := data.metrics) == data
  {
    assert Power(LCP_FACTOR, 1) == 0.5 by { assert Power(LCP_FACTOR, 0) == 1.0; }
    assert Power(CLS_FACTOR, 1) == 0.3 by { assert Power(CLS_FACTOR, 0) == 1.0; }
  }
}
