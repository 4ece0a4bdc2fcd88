/** Regression detection against the url's stored history, read before the
    new report is appended. */
module Regression {
  import opened Records

  const DROP_LIMIT: int := -5

  /** Redis `LRANGE key -2 -1`: the last two entries, or all of them when
      there are fewer. */
  function LastTwo(history: seq<Report>): (w: seq<Report>)
    ensures |w| == if |history| < 2 then |history| else 2
    ensures w == history[|history| - |w|..]
  {
    if |history| < 2 then history else history[|history| - 2..]
  }

  function Abs(x: int): nat { if x < 0 then -x else x }

  /** An alert carrying `abs(diff)` when the new score is more than 5 points
      below the older entry of the last-two window. */
  function DetectRegression(history: seq<Report>, newScore: int): (alert: Option<int>)
    ensures alert.Some? <==>
      |history| >= 2 && newScore - history[|history| - 2].metrics.performanceScore < DROP_LIMIT
    ensures alert.Some? ==>
      alert.value > 5 && newScore + alert.value == history[|history| - 2].metrics.performanceScore
  {
    var window := LastTwo(history);
    if |window| == 2 then
      var diff := newScore - window[0].metrics.performanceScore;
      if diff < DROP_LIMIT then Some(Abs(diff)) else None
    else None
  }

  /** The report with a given score and nothing else, as history entries. */
  function ScoredEntry(score: int): Report
  {
    RawReport(Metrics(score, 0.0, 0.0, 0.0, None))
  }

  /** History [90, 85]: a new score of 70 is 20 points below the older
      entry (90) of the window, so the alert carries 20; 88 is only 2 below
      it; 82 is 8 below 90 though only 3 below the newest entry. A single
      prior entry never alerts. */
  lemma RegressionExamples()
    ensures DetectRegression([ScoredEntry(90), ScoredEntry(85)], 70) == Some(20)
    ensures DetectRegression([ScoredEntry(90), ScoredEntry(85)], 88) == None
    ensures DetectRegression([ScoredEntry(90), ScoredEntry(85)], 82) == Some(8)
    ensures DetectRegression([ScoredEntry(90)], 0) == None
  {
    assert LastTwo([ScoredEntry(90), ScoredEntry(85)]) == [ScoredEntry(90), ScoredEntry(85)];
  }

  /** Only the second-newest entry matters: whatever came before it, and
      whatever the newest entry holds, does not change the verdict. */
  lemma RegressionUsesSecondNewest(older: seq<Report>, a: Report, b: Report, b': Report, newScore: int)
    ensures DetectRegression(older + [a, b], newScore) == DetectRegression([a, b'], newScore)
  {
  }
}
