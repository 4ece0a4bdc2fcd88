/** The worker loop: pop a job, take the audit tool's output for its url,
    run the stages in their fixed order, check for a regression against the
    url's history, then store the report under the job id and append it to
    the url's history. The Redis keys `audit_queue`, `result:{id}` and
    `history:{url}` become a sequence and two maps. */
module Pipeline {
  import opened Records
  import opened Rules
  import opened Ranking
  import opened Simulation
  import opened Regression

  /** The report after the stages that the simulation copies: raw fields,
      insights, ranked suggestions, explanation and deep insights. */
  function Staged(m: Metrics): Report
  {
    RawReport(m).(
      insights := Some(GenerateInsights(m)),
      suggestions := Some(SortDesc(GenerateSuggestions(m))),
      aiExplanation := Some(GenerateAiExplanation(m)),
      deepInsights := Some(GenerateDeepInsights(m)))
  }

  /** The final report for raw record `m`, given the url's history as it
      stood before this run. */
  function BuildReport(m: Metrics, prior: seq<Report>): Report
  {
    var sorted := SortDesc(GenerateSuggestions(m));
    Staged(m).(
      simulation := Some(Simulated(Staged(m), sorted)),
      predictedScore := Some(PredictScore(m.performanceScore, sorted)),
      codeFixes := Some(GenerateCodeFixes(m)),
      alert := DetectRegression(prior, m.performanceScore))
  }

  /** The store: pending jobs, results by job id, history by url. */
  datatype Store = Store(queue: seq<Job>, results: map<string, Report>, history: map<string, seq<Report>>)

  /** `LRANGE history:{url} 0 -1`: a url never audited has an empty history. */
  function HistoryOf(history: map<string, seq<Report>>, url: string): seq<Report>
  {
    if url in history then history[url] else []
  }

  /** One pass of the loop, given what the audit tool printed for the head
      job (`None` for empty output). With an empty queue the worker waits and
      nothing changes. */
  function Step(s: Store, output: Option<Metrics>): Store
  {
    if s.queue == [] then s
    else
      var job := s.queue[0];
      match output
      case None => s.(queue := s.queue[1..])
      case Some(m) =>
        var prior := HistoryOf(s.history, job.url);
        var report := BuildReport(m, prior);
        Store(s.queue[1..], s.results[job.id := report], s.history[job.url := prior + [report]])
  }

  /** Successive passes, one audit output each, until the outputs run out or
      the queue is empty. */
  function Steps(s: Store, outputs: seq<Option<Metrics>>): Store
    decreases |outputs|
  {
    if outputs == [] || s.queue == [] then s else Steps(Step(s, outputs[0]), outputs[1..])
  }

  // ---------------------------------------------------------------------------
  // Properties of one pass and of a run

  /** Empty audit output drops the job: results and history are untouched. */
  lemma EmptyOutputStoresNothing(s: Store)
    requires s.queue != []
    ensures Step(s, None).queue == s.queue[1..]
    ensures Step(s, None).results == s.results && Step(s, None).history == s.history
  {
  }

  /** A completed job stores the report built from its record and the url's
      earlier history, the same one under `result:{id}` and
      at the end of `history:{url}`, whose history grew by exactly that entry;
      no other url's history changes, and the regression check saw the
      history as it was before the append. */
  lemma CompletedJobStoresReport(s: Store, m: Metrics)
    requires s.queue != []
    ensures var job, t := s.queue[0], Step(s, Some(m));
      && job.id in t.results && job.url in t.history
      && t.results[job.id] == BuildReport(m, HistoryOf(s.history, job.url))
      && t.history[job.url] == HistoryOf(s.history, job.url) + [t.results[job.id]]
      && t.results[job.id].alert == DetectRegression(HistoryOf(s.history, job.url), m.performanceScore)
      && (forall u :: u != job.url ==> HistoryOf(t.history, u) == HistoryOf(s.history, u))
      && (forall id :: id in s.results && id != job.id ==> id in t.results && t.results[id] == s.results[id])
  {
  }

  /** History is append-only: every url's old history is a prefix of its new one. */
  ghost predicate Extends(before: Store, after: Store)
  {
    forall u :: HistoryOf(before.history, u) <= HistoryOf(after.history, u)
  }

  lemma {:induction false} StepsAppendOnly(s: Store, outputs: seq<Option<Metrics>>)
    ensures Extends(s, Steps(s, outputs))
    decreases |outputs|
  {
    if outputs != [] && s.queue != [] {
      var t := Step(s, outputs[0]);
      assert Extends(s, t);
      StepsAppendOnly(t, outputs[1..]);
    }
  }

  lemma StepPops(s: Store, output: Option<Metrics>)
    requires s.queue != []
    ensures Step(s, output).queue == s.queue[1..]
  {
  }

  /** A run consumes one job per output while jobs remain, in queue order. */
  lemma {:induction false} StepsConsume(s: Store, outputs: seq<Option<Metrics>>)
    ensures |outputs| <= |s.queue| ==> Steps(s, outputs).queue == s.queue[|outputs|..]
    ensures |outputs| > |s.queue| ==> Steps(s, outputs).queue == []
    decreases |outputs|
  {
    if outputs != [] && s.queue != [] {
      var t := Step(s, outputs[0]);
      StepPops(s, outputs[0]);
      StepsConsume(t, outputs[1..]);
      if |outputs| <= |s.queue| {
        assert s.queue[1..][|outputs| - 1..] == s.queue[|outputs|..];
      }
    }
  }

  // ---------------------------------------------------------------------------
  // Properties of the final report

  /** The stored suggestions come out ranked LCP, TBT, CLS, and are a sorted,
      stable permutation of what the rules produced. */
  lemma ReportSuggestionsRanked(m: Metrics, prior: seq<Report>)
    ensures BuildReport(m, prior).suggestions == Some(RankedSuggestions(m))
    ensures NonIncreasing(RankedSuggestions(m))
    ensures multiset(RankedSuggestions(m)) == multiset(GenerateSuggestions(m))
  {
    SortedSuggestionsOrder(m);
    SortDescOrdered(GenerateSuggestions(m));
    SortDescPermutes(GenerateSuggestions(m));
  }

  /** The predicted score adds 12, 10 and 6 for the rules that fired, caps at
      100, and for a score of at most 100 never falls below it. */
  lemma ReportPredictedScore(m: Metrics, prior: seq<Report>)
    ensures var gain := (if m.lcp > LCP_LIMIT then 12 else 0)
                      + (if m.cls > CLS_LIMIT then 6 else 0)
                      + (if m.tbt > TBT_LIMIT then 10 else 0);
      BuildReport(m, prior).predictedScore ==
        Some(if m.performanceScore + gain < 100 then m.performanceScore + gain else 100)
    ensures m.performanceScore <= 100 ==>
      m.performanceScore <= BuildReport(m, prior).predictedScore.value <= 100
  {
    SortDescKeepsSum(GenerateSuggestions(m));
    SuggestionsGain(m);
  }

  /** The simulation halves lcp exactly when the LCP rule fired and scales
      cls by 0.3 exactly when the layout-shift rule fired; tbt, the score
      and deep audits are the report's; the copy holds the insights,
      suggestions, explanation and deep insights of the report and none of
      the keys set after it. */
  lemma ReportSimulation(m: Metrics, prior: seq<Report>)
    ensures var r := BuildReport(m, prior);
      && r.simulation.Some?
      && r.simulation.value.metrics.lcp == (if m.lcp > LCP_LIMIT then m.lcp * 0.5 else m.lcp)
      && r.simulation.value.metrics.cls == (if m.cls > CLS_LIMIT then m.cls * 0.3 else m.cls)
      && r.simulation.value.metrics.tbt == m.tbt
      && r.simulation.value.metrics.performanceScore == m.performanceScore
      && r.simulation.value.metrics.deepAudits == m.deepAudits
      && r.simulation.value.(metrics := m)
         == r.(simulation := None, predictedScore := None, codeFixes := None, alert := None)
  {
    SortedSuggestionsOrder(m);
    RankedCounts(m);
    SimulatedSingleFix(Staged(m), RankedSuggestions(m));
  }

  /** The report carries an alert exactly when the url already had two or
      more reports and the score fell more than 5 points below the older of
      the last two. */
  lemma ReportAlert(m: Metrics, prior: seq<Report>)
    ensures BuildReport(m, prior).alert.Some? <==>
      |prior| >= 2 && m.performanceScore - prior[|prior| - 2].metrics.performanceScore < -5
  {
  }

  // ---------------------------------------------------------------------------
  // The worker

  class Worker {
    var queue: seq<Job>
    var results: map<string, Report>
    var history: map<string, seq<Report>>

    function State(): Store
      reads this
    {
      Store(queue, results, history)
    }

    constructor (jobs: seq<Job>)
      ensures State() == Store(jobs, map[], map[])
    {
      queue := jobs;
      results := map[];
      history := map[];
    }

    /** One iteration of the loop body. `output` stands for what the audit
        tool printed for the dequeued job's url. */
    method ProcessNext(output: Option<Metrics>)
      modifies this
      ensures State() == Step(old(State()), output)
    {
      if queue == [] {
        return;
      }
      var job := queue[0];
      queue := queue[1..];
      if output.None? {
        return;
      }
      var m := output.value;
      var report := RawReport(m);
      report := report.(insights := Some(GenerateInsights(m)));
      var unsorted := GenerateSuggestions(m);
      var sorted := SortList(unsorted);
      report := report.(suggestions := Some(sorted));
      report := report.(aiExplanation := Some(GenerateAiExplanation(m)));
      report := report.(deepInsights := Some(GenerateDeepInsights(m)));
      assert report == Staged(m);
      var simulated := SimulateAfterFix(report, sorted);
      report := report.(simulation := Some(simulated));
      report := report.(predictedScore := Some(PredictScore(m.performanceScore, sorted)));
      report := report.(codeFixes := Some(GenerateCodeFixes(m)));
      var prior := HistoryOf(history, job.url);
      var alert := DetectRegression(prior, m.performanceScore);
      if alert.Some? {
        report := report.(alert := alert);
      }
      assert report == BuildReport(m, prior);
      results := results[job.id := report];
      history := history[job.url := prior + [report]];
    }

    /** Runs the loop once per audit output while jobs remain. */
    method Run(outputs: seq<Option<Metrics>>)
      modifies this
      ensures State() == Steps(old(State()), outputs)
    {
      var rest := outputs;
      while rest != [] && queue != []
        invariant Steps(old(State()), outputs) == Steps(State(), rest)
        decreases |rest|
      {
        ProcessNext(rest[0]);
        rest := rest[1..];
      }
    }
  }
}
