# Audit worker: rule engine and pipeline

This project models the audit worker of a web-performance service in Dafny
and proves properties of the model. The worker takes a raw Lighthouse
metrics record for a URL and builds a report in a fixed order of rule stages:

- insights (warnings);
- improvement suggestions, sorted by estimated gain;
- a causal explanation;
- deep insights on wasted bytes;
- an "after fix" simulation;
- a predicted score;
- code-fix snippets;
- a regression alert against the URL's earlier reports.

The worker then stores the report under the job id and appends it to the
URL's history.

Modules, one per part of `worker/worker.py`:

- `Records`: the raw metrics record, the stage outputs and the report. The
  report is a datatype whose `Option` fields mirror which keys the report
  dictionary holds at each point. Warning, explanation and deep-insight texts
  are tags, and their numeric payload (the LCP value, the KB figure, the
  points dropped) is a field. The issue a suggestion addresses is a tag; fix
  texts and code-fix snippets are the source's string constants.
- `Rules`: the stage functions `generate_insights`, `generate_suggestions`,
  `generate_ai_explanation`, `generate_deep_insights`, `generate_code_fixes`
  and `predict_score`. They are pure functions, each with a contract that
  characterises its output: membership iff the condition holds, nothing else
  present, and the length. Lemmas beside them prove that entries come out in
  rule order and how often each issue is addressed.
- `Ranking`: the in-place, stable, descending sort of the suggestions. It is
  an insertion sort on an `array`, proved equal to the functional
  specification `SortDesc`. Lemmas prove that the specification is
  non-increasing, a permutation, stable (entries of equal score keep their
  order) and sum-preserving. On the pipeline's own suggestions it yields the
  order LCP, TBT, CLS.
- `Simulation`: `simulate_after_fix` as a loop over the suggestions that
  updates a copy of the report. It is proved equal to the closed form "lcp
  times 0.5 per LCP suggestion, cls times 0.3 per layout-shift suggestion,
  everything else unchanged".
- `Regression`: `detect_regression` with the `LRANGE -2 -1` window.
- `Pipeline`:
  - the per-job body of the worker loop, as the function `Step` over a
    `Store` (the job queue, a map from job id to result, and a map from URL
    to history);
  - the class `Worker`, whose `ProcessNext` assigns the report fields one
    after another, sorts in an array and calls the simulation method, and
    which is proved to follow `Step`;
  - `Run`, the loop itself.

The reference definitions that the lemmas and method contracts are stated
against are plain functions without contracts of their own, so they have no
row in the table below:

- `Pipeline.Step` is one pass of the loop (worker/worker.py:200-248) and
  `Pipeline.Steps` is a run of passes (worker/worker.py:198-250).
- `Pipeline.BuildReport` is the report the stages build in
  worker/worker.py:222-243.
- `Ranking.SortDesc` is the stable descending sort of worker/worker.py:226-229.
- `Simulation.Simulated` is the closed form of worker/worker.py:180-192.

`CompletedJobStoresReport`, `ProcessNext`, `Run` and `SortByImprovement` tie
the stored state to these definitions. The `Report*` and `SortDesc*` lemmas
state what the definitions compute.

Inputs that come from outside the worker are parameters:

- What the audit subprocess prints for the dequeued job is an
  `Option<Metrics>`, with `None` for empty output.
- The Redis store is the `Store` value held in the worker's fields.

Behaviour of `worker/worker.py` that the model keeps, including cases where
a reader might expect something else:

- The explanation stage is cumulative. Every matching cause is listed, not
  only the first match.
- The simulation scales only lcp and cls. tbt is never touched.
- Deep insights cover only `unused_js` and `unused_css`. `render_blocking` is
  ignored.
- No required-field validation takes place, and there is no failure status.
- The regression check alerts whenever the history has two or more entries
  and the new score is more than 5 points below the older entry of the last
  two. It does not require exactly two entries.
- With history scores [90, 85], a new score of 70 gives an alert carrying 20,
  not 15, because the code compares 70 with the older entry 90.
  `RegressionExamples` proves 20.
- The predicted score lies in [score, 100] only when the score is at most 100
  (`min` caps it). `PredictedWithinRange` states that precondition.

## Model

| member | source | states |
|---|---|---|
| Rules.GenerateInsights | worker/worker.py:16-32 | one warning per triggered condition (score < 50, lcp > 4000, cls > 0.1, tbt > 300), each iff its condition holds, the LCP warning carrying the measured lcp, length equal to the number of conditions that hold (at most 4) |
| Rules.InsightsInRuleOrder | worker/worker.py:16-32 | the warnings come out in the order the conditions are tested: score, LCP, CLS, TBT |
| Rules.GenerateSuggestions | worker/worker.py:88-113 | exactly one "Large LCP detected" entry iff lcp > 4000, one "Layout shift detected" iff cls > 0.1, one "High JS blocking time" iff tbt > 300; every entry is one of the three constant records (scores 12, 6, 10); length equal to the number of rules that fired |
| Rules.SuggestionsInRuleOrder | worker/worker.py:88-113 | the records come out in the order the rules are tested: LCP, CLS, TBT |
| Rules.SuggestionCounts | worker/worker.py:88-113 | each issue is addressed exactly once when its rule fires and not at all otherwise |
| Rules.GenerateAiExplanation | worker/worker.py:38-65 | cumulative: each of the five causes is present iff its condition holds (lcp, tbt, cls thresholds; non-empty unused_js / unused_css, absent deep_audits counting as empty); at most five sentences |
| Rules.ExplanationInRuleOrder | worker/worker.py:38-65 | the causes come out in the order the conditions are tested: LCP, TBT, CLS, unused JS, unused CSS |
| Rules.Kilobytes | worker/worker.py:128 | `waste // 1024` is the floor: kb*1024 <= bytes < kb*1024 + 1024 |
| Rules.GenerateDeepInsights | worker/worker.py:119-138 | an "Unused JavaScript" entry iff unused_js is non-empty and an "Unused CSS" entry iff unused_css is non-empty, JS first; each reports floor(sum of wastedBytes / 1024); absent deep_audits gives the empty list |
| Rules.DeepInsightsExample | worker/worker.py:124-129 | waste [1500, 600] is reported as 2 KB |
| Rules.GenerateCodeFixes | worker/worker.py:157-174 | the LCP snippet iff lcp > 4000 and the layout-shift snippet iff cls > 0.1, no other snippet; at most two, and when both are present the LCP snippet comes first |
| Rules.PredictScore | worker/worker.py:144-151 | never above 100, never above score + total improvement, and equal to one of the two |
| Rules.PredictedWithinRange | worker/worker.py:144-151 | for a score of at most 100 and non-negative improvements the prediction lies in [score, 100] |
| Rules.SuggestionsGain | worker/worker.py:88-113 | the suggestions of one record add up to 12, 6 and 10 for the rules that fired |
| Ranking.SortByImprovement | worker/worker.py:226-229 | the in-place sort leaves the array equal to the stable descending sort of its old contents |
| Ranking.SortList | worker/worker.py:226-229 | sorting the report's suggestion list through an array yields the stable descending sort of the list |
| Ranking.ShiftIn | worker/worker.py:226-229 | the inner loop of one insertion: the entries of the sorted prefix scoring strictly less than the new entry move one place right, the new entry lands in the gap behind the last entry scoring at least as much, everything else is unchanged |
| Ranking.InsertAt | worker/worker.py:226-229 | one insertion step: the prefix becomes the old sorted prefix with the new entry inserted behind every entry of at least its score, the rest is unchanged |
| Ranking.SortDescOrdered | worker/worker.py:226-229 | the sorted list is non-increasing in estimated_improvement_score |
| Ranking.SortDescPermutes | worker/worker.py:226-229 | the sorted list is a permutation (same multiset) of the input |
| Ranking.SortDescStable | worker/worker.py:226-229 | for each score, the entries with that score appear in the same order as in the input |
| Ranking.SortDescKeepsSum | worker/worker.py:226-237 | sorting does not change the total improvement used by the prediction |
| Ranking.SortedSuggestionsOrder | worker/worker.py:224-229 | sorting the generated suggestions gives LCP, then TBT, then CLS, each present iff its rule fired |
| Ranking.RankedCounts | worker/worker.py:224-233 | the ranked list holds one LCP entry iff lcp > 4000 and one layout-shift entry iff cls > 0.1 |
| Simulation.SimulateAfterFix | worker/worker.py:180-192 | the result is the input report with lcp times 0.5 once per "Large LCP detected" suggestion and cls times 0.3 once per "Layout shift detected" suggestion; every other field, tbt included, unchanged |
| Simulation.SimulatedSingleFix | worker/worker.py:184-190 | with at most one suggestion of each kind, lcp is halved iff an LCP suggestion is present, cls scaled by 0.3 iff a layout-shift one is, and tbt, the score and all other fields are the input's |
| Regression.LastTwo | worker/worker.py:73 | the window is the last min(2, n) entries of the history |
| Regression.DetectRegression | worker/worker.py:71-82 | an alert iff the history has at least two entries and new score minus the second-newest entry's score is below -5; the alert carries abs(diff), which is above 5 |
| Regression.RegressionExamples | worker/worker.py:71-82 | history [90, 85]: new 70 alerts with 20, 88 and a single entry give no alert, 82 alerts with 8 |
| Regression.RegressionUsesSecondNewest | worker/worker.py:73-77 | only the second-newest entry decides: older entries and the newest entry's content do not matter |
| Pipeline.EmptyOutputStoresNothing | worker/worker.py:216-218 | empty audit output drops the job and leaves results and history unchanged |
| Pipeline.CompletedJobStoresReport | worker/worker.py:240-248 | the report stored under the job id is `BuildReport` of the record and the url's earlier history, and is the one appended to the url's history, which grows by exactly one; the alert was computed on the history before the append; other urls and other results are unchanged |
| Pipeline.StepsAppendOnly | worker/worker.py:247-248 | across any run, every url's earlier history is a prefix of its later history |
| Pipeline.StepsConsume | worker/worker.py:198-206 | a run consumes jobs from the head of the queue, one per audit output, while jobs remain |
| Pipeline.ReportSuggestionsRanked | worker/worker.py:224-229 | the stored suggestions are ranked LCP, TBT, CLS, non-increasing and a permutation of the generated ones |
| Pipeline.ReportPredictedScore | worker/worker.py:234-237 | the stored prediction is min(100, score + 12/6/10 for the rules that fired), and lies in [score, 100] when score <= 100 |
| Pipeline.ReportSimulation | worker/worker.py:233 | the stored simulation halves lcp iff lcp > 4000, scales cls by 0.3 iff cls > 0.1, keeps tbt, the score and deep_audits; otherwise the copy equals the report as it stood at that line: insights, suggestions, explanation and deep insights present, no simulation, predicted score, code fixes or alert |
| Pipeline.ReportAlert | worker/worker.py:240-243 | the stored report has an alert iff the prior history has two or more entries and the score fell more than 5 below the second-newest |
| Pipeline.Worker.ProcessNext | worker/worker.py:200-248 | one loop iteration changes the store exactly as `Step`: pop the head job; on empty output nothing else changes; otherwise the report is built stage by stage, stored and appended |
| Pipeline.Worker.Run | worker/worker.py:198-250 | the loop changes the store exactly as successive `Step`s, one per audit output, until the queue is empty |

## Left out

- Redis transport (`blpop`, `set`, `rpush`, `lrange`) and JSON (de)serialisation: replaced by a sequence and two maps held in the worker. A non-empty output that is not valid JSON makes `json.loads` raise and stops the worker; that crash is not modelled, and any non-empty output is taken as a parsed record.
- The audit subprocess (`node runAudit.js`) and Lighthouse/Chrome: the record it prints is a parameter of `ProcessNext`.
- Blocking on an empty queue: `Step` with an empty queue leaves the store unchanged, standing for a worker that is waiting.
- Several workers running at once, and the atomicity of the queue pop: concurrency is out of scope.
- Floating point: lcp, cls and tbt are exact reals, so `* 0.5` and `* 0.3` have no rounding.
- Integer scores: the audit tool computes `score * 100` as a float (worker/runAudit.js:21), and the model takes the exact integer. At the boundaries the two can disagree. The float 0.58 * 100 is 57.99999999999999. Against a second-newest score of 63, the source gets a difference just below -5 and alerts (worker/worker.py:79). The model gets exactly -5 and does not alert. The `< 50` test of worker/worker.py:20 has the same boundary effect.
- Console logging (`print` at worker/worker.py:10, 208, 217 and 250) has no effect on the store and is not modelled.
- Message formatting (`:.0f`, emoji, the f-strings of the alert and the KB texts): messages are tags carrying their numeric payload.
- Rules.PredictScore: the `.get("estimated_improvement_score", 0)` default for a suggestion without that key is not modelled, because every suggestion the worker passes carries it.
- Fields that the audit tool might print beyond the four metrics and `deep_audits` are not modelled.
- The intake API (backend/main.py) and the dashboard (dashboard/src/App.jsx) are not part of this model.
