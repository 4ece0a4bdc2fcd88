/** The rule engine: each stage is a total function of the raw metrics record
    that appends to a fresh list under independent threshold conditions. */
module Rules {
  import opened Records

  const LOW_SCORE: int := 50
  const LCP_LIMIT: real := 4000.0
  const CLS_LIMIT: real := 0.1
  const TBT_LIMIT: real := 300.0

  // ---------------------------------------------------------------------------
  // Rule order

  /** `s` lists its entries in strictly increasing rule position. */
  ghost predicate InRuleOrder<T>(s: seq<T>, rank: T -> nat)
  {
    forall i, j :: 0 <= i < j < |s| ==> rank(s[i]) < rank(s[j])
  }

  /** Every entry of `s` comes from a rule at a position in [lo, hi). */
  ghost predicate RanksWithin<T>(s: seq<T>, rank: T -> nat, lo: nat, hi: nat)
  {
    forall i :: 0 <= i < |s| ==> lo <= rank(s[i]) < hi
  }

  /** Concatenating a list of earlier rules' entries with one of later
      rules' entries keeps the rule order. */
  lemma AppendInRuleOrder<T>(s: seq<T>, t: seq<T>, rank: T -> nat, k: nat, hi: nat)
    requires InRuleOrder(s, rank) && InRuleOrder(t, rank)
    requires k <= hi && RanksWithin(s, rank, 0, k) && RanksWithin(t, rank, k, hi)
    ensures InRuleOrder(s + t, rank) && RanksWithin(s + t, rank, 0, hi)
  {
  }

  /** At most one entry, from the rule at position `k`. */
  lemma OptionalInRuleOrder<T>(s: seq<T>, rank: T -> nat, k: nat)
    requires |s| <= 1 && (s != [] ==> rank(s[0]) == k)
    ensures InRuleOrder(s, rank) && RanksWithin(s, rank, k, k + 1)
  {
  }

  // ---------------------------------------------------------------------------
  // Insights

  /** Position of the rule that emits an insight, in evaluation order. */
  function InsightRule(i: Insight): nat
  {
    match i
    case LowScore => 0
    case LcpTooHigh(_) => 1
    case LayoutShifts => 2
    case HighBlockingTime => 3
  }

  /** One warning per triggered condition, in rule order; the conditions are
      evaluated independently of each other. */
  function GenerateInsights(m: Metrics): (r: seq<Insight>)
    ensures LowScore in r <==> m.performanceScore < LOW_SCORE
    ensures LcpTooHigh(m.lcp) in r <==> m.lcp > LCP_LIMIT
    ensures forall i :: i in r && i.LcpTooHigh? ==> i.lcpMs == m.lcp
    ensures LayoutShifts in r <==> m.cls > CLS_LIMIT
    ensures HighBlockingTime in r <==> m.tbt > TBT_LIMIT
    ensures |r| == (if m.performanceScore < LOW_SCORE then 1 else 0) + (if m.lcp > LCP_LIMIT then 1 else 0)
                 + (if m.cls > CLS_LIMIT then 1 else 0) + (if m.tbt > TBT_LIMIT then 1 else 0)
    ensures |r| <= 4
  {
    (if m.performanceScore < LOW_SCORE then [LowScore] else [])
    + (if m.lcp > LCP_LIMIT then [LcpTooHigh(m.lcp)] else [])
    + (if m.cls > CLS_LIMIT then [LayoutShifts] else [])
    + (if m.tbt > TBT_LIMIT then [HighBlockingTime] else [])
  }

  /** The warnings come out in rule order. */
  lemma InsightsInRuleOrder(m: Metrics)
    ensures InRuleOrder(GenerateInsights(m), InsightRule)
  {
    InsightPartsInRuleOrder(
      if m.performanceScore < LOW_SCORE then [LowScore] else [],
      if m.lcp > LCP_LIMIT then [LcpTooHigh(m.lcp)] else [],
      if m.cls > CLS_LIMIT then [LayoutShifts] else [],
      if m.tbt > TBT_LIMIT then [HighBlockingTime] else [],
      m.lcp);
  }

  lemma InsightPartsInRuleOrder(score: seq<Insight>, lcp: seq<Insight>, cls: seq<Insight>, tbt: seq<Insight>, v: real)
    requires score == [] || score == [LowScore]
    requires lcp == [] || lcp == [LcpTooHigh(v)]
    requires cls == [] || cls == [LayoutShifts]
    requires tbt == [] || tbt == [HighBlockingTime]
    ensures InRuleOrder(score + lcp + cls + tbt, InsightRule)
  {
    OptionalInRuleOrder(score, InsightRule, 0);
    OptionalInRuleOrder(lcp, InsightRule, 1);
    OptionalInRuleOrder(cls, InsightRule, 2);
    OptionalInRuleOrder(tbt, InsightRule, 3);
    AppendInRuleOrder(score, lcp, InsightRule, 1, 2);
    AppendInRuleOrder(score + lcp, cls, InsightRule, 2, 3);
    AppendInRuleOrder(score + lcp + cls, tbt, InsightRule, 3, 4);
  }

  // ---------------------------------------------------------------------------
  // Suggestions

  const LcpSuggestion: Suggestion :=
    Suggestion(LargeLcp, "<img loading='lazy'> or preload hero image", 12)
  const ClsSuggestion: Suggestion :=
    Suggestion(LayoutShift, "Add width and height attributes", 6)
  const TbtSuggestion: Suggestion :=
    Suggestion(HighJsBlocking, "Use dynamic import() / code splitting", 10)

  /** Number of suggestions in `s` whose issue is `issue`. */
  function CountIssue(s: seq<Suggestion>, issue: Issue): nat
  {
    if s == [] then 0
    else CountIssue(s[..|s| - 1], issue) + (if s[|s| - 1].issue == issue then 1 else 0)
  }

  lemma {:induction false} CountIssueAppend(a: seq<Suggestion>, b: seq<Suggestion>, issue: Issue)
    ensures CountIssue(a + b, issue) == CountIssue(a, issue) + CountIssue(b, issue)
  {
    if b != [] {
      assert (a + b)[..|a + b| - 1] == a + b[..|b| - 1];
      CountIssueAppend(a, b[..|b| - 1], issue);
    } else {
      assert a + b == a;
    }
  }

  /** Position of the rule that emits a suggestion, in evaluation order. */
  function SuggestionRule(s: Suggestion): nat
  {
    match s.issue
    case LargeLcp => 0
    case LayoutShift => 1
    case HighJsBlocking => 2
  }

  /** One fix record per triggered rule, each with its constant improvement
      score, in rule order (LCP, CLS, TBT), and nothing else. */
  function GenerateSuggestions(m: Metrics): (r: seq<Suggestion>)
    ensures LcpSuggestion in r <==> m.lcp > LCP_LIMIT
    ensures ClsSuggestion in r <==> m.cls > CLS_LIMIT
    ensures TbtSuggestion in r <==> m.tbt > TBT_LIMIT
    ensures forall s :: s in r ==> s == LcpSuggestion || s == ClsSuggestion || s == TbtSuggestion
    ensures |r| == (if m.lcp > LCP_LIMIT then 1 else 0) + (if m.cls > CLS_LIMIT then 1 else 0)
                 + (if m.tbt > TBT_LIMIT then 1 else 0)
  {
    (if m.lcp > LCP_LIMIT then [LcpSuggestion] else [])
    + (if m.cls > CLS_LIMIT then [ClsSuggestion] else [])
    + (if m.tbt > TBT_LIMIT then [TbtSuggestion] else [])
  }

  /** The rule of each constant record fires at most once. */
  lemma CountOfThree(a: seq<Suggestion>, b: seq<Suggestion>, c: seq<Suggestion>, issue: Issue)
    requires |a| <= 1 && |b| <= 1 && |c| <= 1
    ensures CountIssue(a + b + c, issue) ==
      (if a != [] && a[0].issue == issue then 1 else 0)
      + (if b != [] && b[0].issue == issue then 1 else 0)
      + (if c != [] && c[0].issue == issue then 1 else 0)
  {
    CountIssueAppend(a, b, issue);
    CountIssueAppend(a + b, c, issue);
    CountOfOne(a, issue);
    CountOfOne(b, issue);
    CountOfOne(c, issue);
  }

  lemma CountOfOne(s: seq<Suggestion>, issue: Issue)
    requires |s| <= 1
    ensures CountIssue(s, issue) == if s != [] && s[0].issue == issue then 1 else 0
  {
    if s != [] {
      assert s[..0] == [];
    }
  }

  /** Each issue is addressed exactly once when its rule fires and not at
      all otherwise. */
  lemma SuggestionCounts(m: Metrics)
    ensures CountIssue(GenerateSuggestions(m), LargeLcp) == if m.lcp > LCP_LIMIT then 1 else 0
    ensures CountIssue(GenerateSuggestions(m), LayoutShift) == if m.cls > CLS_LIMIT then 1 else 0
    ensures CountIssue(GenerateSuggestions(m), HighJsBlocking) == if m.tbt > TBT_LIMIT then 1 else 0
  {
    var lcp := if m.lcp > LCP_LIMIT then [LcpSuggestion] else [];
    var cls := if m.cls > CLS_LIMIT then [ClsSuggestion] else [];
    var tbt := if m.tbt > TBT_LIMIT then [TbtSuggestion] else [];
    assert GenerateSuggestions(m) == lcp + cls + tbt;
    RuleCounts(lcp, cls, tbt);
  }

  /** In either order of the three rules, each issue is counted once per
      entry its rule contributed. */
  lemma RuleCounts(lcp: seq<Suggestion>, cls: seq<Suggestion>, tbt: seq<Suggestion>)
    requires lcp == [] || lcp == [LcpSuggestion]
    requires cls == [] || cls == [ClsSuggestion]
    requires tbt == [] || tbt == [TbtSuggestion]
    ensures CountIssue(lcp + cls + tbt, LargeLcp) == |lcp|
    ensures CountIssue(lcp + cls + tbt, LayoutShift) == |cls|
    ensures CountIssue(lcp + cls + tbt, HighJsBlocking) == |tbt|
    ensures CountIssue(lcp + tbt + cls, LargeLcp) == |lcp|
    ensures CountIssue(lcp + tbt + cls, LayoutShift) == |cls|
  {
    CountOfThree(lcp, cls, tbt, LargeLcp);
    CountOfThree(lcp, cls, tbt, LayoutShift);
    CountOfThree(lcp, cls, tbt, HighJsBlocking);
    CountOfThree(lcp, tbt, cls, LargeLcp);
    CountOfThree(lcp, tbt, cls, LayoutShift);
  }

  /** The records come out in rule order: LCP, then CLS, then TBT. */
  lemma SuggestionsInRuleOrder(m: Metrics)
    ensures InRuleOrder(GenerateSuggestions(m), SuggestionRule)
  {
    var lcp := if m.lcp > LCP_LIMIT then [LcpSuggestion] else [];
    var cls := if m.cls > CLS_LIMIT then [ClsSuggestion] else [];
    var tbt := if m.tbt > TBT_LIMIT then [TbtSuggestion] else [];
    assert GenerateSuggestions(m) == lcp + cls + tbt;
    OptionalInRuleOrder(lcp, SuggestionRule, 0);
    OptionalInRuleOrder(cls, SuggestionRule, 1);
    OptionalInRuleOrder(tbt, SuggestionRule, 2);
    AppendInRuleOrder(lcp, cls, SuggestionRule, 1, 2);
    AppendInRuleOrder(lcp + cls, tbt, SuggestionRule, 2, 3);
  }

  // ---------------------------------------------------------------------------
  // Explanation (cumulative: every matching cause is listed)

  /** Position of the rule that emits a cause, in evaluation order. */
  function CauseRule(c: Cause): nat
  {
    match c
    case LateRender => 0
    case LongJsExecution => 1
    case LayoutShiftCause => 2
    case UnusedJsLoad => 3
    case UnusedCssRender => 4
  }

  /** One causal sentence per matching condition, in the order LCP, TBT, CLS,
      unused JS, unused CSS; an absent `deep_audits` counts as empty. */
  function GenerateAiExplanation(m: Metrics): (r: seq<Cause>)
    ensures LateRender in r <==> m.lcp > LCP_LIMIT
    ensures LongJsExecution in r <==> m.tbt > TBT_LIMIT
    ensures LayoutShiftCause in r <==> m.cls > CLS_LIMIT
    ensures UnusedJsLoad in r <==> |DeepOf(m).unusedJs| > 0
    ensures UnusedCssRender in r <==> |DeepOf(m).unusedCss| > 0
    ensures |r| <= 5
  {
    var deep := DeepOf(m);
    var lcp := if m.lcp > LCP_LIMIT then [LateRender] else [];
    var tbt := if m.tbt > TBT_LIMIT then [LongJsExecution] else [];
    var cls := if m.cls > CLS_LIMIT then [LayoutShiftCause] else [];
    var js := if |deep.unusedJs| > 0 then [UnusedJsLoad] else [];
    var css := if |deep.unusedCss| > 0 then [UnusedCssRender] else [];
    CauseMembers(lcp, tbt, cls, js, css);
    lcp + tbt + cls + js + css
  }

  /** Each cause is listed exactly when the part its rule contributes is
      non-empty. */
  lemma CauseMembers(lcp: seq<Cause>, tbt: seq<Cause>, cls: seq<Cause>, js: seq<Cause>, css: seq<Cause>)
    requires lcp == [] || lcp == [LateRender]
    requires tbt == [] || tbt == [LongJsExecution]
    requires cls == [] || cls == [LayoutShiftCause]
    requires js == [] || js == [UnusedJsLoad]
    requires css == [] || css == [UnusedCssRender]
    ensures var r := lcp + tbt + cls + js + css;
      && (LateRender in r <==> lcp != [])
      && (LongJsExecution in r <==> tbt != [])
      && (LayoutShiftCause in r <==> cls != [])
      && (UnusedJsLoad in r <==> js != [])
      && (UnusedCssRender in r <==> css != [])
      && |r| <= 5
  {
  }

  /** The causes come out in rule order. */
  lemma ExplanationInRuleOrder(m: Metrics)
    ensures InRuleOrder(GenerateAiExplanation(m), CauseRule)
  {
    var deep := DeepOf(m);
    CausesInRuleOrder(
      if m.lcp > LCP_LIMIT then [LateRender] else [],
      if m.tbt > TBT_LIMIT then [LongJsExecution] else [],
      if m.cls > CLS_LIMIT then [LayoutShiftCause] else [],
      if |deep.unusedJs| > 0 then [UnusedJsLoad] else [],
      if |deep.unusedCss| > 0 then [UnusedCssRender] else []);
  }

  lemma CausesInRuleOrder(lcp: seq<Cause>, tbt: seq<Cause>, cls: seq<Cause>, js: seq<Cause>, css: seq<Cause>)
    requires lcp == [] || lcp == [LateRender]
    requires tbt == [] || tbt == [LongJsExecution]
    requires cls == [] || cls == [LayoutShiftCause]
    requires js == [] || js == [UnusedJsLoad]
    requires css == [] || css == [UnusedCssRender]
    ensures InRuleOrder(lcp + tbt + cls + js + css, CauseRule)
  {
    OptionalInRuleOrder(lcp, CauseRule, 0);
    OptionalInRuleOrder(tbt, CauseRule, 1);
    OptionalInRuleOrder(cls, CauseRule, 2);
    OptionalInRuleOrder(js, CauseRule, 3);
    OptionalInRuleOrder(css, CauseRule, 4);
    AppendInRuleOrder(lcp, tbt, CauseRule, 1, 2);
    AppendInRuleOrder(lcp + tbt, cls, CauseRule, 2, 3);
    AppendInRuleOrder(lcp + tbt + cls, js, CauseRule, 3, 4);
    AppendInRuleOrder(lcp + tbt + cls + js, css, CauseRule, 4, 5);
  }

  // ---------------------------------------------------------------------------
  // Deep insights

  /** Sum of the `wastedBytes` of a list of waste entries. */
  function SumWaste(ws: seq<int>): int
  {
    if ws == [] then 0 else SumWaste(ws[..|ws| - 1]) + ws[|ws| - 1]
  }

  /** Python's `waste // 1024`: floor division, which for a positive divisor
      is Dafny's Euclidean division. */
  function Kilobytes(bytes: int): (kb: int)
    ensures kb * 1024 <= bytes < kb * 1024 + 1024
  {
    bytes / 1024
  }

  /** An "Unused JavaScript" entry exactly when the `unused_js` list is
      non-empty, then likewise "Unused CSS"; each reports its total waste in
      whole kilobytes, rounded down. */
  function GenerateDeepInsights(m: Metrics): (r: seq<DeepInsight>)
    ensures (exists d :: d in r && d.issue == UnusedJavaScript) <==> DeepOf(m).unusedJs != []
    ensures (exists d :: d in r && d.issue == UnusedCss) <==> DeepOf(m).unusedCss != []
    ensures forall d :: d in r && d.issue == UnusedJavaScript ==>
      d.reduceKb * 1024 <= SumWaste(DeepOf(m).unusedJs) < d.reduceKb * 1024 + 1024
    ensures forall d :: d in r && d.issue == UnusedCss ==>
      d.reduceKb * 1024 <= SumWaste(DeepOf(m).unusedCss) < d.reduceKb * 1024 + 1024
    ensures |r| <= 2 && (|r| == 2 ==> r[0].issue == UnusedJavaScript && r[1].issue == UnusedCss)
    ensures m.deepAudits.None? ==> r == []
  {
    var deep := DeepOf(m);
    (if deep.unusedJs != [] then [DeepInsight(UnusedJavaScript, Kilobytes(SumWaste(deep.unusedJs)))] else [])
    + (if deep.unusedCss != [] then [DeepInsight(UnusedCss, Kilobytes(SumWaste(deep.unusedCss)))] else [])
  }

  /** Waste entries of 1500 and 600 bytes total 2100 bytes, reported as 2 KB. */
  lemma DeepInsightsExample()
    ensures GenerateDeepInsights(Metrics(90, 0.0, 0.0, 0.0, Some(DeepAudits([1500, 600], []))))
      == [DeepInsight(UnusedJavaScript, 2)]
  {
    assert [1500, 600][..1] == [1500] && [1500][..0] == [];
    assert SumWaste([1500, 600]) == 2100;
  }

  // ---------------------------------------------------------------------------
  // Code fixes

  const HighLcpFix: CodeFix :=
    CodeFix("High LCP", "<img loading='lazy' />",
            Some("const Hero = dynamic(() => import('./Hero'), { ssr:false })"))
  const LayoutShiftFix: CodeFix :=
    CodeFix("Layout shift", "<img width='400' height='300' />", None)

  /** A static snippet for a slow LCP, then one for layout shift; no other
      rule has a snippet. */
  function GenerateCodeFixes(m: Metrics): (r: seq<CodeFix>)
    ensures HighLcpFix in r <==> m.lcp > LCP_LIMIT
    ensures LayoutShiftFix in r <==> m.cls > CLS_LIMIT
    ensures forall f :: f in r ==> f == HighLcpFix || f == LayoutShiftFix
    ensures |r| <= 2 && (|r| == 2 ==> r == [HighLcpFix, LayoutShiftFix])
  {
    (if m.lcp > LCP_LIMIT then [HighLcpFix] else [])
    + (if m.cls > CLS_LIMIT then [LayoutShiftFix] else [])
  }

  // ---------------------------------------------------------------------------
  // Score prediction

  /** Sum of the improvement scores of a list of suggestions. */
  function SumScores(s: seq<Suggestion>): int
  {
    if s == [] then 0 else SumScores(s[..|s| - 1]) + s[|s| - 1].estimatedImprovementScore
  }

  lemma {:induction false} SumScoresAppend(a: seq<Suggestion>, b: seq<Suggestion>)
    ensures SumScores(a + b) == SumScores(a) + SumScores(b)
  {
    if b == [] {
      assert a + b == a;
    } else {
      assert (a + b)[..|a + b| - 1] == a + b[..|b| - 1];
      SumScoresAppend(a, b[..|b| - 1]);
    }
  }

  /** The suggestions of one record add up to 12 for a slow LCP, 6 for
      layout shift and 10 for blocking time. */
  lemma SuggestionsGain(m: Metrics)
    ensures SumScores(GenerateSuggestions(m)) ==
      (if m.lcp > LCP_LIMIT then 12 else 0)
      + (if m.cls > CLS_LIMIT then 6 else 0)
      + (if m.tbt > TBT_LIMIT then 10 else 0)
  {
    var lcp := if m.lcp > LCP_LIMIT then [LcpSuggestion] else [];
    var cls := if m.cls > CLS_LIMIT then [ClsSuggestion] else [];
    var tbt := if m.tbt > TBT_LIMIT then [TbtSuggestion] else [];
    assert GenerateSuggestions(m) == lcp + cls + tbt;
    SumOfThree(lcp, cls, tbt);
  }

  lemma SumOfThree(lcp: seq<Suggestion>, cls: seq<Suggestion>, tbt: seq<Suggestion>)
    requires lcp == [] || lcp == [LcpSuggestion]
    requires cls == [] || cls == [ClsSuggestion]
    requires tbt == [] || tbt == [TbtSuggestion]
    ensures SumScores(lcp + cls + tbt) ==
      (if lcp == [] then 0 else 12) + (if cls == [] then 0 else 6) + (if tbt == [] then 0 else 10)
  {
    SumScoresAppend(lcp, cls);
    SumScoresAppend(lcp + cls, tbt);
    assert [LcpSuggestion][..0] == [] && [ClsSuggestion][..0] == [] && [TbtSuggestion][..0] == [];
  }

  /** The current score plus every suggestion's improvement, capped at 100. */
  function PredictScore(current: int, suggestions: seq<Suggestion>): (r: int)
    ensures r <= 100
    ensures r <= current + SumScores(suggestions)
    ensures r == 100 || r == current + SumScores(suggestions)
  {
    var total := current + SumScores(suggestions);
    if total < 100 then total else 100
  }

  lemma {:induction false} SumScoresNonNegative(s: seq<Suggestion>)
    requires forall x :: x in s ==> x.estimatedImprovementScore >= 0
    ensures SumScores(s) >= 0
  {
    if s != [] {
      assert s[|s| - 1] in s;
      forall x | x in s[..|s| - 1] ensures x.estimatedImprovementScore >= 0 {
        assert x in s;
      }
      SumScoresNonNegative(s[..|s| - 1]);
    }
  }

  /** With a score that is at most 100 and no negative improvement, the
      prediction never falls below the current score and never exceeds 100. */
  lemma PredictedWithinRange(current: int, suggestions: seq<Suggestion>)
    requires current <= 100
    requires forall x :: x in suggestions ==> x.estimatedImprovementScore >= 0
    ensures current <= PredictScore(current, suggestions) <= 100
  {
    SumScoresNonNegative(suggestions);
  }
}
