/** Ranking of the suggestions: the worker sorts the list in place, stably,
    by descending `estimated_improvement_score`. */
module Ranking {
  import opened Records
  import opened Rules

  function Score(x: Suggestion): int { x.estimatedImprovementScore }

  /** Non-increasing in improvement score. */
  ghost predicate NonIncreasing(s: seq<Suggestion>)
  {
    forall i, j :: 0 <= i < j < |s| ==> Score(s[i]) >= Score(s[j])
  }

  /** The entries of `s` whose score is `k`, in their order in `s`. */
  function WithScore(s: seq<Suggestion>, k: int): seq<Suggestion>
  {
    if s == [] then []
    else WithScore(s[..|s| - 1], k) + (if Score(s[|s| - 1]) == k then [s[|s| - 1]] else [])
  }

  /** Inserts `x`, which comes after every entry of `t` in the input, behind
      every entry whose score is at least its own. */
  function InsertByScore(t: seq<Suggestion>, x: Suggestion): (r: seq<Suggestion>)
    ensures |r| == |t| + 1
  {
    if t == [] || Score(t[|t| - 1]) >= Score(x) then t + [x]
    else InsertByScore(t[..|t| - 1], x) + [t[|t| - 1]]
  }

  /** Stable sort by descending score, by insertion from left to right. */
  function SortDesc(s: seq<Suggestion>): seq<Suggestion>
  {
    if s == [] then [] else InsertByScore(SortDesc(s[..|s| - 1]), s[|s| - 1])
  }

  lemma {:induction false} InsertPermutes(t: seq<Suggestion>, x: Suggestion)
    ensures multiset(InsertByScore(t, x)) == multiset(t) + multiset{x}
  {
    if t != [] && Score(t[|t| - 1]) < Score(x) {
      InsertPermutes(t[..|t| - 1], x);
      assert t == t[..|t| - 1] + [t[|t| - 1]];
    }
  }

  /** Every entry of the insertion's result scores at least `b` when every
      entry of `t` and `x` itself do. */
  lemma {:induction false} InsertBounded(t: seq<Suggestion>, x: Suggestion, b: int)
    requires forall i :: 0 <= i < |t| ==> Score(t[i]) >= b
    requires Score(x) >= b
    ensures forall i :: 0 <= i < |InsertByScore(t, x)| ==> Score(InsertByScore(t, x)[i]) >= b
  {
    if t != [] && Score(t[|t| - 1]) < Score(x) {
      InsertBounded(t[..|t| - 1], x, b);
    }
  }

  lemma NonIncreasingSnoc(u: seq<Suggestion>, y: Suggestion)
    requires NonIncreasing(u)
    requires forall i :: 0 <= i < |u| ==> Score(u[i]) >= Score(y)
    ensures NonIncreasing(u + [y])
  {
  }

  lemma {:induction false} InsertKeepsOrder(t: seq<Suggestion>, x: Suggestion)
    requires NonIncreasing(t)
    ensures NonIncreasing(InsertByScore(t, x))
  {
    if t == [] || Score(t[|t| - 1]) >= Score(x) {
      NonIncreasingSnoc(t, x);
    } else {
      var init, last := t[..|t| - 1], t[|t| - 1];
      assert NonIncreasing(init);
      InsertKeepsOrder(init, x);
      assert forall i :: 0 <= i < |init| ==> Score(init[i]) >= Score(last) by {
        forall i | 0 <= i < |init| ensures Score(init[i]) >= Score(last) {
          assert init[i] == t[i];
        }
      }
      InsertBounded(init, x, Score(last));
      NonIncreasingSnoc(InsertByScore(init, x), last);
    }
  }

  lemma {:induction false} InsertIsStable(t: seq<Suggestion>, x: Suggestion, k: int)
    ensures WithScore(InsertByScore(t, x), k) == WithScore(t, k) + (if Score(x) == k then [x] else [])
  {
    if t == [] || Score(t[|t| - 1]) >= Score(x) {
      assert (t + [x])[..|t|] == t;
    } else {
      var init, last := t[..|t| - 1], t[|t| - 1];
      var u := InsertByScore(init, x);
      var mine := if Score(x) == k then [x] else [];
      var theirs := if Score(last) == k then [last] else [];
      InsertIsStable(init, x, k);
      assert (u + [last])[..|u|] == u;
      assert WithScore(u + [last], k) == WithScore(u, k) + theirs;
      assert WithScore(t, k) == WithScore(init, k) + theirs;
      if mine == [] {
        assert WithScore(init, k) + mine == WithScore(init, k);
        assert WithScore(t, k) + mine == WithScore(t, k);
      } else {
        assert theirs == [];
        assert WithScore(init, k) + theirs == WithScore(init, k);
        assert WithScore(t, k) == WithScore(init, k);
      }
    }
  }

  lemma {:induction false} InsertAddsScore(t: seq<Suggestion>, x: Suggestion)
    ensures SumScores(InsertByScore(t, x)) == SumScores(t) + Score(x)
  {
    if t == [] || Score(t[|t| - 1]) >= Score(x) {
      assert (t + [x])[..|t|] == t;
    } else {
      var u := InsertByScore(t[..|t| - 1], x);
      InsertAddsScore(t[..|t| - 1], x);
      assert (u + [t[|t| - 1]])[..|u|] == u;
    }
  }

  /** The sorted list is non-increasing in score. */
  lemma {:induction false} SortDescOrdered(s: seq<Suggestion>)
    ensures NonIncreasing(SortDesc(s))
  {
    if s != [] {
      SortDescOrdered(s[..|s| - 1]);
      InsertKeepsOrder(SortDesc(s[..|s| - 1]), s[|s| - 1]);
    }
  }

  /** The sorted list is a permutation of the input. */
  lemma {:induction false} SortDescPermutes(s: seq<Suggestion>)
    ensures multiset(SortDesc(s)) == multiset(s)
  {
    if s != [] {
      var init, last := s[..|s| - 1], s[|s| - 1];
      SortDescPermutes(init);
      InsertPermutes(SortDesc(init), last);
      assert s == init + [last];
      assert multiset(s) == multiset(init) + multiset{last};
    }
  }

  /** Stability: entries with equal score keep their relative order. */
  lemma {:induction false} SortDescStable(s: seq<Suggestion>, k: int)
    ensures WithScore(SortDesc(s), k) == WithScore(s, k)
  {
    if s != [] {
      SortDescStable(s[..|s| - 1], k);
      InsertIsStable(SortDesc(s[..|s| - 1]), s[|s| - 1], k);
    }
  }

  /** Sorting does not change the total improvement. */
  lemma {:induction false} SortDescKeepsSum(s: seq<Suggestion>)
    ensures SumScores(SortDesc(s)) == SumScores(s)
  {
    if s != [] {
      SortDescKeepsSum(s[..|s| - 1]);
      InsertAddsScore(SortDesc(s[..|s| - 1]), s[|s| - 1]);
    }
  }

  /** The suggestions of one record, ranked: LCP (12), then TBT (10), then
      CLS (6), each present exactly when its rule fired. */
  function RankedSuggestions(m: Metrics): seq<Suggestion>
  {
    (if m.lcp > LCP_LIMIT then [LcpSuggestion] else [])
    + (if m.tbt > TBT_LIMIT then [TbtSuggestion] else [])
    + (if m.cls > CLS_LIMIT then [ClsSuggestion] else [])
  }

  /** The ranked list holds one LCP entry exactly when the LCP rule fired
      and one layout-shift entry exactly when the CLS rule fired. */
  lemma RankedCounts(m: Metrics)
    ensures CountIssue(RankedSuggestions(m), LargeLcp) == if m.lcp > LCP_LIMIT then 1 else 0
    ensures CountIssue(RankedSuggestions(m), LayoutShift) == if m.cls > CLS_LIMIT then 1 else 0
  {
    var lcp := if m.lcp > LCP_LIMIT then [LcpSuggestion] else [];
    var tbt := if m.tbt > TBT_LIMIT then [TbtSuggestion] else [];
    var cls := if m.cls > CLS_LIMIT then [ClsSuggestion] else [];
    assert RankedSuggestions(m) == lcp + tbt + cls;
    RuleCounts(lcp, cls, tbt);
  }

  lemma SortDescSnoc(t: seq<Suggestion>, x: Suggestion)
    ensures SortDesc(t + [x]) == InsertByScore(SortDesc(t), x)
  {
    assert (t + [x])[..|t|] == t;
  }

  /** `x` lands right behind the last entry whose score is at least its own. */
  lemma {:induction false} InsertLandsAt(t: seq<Suggestion>, j: nat, x: Suggestion)
    requires j <= |t|
    requires j == 0 || Score(t[j - 1]) >= Score(x)
    requires forall k :: j <= k < |t| ==> Score(t[k]) < Score(x)
    ensures InsertByScore(t, x) == t[..j] + [x] + t[j..]
  {
    if j == |t| {
      assert t[..j] == t && t[j..] == [];
    } else {
      var init, last := t[..|t| - 1], t[|t| - 1];
      assert Score(last) < Score(x);
      assert init[..j] == t[..j];
      InsertLandsAt(init, j, x);
      assert InsertByScore(t, x) == (init[..j] + [x] + init[j..]) + [last];
      assert init[j..] + [last] == t[j..];
    }
  }

  /** With the constant scores 12, 6 and 10, sorting the generated
      suggestions yields the order LCP, TBT, CLS. */
  lemma SortedSuggestionsOrder(m: Metrics)
    ensures SortDesc(GenerateSuggestions(m)) == RankedSuggestions(m)
  {
    var lcp := if m.lcp > LCP_LIMIT then [LcpSuggestion] else [];
    var cls := if m.cls > CLS_LIMIT then [ClsSuggestion] else [];
    var tbt := if m.tbt > TBT_LIMIT then [TbtSuggestion] else [];
    assert GenerateSuggestions(m) == lcp + cls + tbt;
    SortThreeRules(lcp, cls, tbt);
  }

  /** Appending to an already sorted list places the new entry behind the
      last entry whose score is at least its own. */
  lemma SortedAppend(t: seq<Suggestion>, j: nat, x: Suggestion)
    requires SortDesc(t) == t
    requires j <= |t|
    requires j == 0 || Score(t[j - 1]) >= Score(x)
    requires forall k :: j <= k < |t| ==> Score(t[k]) < Score(x)
    ensures SortDesc(t + [x]) == t[..j] + [x] + t[j..]
  {
    SortDescSnoc(t, x);
    InsertLandsAt(t, j, x);
  }

  /** Each rule contributes at most one entry; the one of score 10 overtakes
      the one of score 6 and stays behind the one of score 12. */
  lemma SortThreeRules(lcp: seq<Suggestion>, cls: seq<Suggestion>, tbt: seq<Suggestion>)
    requires lcp == [] || lcp == [LcpSuggestion]
    requires cls == [] || cls == [ClsSuggestion]
    requires tbt == [] || tbt == [TbtSuggestion]
    ensures SortDesc(lcp + cls + tbt) == lcp + tbt + cls
  {
    SortTwoRules(lcp, cls);
    if tbt == [] {
      assert lcp + cls + tbt == lcp + cls == lcp + tbt + cls;
    } else {
      SortTbtIn(lcp, cls);
    }
  }

  /** The TBT entry (score 10) lands behind the LCP entry and ahead of the
      CLS entry. */
  lemma SortTbtIn(lcp: seq<Suggestion>, cls: seq<Suggestion>)
    requires lcp == [] || lcp == [LcpSuggestion]
    requires cls == [] || cls == [ClsSuggestion]
    requires SortDesc(lcp + cls) == lcp + cls
    ensures SortDesc(lcp + cls + [TbtSuggestion]) == lcp + [TbtSuggestion] + cls
  {
    var lc := lcp + cls;
    assert forall k :: |lcp| <= k < |lc| ==> lc[k] == ClsSuggestion;
    if lcp == [] {
      assert lc == cls;
      SortedAppend(lc, 0, TbtSuggestion);
      assert lc[..0] == [] && lc[0..] == cls;
    } else {
      assert lc[0] == LcpSuggestion;
      SortedAppend(lc, 1, TbtSuggestion);
      assert lc[..1] == lcp && lc[1..] == cls;
    }
  }

  lemma SortTwoRules(lcp: seq<Suggestion>, cls: seq<Suggestion>)
    requires lcp == [] || lcp == [LcpSuggestion]
    requires cls == [] || cls == [ClsSuggestion]
    ensures SortDesc(lcp + cls) == lcp + cls
  {
    assert SortDesc(lcp) == lcp by {
      if lcp != [] { SortedAppend([], 0, LcpSuggestion); assert [] + [LcpSuggestion] == lcp; }
    }
    if cls == [] {
      assert lcp + cls == lcp;
    } else {
      assert lcp + cls == lcp + [ClsSuggestion];
      assert |lcp| == 0 || Score(lcp[|lcp| - 1]) == 12;
      SortedAppend(lcp, |lcp|, ClsSuggestion);
      assert lcp[..|lcp|] == lcp && lcp[|lcp|..] == [];
    }
  }

  /** Shifts `a[i]` left past the entries of the sorted prefix `a[..i]` whose
      score is strictly smaller, and drops it into the gap. */
  method InsertAt(a: array<Suggestion>, i: nat)
    requires i < a.Length
    modifies a
    ensures a[..] == InsertByScore(old(a[..i]), old(a[i])) + old(a[i + 1..])
  {
    ghost var t, x, rest := a[..i], a[i], a[i + 1..];
    var j := ShiftIn(a, i);
    InsertLandsAt(t, j, x);
    ShiftedIn(a[..], t, rest, j, x);
  }

  /** The insertion loop: moves every entry of `a[..i]` behind the last one
      scoring at least `a[i]` one place to the right and drops the old
      `a[i]` into the gap, whose index it returns. */
  method ShiftIn(a: array<Suggestion>, i: nat) returns (j: nat)
    requires i < a.Length
    modifies a
    ensures j <= i
    ensures j == 0 || Score(old(a[j - 1])) >= Score(old(a[i]))
    ensures forall k :: 0 <= k < j ==> a[k] == old(a[k])
    ensures a[j] == old(a[i])
    ensures forall k :: j < k <= i ==> a[k] == old(a[k - 1])
    ensures forall k :: i < k < a.Length ==> a[k] == old(a[k])
    ensures forall k :: j <= k < i ==> Score(old(a[k])) < Score(old(a[i]))
  {
    var x := a[i];
    j := i;
    while j > 0 && Score(a[j - 1]) < Score(x)
      invariant 0 <= j <= i
      invariant forall k :: 0 <= k < j ==> a[k] == old(a[k])
      invariant forall k :: j < k <= i ==> a[k] == old(a[k - 1])
      invariant forall k :: i < k < a.Length ==> a[k] == old(a[k])
      invariant forall k :: j <= k < i ==> Score(old(a[k])) < Score(x)
    {
      a[j] := a[j - 1];
      j := j - 1;
    }
    a[j] := x;
  }

  /** A list that agrees with `t` before `j`, holds `x` at `j`, `t` shifted
      by one behind it and then `rest` is `t` with `x` inserted at `j`,
      followed by `rest`. */
  lemma ShiftedIn(u: seq<Suggestion>, t: seq<Suggestion>, rest: seq<Suggestion>, j: nat, x: Suggestion)
    requires |u| == |t| + 1 + |rest| && j <= |t|
    requires forall k :: 0 <= k < j ==> u[k] == t[k]
    requires u[j] == x
    requires forall k :: j < k <= |t| ==> u[k] == t[k - 1]
    requires forall k :: |t| < k < |u| ==> u[k] == rest[k - |t| - 1]
    ensures u == t[..j] + [x] + t[j..] + rest
  {
  }

  /** In-place stable insertion sort by descending improvement score (Python's
      `list.sort(key=..., reverse=True)` keeps equal keys in input order). */
  method SortByImprovement(a: array<Suggestion>)
    modifies a
    ensures a[..] == SortDesc(old(a[..]))
  {
    ghost var input := a[..];
    var i := 0;
    while i < a.Length
      invariant 0 <= i <= a.Length
      invariant a[..i] == SortDesc(input[..i])
      invariant a[i..] == input[i..]
    {
      ghost var before := a[..];
      InsertAt(a, i);
      SortStep(input, i, before, a[..]);
      i := i + 1;
    }
    assert input[..a.Length] == input;
  }

  /** One pass of the outer loop extends the sorted prefix by one entry. */
  lemma SortStep(input: seq<Suggestion>, i: nat, before: seq<Suggestion>, after: seq<Suggestion>)
    requires i < |input| == |before| == |after|
    requires before[..i] == SortDesc(input[..i]) && before[i..] == input[i..]
    requires after == InsertByScore(before[..i], before[i]) + before[i + 1..]
    ensures after[..i + 1] == SortDesc(input[..i + 1]) && after[i + 1..] == input[i + 1..]
  {
    assert before[i] == before[i..][0] == input[i..][0] == input[i];
    assert input[..i + 1] == input[..i] + [input[i]];
    SortDescSnoc(input[..i], input[i]);
    var ins := InsertByScore(before[..i], before[i]);
    assert after[..i + 1] == ins && after[i + 1..] == before[i + 1..];
    assert before[i + 1..] == before[i..][1..] == input[i..][1..] == input[i + 1..];
  }

  /** The list held in the report, sorted in place: its entries are laid out
      in an array, which is sorted and read back. */
  method SortList(s: seq<Suggestion>) returns (sorted: seq<Suggestion>)
    ensures sorted == SortDesc(s)
  {
    var a := new Suggestion[|s|](k requires 0 <= k < |s| => s[k]);
    assert a[..] == s;
    SortByImprovement(a);
    sorted := a[..];
  }
}
