/**
 * The lesson-grouping algorithm shared, as two copies, by the helpers and the
 * notification service: a stable sort by a minute key, then a greedy cut of the
 * sorted day into runs, opening a new run wherever the gap to the previous
 * lesson exceeds 60 minutes. The two copies differ only in the key.
 */
module Grouping {

  /** Largest gap, in minutes, between consecutive lessons of one group. */
  const MaxGap := 60

  // ---------------------------------------------------------------------------
  // The stable sort (`Array.prototype.sort` with comparator `key(a) - key(b)`)
  // ---------------------------------------------------------------------------

  ghost predicate SortedByKey<T>(s: seq<T>, key: T -> int) {
    forall i, j :: 0 <= i < j < |s| ==> key(s[i]) <= key(s[j])
  }

  /** The elements of `s` whose key is `k`, in their order in `s`. */
  function KeyFilter<T>(s: seq<T>, key: T -> int, k: int): seq<T> {
    if s == [] then []
    else (if key(s[0]) == k then [s[0]] else []) + KeyFilter(s[1..], key, k)
  }

  /** Puts `x` in front of the first element whose key is not smaller than its own. */
  function Insert<T>(x: T, s: seq<T>, key: T -> int): (r: seq<T>)
    ensures |r| == |s| + 1
    ensures multiset(r) == multiset([x] + s)
    ensures r[0] == x || (s != [] && r[0] == s[0])
  {
    if s == [] || key(x) <= key(s[0]) then [x] + s
    else
      var rest := Insert(x, s[1..], key);
      assert s == [s[0]] + s[1..];
      [s[0]] + rest
  }

  /** Inserting into a sorted sequence keeps it sorted. */
  lemma {:induction false} InsertSorted<T>(x: T, s: seq<T>, key: T -> int)
    requires SortedByKey(s, key)
    ensures SortedByKey(Insert(x, s, key), key)
    decreases |s|
  {
    if s != [] && key(x) > key(s[0]) {
      var tail := s[1..];
      assert forall i :: 0 <= i < |tail| ==> tail[i] == s[i + 1];
      InsertSorted(x, tail, key);
      var rest := Insert(x, tail, key);
      assert key(s[0]) <= key(rest[0]);
      var r := [s[0]] + rest;
      assert forall i :: 0 < i < |r| ==> r[i] == rest[i - 1];
    }
  }

  /** Stable insertion sort: the reference meaning of the library sort. */
  function SortByKey<T>(s: seq<T>, key: T -> int): (r: seq<T>)
    ensures |r| == |s|
    ensures multiset(r) == multiset(s)
    ensures SortedByKey(r, key)
  {
    if s == [] then []
    else
      assert s == [s[0]] + s[1..];
      var sorted := SortByKey(s[1..], key);
      InsertSorted(s[0], sorted, key);
      Insert(s[0], sorted, key)
  }

  lemma {:induction false} InsertKeeps<T>(x: T, s: seq<T>, key: T -> int, k: int)
    ensures KeyFilter(Insert(x, s, key), key, k) == KeyFilter([x] + s, key, k)
  {
    if s == [] || key(x) <= key(s[0]) {
    } else {
      var rest := Insert(x, s[1..], key);
      InsertKeeps(x, s[1..], key, k);
      assert ([s[0]] + rest)[1..] == rest;
      assert ([x] + s)[1..] == s;
      assert ([x] + s[1..])[1..] == s[1..];
      assert key(x) != key(s[0]) && s == [s[0]] + s[1..];
    }
  }

  /**
   * Stability: for every key value, the elements with that key keep their
   * relative order (ties are broken by original position).
   */
  lemma {:induction false} SortByKeyStable<T>(s: seq<T>, key: T -> int, k: int)
    ensures KeyFilter(SortByKey(s, key), key, k) == KeyFilter(s, key, k)
  {
    if s != [] {
      SortByKeyStable(s[1..], key, k);
      InsertKeeps(s[0], SortByKey(s[1..], key), key, k);
      assert ([s[0]] + SortByKey(s[1..], key))[1..] == SortByKey(s[1..], key);
    }
  }

  // ---------------------------------------------------------------------------
  // The greedy cut of a sorted day into groups
  // ---------------------------------------------------------------------------

  /** The concatenation of the groups. */
  function Flatten<T>(gs: seq<seq<T>>): seq<T> {
    if gs == [] then [] else Flatten(gs[..|gs| - 1]) + gs[|gs| - 1]
  }

  ghost predicate NonEmptyRuns<T>(gs: seq<seq<T>>) {
    forall i :: 0 <= i < |gs| ==> |gs[i]| > 0
  }

  /** Each element of the run is at most `MaxGap` after its predecessor. */
  ghost predicate CloseRun<T>(g: seq<T>, key: T -> int) {
    forall j, k :: 0 <= j && k == j + 1 && k < |g| ==> key(g[k]) - key(g[j]) <= MaxGap
  }

  ghost predicate CloseWithin<T>(gs: seq<seq<T>>, key: T -> int) {
    forall i :: 0 <= i < |gs| ==> CloseRun(gs[i], key)
  }

  /** Each run after the first starts more than `MaxGap` after the end of the run before it. */
  ghost predicate FarBetween<T>(gs: seq<seq<T>>, key: T -> int)
    requires NonEmptyRuns(gs)
  {
    forall i, k :: 0 <= i && k == i + 1 && k < |gs| ==> key(gs[k][0]) - key(gs[i][|gs[i]| - 1]) > MaxGap
  }

  /**
   * `gs` cuts `s` into non-empty runs of consecutive elements, and a run ends
   * exactly where the gap to the next element exceeds `MaxGap`.
   */
  ghost predicate IsGapSplit<T>(gs: seq<seq<T>>, s: seq<T>, key: T -> int) {
    && Flatten(gs) == s
    && NonEmptyRuns(gs)
    && CloseWithin(gs, key)
    && FarBetween(gs, key)
  }

  /** The groups the loop builds, defined on prefixes of the sorted day. */
  function GapSplit<T>(s: seq<T>, key: T -> int): (gs: seq<seq<T>>)
    requires |s| > 0
    ensures |gs| > 0 && |gs[|gs| - 1]| > 0
    decreases |s|
  {
    if |s| == 1 then [[s[0]]]
    else
      var gs := GapSplit(s[..|s| - 1], key);
      var x := s[|s| - 1];
      if key(x) - key(s[|s| - 2]) <= MaxGap then gs[..|gs| - 1] + [gs[|gs| - 1] + [x]]
      else gs + [[x]]
  }

  lemma FlattenAppend<T>(gs: seq<seq<T>>, g: seq<T>)
    ensures Flatten(gs + [g]) == Flatten(gs) + g
  {
    assert (gs + [g])[..|gs|] == gs;
  }

  /** Every element of every run is an element of the flattening. */
  lemma {:induction false} InFlatten<T>(gs: seq<seq<T>>, g: nat, i: nat)
    requires g < |gs| && i < |gs[g]|
    ensures gs[g][i] in Flatten(gs)
    decreases |gs|
  {
    var n := |gs| - 1;
    if g < n {
      InFlatten(gs[..n], g, i);
      assert gs[..n][g] == gs[g];
    } else {
      assert Flatten(gs) == Flatten(gs[..n]) + gs[n];
    }
  }

  lemma {:induction false} FlattenLength<T>(gs: seq<seq<T>>)
    requires NonEmptyRuns(gs)
    ensures |Flatten(gs)| >= |gs|
  {
    if gs != [] {
      FlattenLength(gs[..|gs| - 1]);
    }
  }

  /** In a split of a sequence, a non-empty last run ends with the last element. */
  lemma LastOfSplit<T>(gs: seq<seq<T>>, s: seq<T>)
    requires |gs| > 0 && |gs[|gs| - 1]| > 0 && Flatten(gs) == s
    ensures |s| > 0 && s[|s| - 1] == gs[|gs| - 1][|gs[|gs| - 1]| - 1]
  {
  }

  // Appending `x` to the last run keeps the cut rule when `x` is close to the run's end.
  lemma ExtendLastRun<T>(gs: seq<seq<T>>, x: T, key: T -> int)
    requires |gs| > 0 && NonEmptyRuns(gs) && CloseWithin(gs, key) && FarBetween(gs, key)
    requires key(x) - key(gs[|gs| - 1][|gs[|gs| - 1]| - 1]) <= MaxGap
    ensures var r := gs[..|gs| - 1] + [gs[|gs| - 1] + [x]];
      NonEmptyRuns(r) && CloseWithin(r, key) && FarBetween(r, key)
  {
    var n := |gs|;
    var r := gs[..n - 1] + [gs[n - 1] + [x]];
    assert forall i :: 0 <= i < n - 1 ==> r[i] == gs[i];
    var last, longer := gs[n - 1], r[n - 1];
    assert forall j :: 0 <= j < |last| ==> longer[j] == last[j];
  }

  // Opening a new run with `x` keeps the cut rule when `x` is far from the last run's end.
  lemma OpenRun<T>(gs: seq<seq<T>>, x: T, key: T -> int)
    requires |gs| > 0 && NonEmptyRuns(gs) && CloseWithin(gs, key) && FarBetween(gs, key)
    requires key(x) - key(gs[|gs| - 1][|gs[|gs| - 1]| - 1]) > MaxGap
    ensures var r := gs + [[x]];
      NonEmptyRuns(r) && CloseWithin(r, key) && FarBetween(r, key)
  {
    var r := gs + [[x]];
    assert forall i :: 0 <= i < |gs| ==> r[i] == gs[i];
  }

  /** The groups the loop builds satisfy the cut rule. */
  lemma {:induction false} GapSplitIsGapSplit<T>(s: seq<T>, key: T -> int)
    requires |s| > 0
    ensures IsGapSplit(GapSplit(s, key), s, key)
    decreases |s|
  {
    if |s| > 1 {
      var s' := s[..|s| - 1];
      GapSplitIsGapSplit(s', key);
      GapSplitStep(s, key);
    }
  }

  lemma ButLast<T>(s: seq<T>)
    requires |s| > 0
    ensures s == s[..|s| - 1] + [s[|s| - 1]]
  {
  }

  // One step of the loop keeps the cut rule.
  lemma GapSplitStep<T>(s: seq<T>, key: T -> int)
    requires |s| > 1 && IsGapSplit(GapSplit(s[..|s| - 1], key), s[..|s| - 1], key)
    ensures IsGapSplit(GapSplit(s, key), s, key)
  {
    if key(s[|s| - 1]) - key(s[|s| - 2]) <= MaxGap {
      GapSplitExtends(s, key);
    } else {
      GapSplitOpens(s, key);
    }
  }

  lemma GapSplitExtends<T>(s: seq<T>, key: T -> int)
    requires |s| > 1 && IsGapSplit(GapSplit(s[..|s| - 1], key), s[..|s| - 1], key)
    requires key(s[|s| - 1]) - key(s[|s| - 2]) <= MaxGap
    ensures IsGapSplit(GapSplit(s, key), s, key)
  {
    var s' := s[..|s| - 1];
    ButLast(s);
    ExtendStep(GapSplit(s', key), s', s[|s| - 1], key);
  }

  lemma GapSplitOpens<T>(s: seq<T>, key: T -> int)
    requires |s| > 1 && IsGapSplit(GapSplit(s[..|s| - 1], key), s[..|s| - 1], key)
    requires key(s[|s| - 1]) - key(s[|s| - 2]) > MaxGap
    ensures IsGapSplit(GapSplit(s, key), s, key)
  {
    var s' := s[..|s| - 1];
    ButLast(s);
    OpenStep(GapSplit(s', key), s', s[|s| - 1], key);
  }

  lemma ExtendStep<T>(gs: seq<seq<T>>, s: seq<T>, x: T, key: T -> int)
    requires |gs| > 0 && |s| > 0 && IsGapSplit(gs, s, key)
    requires key(x) - key(s[|s| - 1]) <= MaxGap
    ensures IsGapSplit(gs[..|gs| - 1] + [gs[|gs| - 1] + [x]], s + [x], key)
  {
    var n := |gs|;
    var last := gs[n - 1];
    LastOfSplit(gs, s);
    ExtendLastRun(gs, x, key);
    FlattenAppend(gs[..n - 1], last + [x]);
    FlattenAppend(gs[..n - 1], last);
    assert gs[..n - 1] + [last] == gs;
  }

  lemma OpenStep<T>(gs: seq<seq<T>>, s: seq<T>, x: T, key: T -> int)
    requires |gs| > 0 && |s| > 0 && IsGapSplit(gs, s, key)
    requires key(x) - key(s[|s| - 1]) > MaxGap
    ensures IsGapSplit(gs + [[x]], s + [x], key)
  {
    LastOfSplit(gs, s);
    OpenRun(gs, x, key);
    FlattenAppend(gs, [x]);
  }

  // Dropping the final one-element run of a split leaves a split of the rest.
  lemma DropLastRun<T>(gs: seq<seq<T>>, key: T -> int)
    requires |gs| > 1 && NonEmptyRuns(gs) && CloseWithin(gs, key) && FarBetween(gs, key)
    ensures var r := gs[..|gs| - 1];
      NonEmptyRuns(r) && CloseWithin(r, key) && FarBetween(r, key)
  {
    var r := gs[..|gs| - 1];
    assert forall i :: 0 <= i < |r| ==> r[i] == gs[i];
  }

  // Dropping the last element of a final run of two or more leaves a split of the rest.
  lemma ShortenLastRun<T>(gs: seq<seq<T>>, key: T -> int)
    requires |gs| > 0 && |gs[|gs| - 1]| > 1
    requires NonEmptyRuns(gs) && CloseWithin(gs, key) && FarBetween(gs, key)
    ensures var last := gs[|gs| - 1];
      var r := gs[..|gs| - 1] + [last[..|last| - 1]];
      NonEmptyRuns(r) && CloseWithin(r, key) && FarBetween(r, key)
  {
    var n := |gs|;
    var last := gs[n - 1];
    var r := gs[..n - 1] + [last[..|last| - 1]];
    assert forall i :: 0 <= i < n - 1 ==> r[i] == gs[i];
    var shorter := r[n - 1];
    assert forall j :: 0 <= j < |last| - 1 ==> shorter[j] == last[j];
  }

  /**
   * The cut rule determines the groups: any split of `s` satisfying it is the
   * one the loop builds.
   */
  lemma {:induction false} GapSplitUnique<T>(gs: seq<seq<T>>, s: seq<T>, key: T -> int)
    requires |s| > 0 && IsGapSplit(gs, s, key)
    ensures gs == GapSplit(s, key)
    decreases |s|
  {
    FlattenLength(gs);
    var n := |gs|;
    var last := gs[n - 1];
    var init := gs[..n - 1];
    assert gs == init + [last];
    FlattenAppend(init, last);
    var x := s[|s| - 1];
    assert init == [] ==> Flatten(init) == [];
    if |s| == 1 {
      assert n == 1;
      assert last == [x];
    } else {
      var s' := s[..|s| - 1];
      assert s == s' + [x];
      if |last| == 1 {
        assert Flatten(init) == s';
        assert n > 1;
        DropLastRun(gs, key);
        GapSplitUnique(init, s', key);
        LastOfSplit(init, s');
        assert key(gs[n - 1][0]) - key(gs[n - 2][|gs[n - 2]| - 1]) > MaxGap;
      } else {
        var shorter := last[..|last| - 1];
        var gs' := init + [shorter];
        FlattenAppend(init, shorter);
        assert last == shorter + [x];
        ShortenLastRun(gs, key);
        GapSplitUnique(gs', s', key);
        LastOfSplit(gs', s');
        assert key(last[|last| - 1]) - key(last[|last| - 2]) <= MaxGap;
        assert gs'[..n - 1] == init;
      }
    }
  }

  /** A single element forms one run. */
  lemma SingleRun<T>(x: T, key: T -> int)
    ensures GapSplit(SortByKey([x], key), key) == [[x]]
  {
    assert [x][1..] == [];
  }

  lemma SortTwo<T>(a: T, b: T, key: T -> int)
    ensures SortByKey([a, b], key) == if key(a) <= key(b) then [a, b] else [b, a]
  {
    assert [a, b][1..] == [b];
    assert [b][1..] == [];
  }

  lemma SplitTwo<T>(p: T, q: T, key: T -> int)
    ensures GapSplit([p, q], key) == if key(q) - key(p) <= MaxGap then [[p, q]] else [[p], [q]]
  {
    assert [p, q][..1] == [p];
    var gs := GapSplit([p], key);
    assert gs == [[p]];
    assert gs[..0] == [];
    assert gs[0] + [q] == [p, q];
    assert gs[..0] + [gs[0] + [q]] == [[p, q]];
  }

  /**
   * Two elements are put in key order, the first on ties, and share one run
   * exactly when their keys are at most `MaxGap` apart.
   */
  lemma TwoRuns<T>(a: T, b: T, key: T -> int)
    ensures var sorted := SortByKey([a, b], key);
      && sorted == (if key(a) <= key(b) then [a, b] else [b, a])
      && GapSplit(sorted, key) ==
        if key(sorted[1]) - key(sorted[0]) <= MaxGap then [sorted] else [[sorted[0]], [sorted[1]]]
  {
    SortTwo(a, b, key);
    var sorted := SortByKey([a, b], key);
    SplitTwo(sorted[0], sorted[1], key);
    assert sorted == [sorted[0], sorted[1]];
  }

  /** One more element of `s` either extends the last run or opens a new one. */
  lemma GapSplitNext<T>(s: seq<T>, i: nat, groups: seq<seq<T>>, current: seq<T>, key: T -> int)
    requires 0 < i < |s| && groups + [current] == GapSplit(s[..i], key)
    ensures GapSplit(s[..i + 1], key) ==
      if key(s[i]) - key(s[i - 1]) <= MaxGap then groups + [current + [s[i]]]
      else groups + [current] + [[s[i]]]
  {
    var t := s[..i + 1];
    assert t[..|t| - 1] == s[..i];
    assert t[|t| - 1] == s[i] && t[|t| - 2] == s[i - 1];
    var gs := groups + [current];
    assert gs[..|gs| - 1] == groups && gs[|gs| - 1] == current;
  }

  /**
   * Sorts the day's lessons by `key`, then walks them once: a lesson joins the
   * current group when it is at most `MaxGap` after the previous one, and
   * otherwise closes that group and opens a new one.
   */
  method GroupByGap<T>(lessons: seq<T>, key: T -> int) returns (groups: seq<seq<T>>)
    ensures lessons == [] ==> groups == []
    ensures lessons != [] ==> groups == GapSplit(SortByKey(lessons, key), key)
    ensures IsGapSplit(groups, SortByKey(lessons, key), key)
  {
    if |lessons| == 0 {
      return [];
    }
    var sorted := SortByKey(lessons, key);
    groups := [];
    var currentGroup := [sorted[0]];
    for i := 1 to |sorted|
      invariant groups + [currentGroup] == GapSplit(sorted[..i], key)
    {
      GapSplitNext(sorted, i, groups, currentGroup, key);
      var prev := sorted[i - 1];
      var curr := sorted[i];
      var diff := key(curr) - key(prev);
      if diff <= MaxGap {
        currentGroup := currentGroup + [curr];
      } else {
        groups := groups + [currentGroup];
        currentGroup := [curr];
      }
    }
    groups := groups + [currentGroup];
    assert sorted[..|sorted|] == sorted;
    GapSplitIsGapSplit(sorted, key);
  }
}
