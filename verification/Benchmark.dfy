/**
 The benchmark evaluator's statistics and thresholds (benchmarks/evaluate.py), over real numbers in place of
 floating point.  `None` stands for a raised `EvaluationError`.
 */
module Benchmark {
  import opened Multisets
  import opened Sorting
  import opened Wrappers

  // ---------------------------------------------------------------- order statistics

  function AtMost(x: real, y: real): bool {
    x <= y
  }

  lemma AtMostIsTotal()
    ensures TotalOrder(AtMost)
  {
  }

  function Ceiling(x: real): int {
    -((-x).Floor)
  }

  function Rank(percentile: real, n: nat): int {
    Ceiling(percentile * n as real)
  }

  lemma RankRange(percentile: real, n: nat)
    requires 0.0 < percentile <= 1.0 && n > 0
    ensures 1 <= Rank(percentile, n) <= n
    ensures percentile * n as real <= Rank(percentile, n) as real < percentile * n as real + 1.0
  {
    assert 0.0 < percentile * n as real <= n as real;
  }

  function NearestRank(values: seq<real>, percentile: real): Option<real> {
    if values == [] || !(0.0 < percentile <= 1.0) then None
    else
      RankRange(percentile, |values|);
      SortKeeps(AtMost, values);
      Some(Sort(AtMost, values)[Rank(percentile, |values|) - 1])
  }

  /** How many samples are at most, and how many are below a value. */
  function UpTo(s: seq<real>, x: real): nat {
    if s == [] then 0 else (if s[0] <= x then 1 else 0) + UpTo(s[1..], x)
  }

  function Below(s: seq<real>, x: real): nat {
    if s == [] then 0 else (if s[0] < x then 1 else 0) + Below(s[1..], x)
  }

  lemma {:induction false} InsertCounts(y: real, s: seq<real>, x: real)
    ensures UpTo(Insert(AtMost, y, s), x) == (if y <= x then 1 else 0) + UpTo(s, x)
    ensures Below(Insert(AtMost, y, s), x) == (if y < x then 1 else 0) + Below(s, x)
  {
    if s == [] || AtMost(y, s[0]) {
      assert ([y] + s)[1..] == s;
    } else {
      InsertCounts(y, s[1..], x);
      assert ([s[0]] + Insert(AtMost, y, s[1..]))[1..] == Insert(AtMost, y, s[1..]);
    }
  }

  lemma {:induction false} SortCounts(s: seq<real>, x: real)
    ensures UpTo(Sort(AtMost, s), x) == UpTo(s, x) && Below(Sort(AtMost, s), x) == Below(s, x)
  {
    if s != [] {
      SortCounts(s[1..], x);
      InsertCounts(s[0], Sort(AtMost, s[1..]), x);
    }
  }

  lemma {:induction false} AscendingCounts(s: seq<real>, x: real, k: nat)
    requires Ascending(AtMost, s) && k < |s|
    ensures s[k] <= x <==> UpTo(s, x) > k
    ensures s[k] < x <==> Below(s, x) > k
  {
    assert forall j | 0 < j < |s| :: AtMost(s[0], s[j]);
    if k > 0 {
      assert Ascending(AtMost, s[1..]);
      AscendingCounts(s[1..], x, k - 1);
      assert AtMost(s[0], s[k]);
      if s[0] > x {
        NoneUpTo(s[1..], x);
      }
      if s[0] >= x {
        NoneBelow(s[1..], x);
      }
    } else {
      if s[0] > x {
        NoneUpTo(s[1..], x);
      }
      if s[0] >= x {
        NoneBelow(s[1..], x);
      }
    }
  }

  lemma {:induction false} NoneUpTo(s: seq<real>, x: real)
    requires forall i | 0 <= i < |s| :: s[i] > x
    ensures UpTo(s, x) == 0
  {
    if s != [] {
      NoneUpTo(s[1..], x);
    }
  }

  lemma {:induction false} NoneBelow(s: seq<real>, x: real)
    requires forall i | 0 <= i < |s| :: s[i] >= x
    ensures Below(s, x) == 0
  {
    if s != [] {
      NoneBelow(s[1..], x);
    }
  }

  /** The sorted position against any threshold: the nearest rank is at most `x` exactly when `rank` samples are. */
  lemma RankAgainst(values: seq<real>, percentile: real, x: real)
    requires values != [] && 0.0 < percentile <= 1.0
    ensures var r, rank := NearestRank(values, percentile).value, Rank(percentile, |values|);
      (r <= x <==> UpTo(values, x) >= rank) && (r < x <==> Below(values, x) >= rank)
  {
    RankRange(percentile, |values|);
    SortKeeps(AtMost, values);
    AtMostIsTotal();
    SortAscends(AtMost, values);
    SortCounts(values, x);
    hide Rank;
    hide UpTo, Below, Sort, Ascending;
    AscendingCounts(Sort(AtMost, values), x, Rank(percentile, |values|) - 1);
  }

  /**
   The order statistic.  The result is a sample, at least `rank` samples are at most it and fewer than `rank`
   are below it; and it is the only number of which the last two hold.  The same is true of the given share of
   the samples in place of `rank`.
   */
  lemma NearestRankIsTheOrderStatistic(values: seq<real>, percentile: real, x: real)
    requires values != [] && 0.0 < percentile <= 1.0
    ensures NearestRank(values, percentile).Some? && NearestRank(values, percentile).value in values
    ensures var rank := Rank(percentile, |values|);
      x == NearestRank(values, percentile).value <==> UpTo(values, x) >= rank && Below(values, x) < rank
    ensures var share := percentile * |values| as real;
      x == NearestRank(values, percentile).value <==> Below(values, x) as real < share <= UpTo(values, x) as real
  {
    RankAgainst(values, percentile, x);
    RankRange(percentile, |values|);
    SortKeeps(AtMost, values);
    var sorted := Sort(AtMost, values);
    assert sorted[Rank(percentile, |values|) - 1] in multiset(sorted);
    assert NearestRank(values, percentile).value in multiset(values);
  }

  /** The order of the samples does not matter. */
  lemma NearestRankPermutes(a: seq<real>, b: seq<real>, percentile: real)
    requires multiset(a) == multiset(b)
    ensures NearestRank(a, percentile) == NearestRank(b, percentile)
  {
    assert |a| == |multiset(a)| == |multiset(b)| == |b|;
    SortKeeps(AtMost, a);
    SortKeeps(AtMost, b);
    AtMostIsTotal();
    SortAscends(AtMost, a);
    SortAscends(AtMost, b);
    AscendingUnique(AtMost, Sort(AtMost, a), Sort(AtMost, b));
  }

  function Maximum(values: seq<real>): real
    requires values != []
  {
    if |values| == 1 then values[0]
    else
      var rest := Maximum(values[1..]);
      if values[0] > rest then values[0] else rest
  }

  lemma {:induction false} MaximumBounds(values: seq<real>)
    requires values != []
    ensures Maximum(values) in values && forall v | v in values :: v <= Maximum(values)
  {
    if |values| > 1 {
      MaximumBounds(values[1..]);
      assert values == [values[0]] + values[1..];
    }
  }

  lemma {:induction false} AllUpTo(s: seq<real>, x: real)
    ensures UpTo(s, x) <= |s|
    ensures UpTo(s, x) == |s| <==> forall v | v in s :: v <= x
  {
    if s != [] {
      AllUpTo(s[1..], x);
      assert s[0] in s && forall v | v in s[1..] :: v in s;
      assert forall v | v in s :: v == s[0] || v in s[1..];
      if UpTo(s, x) == |s| {
        assert s[0] <= x && UpTo(s[1..], x) == |s[1..]|;
      }
    }
  }

  /** `max` is the nearest rank of the whole. */
  lemma MaximumIsLastRank(values: seq<real>)
    requires values != []
    ensures NearestRank(values, 1.0) == Some(Maximum(values))
  {
    var x := Maximum(values);
    MaximumBounds(values);
    AllUpTo(values, x);
    NearestRankIsTheOrderStatistic(values, 1.0, x);
    assert Rank(1.0, |values|) == |values|;
    BelowSome(values, x);
  }

  lemma {:induction false} BelowSome(s: seq<real>, x: real)
    ensures Below(s, x) <= |s| && (x in s ==> Below(s, x) < |s|)
  {
    if s != [] {
      BelowSome(s[1..], x);
      assert s == [s[0]] + s[1..];
    }
  }

  // ---------------------------------------------------------------- thresholds

  /** A JSON value where a number is expected: `None` for anything that is not a finite number. */
  type Numeric = Option<real>

  function FiniteNumber(value: Numeric): Option<real> {
    if value.Some? && value.value >= 0.0 then value else None
  }

  datatype Regression = Regression(maxRatio: Numeric, tolerance: Numeric)

  /** A metric's configuration, with what its source finds in each sample. */
  datatype Metric = Metric(
    id: string,
    source: seq<Numeric>,
    scale: Numeric,
    statistic: string,
    maximum: Numeric,
    regression: Option<Regression>)

  /** What is reported of a metric: its samples and statistic, the two limits and the tighter one, and the verdict. */
  datatype Judged = Judged(
    id: string,
    samples: seq<real>,
    observed: real,
    maximum: real,
    before: Option<real>,
    regressionLimit: Option<real>,
    limit: real,
    passed: bool)

  datatype Evaluation = Evaluation(metrics: seq<Judged>, passed: bool)

  function SourceValues(source: seq<Numeric>, scale: Numeric): (r: Option<seq<real>>)
    ensures r.Some? ==> |r.value| == |source| && forall i | 0 <= i < |source| :: r.value[i] >= 0.0
  {
    if source == [] then Some([])
    else
      var factor :- FiniteNumber(scale);
      var value :- FiniteNumber(source[0]);
      var rest :- SourceValues(source[1..], scale);
      Some([value * factor] + rest)
  }

  function Observe(values: seq<real>, statistic: string): Option<real> {
    if statistic == "p95" then NearestRank(values, 0.95)
    else if statistic == "max" && values != [] then Some(Maximum(values))
    else None
  }

  function Larger(a: real, b: real): real {
    if b > a then b else a
  }

  function Smaller(a: real, b: real): real {
    if b < a then b else a
  }

  /** The limit that the regression policy sets when there is a baseline. */
  function RegressionLimit(c: Metric, prior: Option<map<string, real>>): Option<Option<real>> {
    if prior.None? then Some(None)
    else if c.id !in prior.value || c.regression.None? then None
    else
      var ratio :- FiniteNumber(c.regression.value.maxRatio);
      var tolerance :- FiniteNumber(c.regression.value.tolerance);
      var before := prior.value[c.id];
      Some(Some(Larger(before * ratio, before + tolerance)))
  }

  function Judge(c: Metric, prior: Option<map<string, real>>): Option<Judged> {
    var values :- SourceValues(c.source, c.scale);
    var observed :- Observe(values, c.statistic);
    var maximum :- FiniteNumber(c.maximum);
    var regression :- RegressionLimit(c, prior);
    var limit := if regression.Some? then Smaller(maximum, regression.value) else maximum;
    var before := if prior.Some? && c.id in prior.value then Some(prior.value[c.id]) else None;
    Some(Judged(c.id, values, observed, maximum, before, regression, limit, observed <= limit))
  }

  predicate UniqueIds(metrics: seq<Metric>) {
    forall i, j | 0 <= i < j < |metrics| :: metrics[i].id != metrics[j].id
  }

  /** A number that may be used: finite and not negative. */
  predicate Usable(n: Numeric) {
    n.Some? && n.value >= 0.0
  }

  /** Everything that judging a metric presupposes. */
  predicate Judgeable(c: Metric, prior: Option<map<string, real>>) {
    && c.source != [] && (forall i | 0 <= i < |c.source| :: Usable(c.source[i])) && Usable(c.scale)
    && (c.statistic == "p95" || c.statistic == "max") && Usable(c.maximum)
    && (prior.Some? ==>
          c.id in prior.value && c.regression.Some? && Usable(c.regression.value.maxRatio) && Usable(c.regression.value.tolerance))
  }

  /** The observation keeps the maximum and, with a baseline, has grown by no more than the ratio or the tolerance. */
  predicate Keeps(c: Metric, prior: Option<map<string, real>>, observed: real)
    requires Judgeable(c, prior)
  {
    && observed <= c.maximum.value
    && (prior.Some? ==>
          || observed <= prior.value[c.id] * c.regression.value.maxRatio.value
          || observed <= prior.value[c.id] + c.regression.value.tolerance.value)
  }

  lemma {:induction false} SourceValuesExactly(source: seq<Numeric>, scale: Numeric)
    ensures source != [] ==>
              (SourceValues(source, scale).Some?
               <==> Usable(scale) && forall i | 0 <= i < |source| :: Usable(source[i]))
    ensures SourceValues(source, scale).Some? && scale.Some? ==>
              forall i | 0 <= i < |source| ::
                source[i].Some? && SourceValues(source, scale).value[i] == source[i].value * scale.value
  {
    if source != [] {
      SourceValuesExactly(source[1..], scale);
      assert source == [source[0]] + source[1..];
      if |source| > 1 && SourceValues(source, scale).None? && Usable(scale) && Usable(source[0]) {
        assert SourceValues(source[1..], scale).None?;
        var i :| 0 <= i < |source[1..]| && !Usable(source[1..][i]);
        assert !Usable(source[i + 1]);
      }
    }
  }

  /**
   A metric is judged exactly when its samples, scale, statistic, maximum and, with a baseline, its regression
   policy are there; the statistic is the nearest rank of its share of the scaled samples; and the metric passes
   exactly when that keeps the limits of the configuration.
   */
  lemma JudgedExactly(c: Metric, prior: Option<map<string, real>>)
    ensures Judge(c, prior).Some? <==> Judgeable(c, prior)
    ensures Judge(c, prior).Some? ==>
              var j := Judge(c, prior).value;
              && j.id == c.id && |j.samples| == |c.source|
              && (forall i | 0 <= i < |j.samples| :: j.samples[i] == c.source[i].value * c.scale.value)
              && Some(j.observed) == NearestRank(j.samples, if c.statistic == "p95" then 0.95 else 1.0)
              && j.maximum == c.maximum.value
              && j.before == (if prior.Some? then Some(prior.value[c.id]) else None)
              && (j.passed <==> Keeps(c, prior, j.observed))
  {
    hide NearestRank, Maximum, SourceValues;
    SourceValuesExactly(c.source, c.scale);
    if c.source == [] {
      NoSamples(c.scale);
    } else if SourceValues(c.source, c.scale).Some? {
      var values := SourceValues(c.source, c.scale).value;
      RankedWhenNamed(values, c.statistic);
    }
  }

  lemma NoSamples(scale: Numeric)
    ensures SourceValues([], scale) == Some([]) && NearestRank([], 0.95).None?
  {
  }

  lemma RankedWhenNamed(values: seq<real>, statistic: string)
    requires values != []
    ensures Observe(values, statistic).Some? <==> statistic == "p95" || statistic == "max"
    ensures Observe(values, statistic).Some? ==>
              Observe(values, statistic) == NearestRank(values, if statistic == "p95" then 0.95 else 1.0)
  {
    if statistic == "max" {
      MaximumIsLastRank(values);
    }
  }

  /**
   The metrics are judged one by one; any problem with one of them fails the evaluation, and the whole passes
   exactly when every metric keeps its limits.
   */
  method Evaluate(metrics: seq<Metric>, prior: Option<map<string, real>>) returns (r: Option<Evaluation>)
    ensures r.Some? <==> metrics != [] && UniqueIds(metrics) && forall i | 0 <= i < |metrics| :: Judgeable(metrics[i], prior)
    ensures r.Some? ==>
              && |r.value.metrics| == |metrics|
              && (forall i | 0 <= i < |metrics| :: Judge(metrics[i], prior) == Some(r.value.metrics[i]))
              && (r.value.passed
                  <==> forall i | 0 <= i < |metrics| :: Keeps(metrics[i], prior, r.value.metrics[i].observed))
  {
    hide Judge, Judgeable, Keeps;
    if metrics == [] {
      return None;
    }
    var seen: set<string> := {};
    var results, passed := [], true;
    for i := 0 to |metrics|
      invariant seen == set k | 0 <= k < i :: metrics[k].id
      invariant UniqueIds(metrics[..i])
      invariant |results| == i && forall k | 0 <= k < i :: Judge(metrics[k], prior) == Some(results[k])
      invariant forall k | 0 <= k < i :: Judgeable(metrics[k], prior)
      invariant passed <==> forall k | 0 <= k < i :: Keeps(metrics[k], prior, results[k].observed)
    {
      var c := metrics[i];
      JudgedExactly(c, prior);
      if c.id in seen {
        return None;
      }
      seen := seen + {c.id};
      var judged := Judge(c, prior);
      if judged.None? {
        return None;
      }
      results := results + [judged.value];
      passed := passed && judged.value.passed;
    }
    assert metrics[..|metrics|] == metrics;
    r := Some(Evaluation(results, passed));
  }

  /** The share that a statistic speaks for. */
  function Share(statistic: string): real {
    if statistic == "p95" then 0.95 else 1.0
  }

  /** No more than the remaining samples lie above a number. */
  predicate TailKeeps(samples: seq<real>, statistic: string, x: real) {
    |samples| - UpTo(samples, x) <= |samples| - Rank(Share(statistic), |samples|)
  }

  lemma TailMeans(samples: seq<real>, statistic: string, observed: real, x: real)
    requires samples != [] && Some(observed) == NearestRank(samples, Share(statistic))
    ensures TailKeeps(samples, statistic, x) <==> observed <= x
  {
    hide NearestRank, UpTo, Rank;
    RankAgainst(samples, Share(statistic), x);
  }

  /**
   A metric passes exactly when no more than `n - rank` of its samples lie above the maximum and, with a baseline,
   no more lie above the old value times the ratio or no more above the old value plus the tolerance.
   */
  lemma PassingBoundsTheTail(c: Metric, prior: Option<map<string, real>>)
    requires Judge(c, prior).Some?
    ensures Judgeable(c, prior)
    ensures var j := Judge(c, prior).value;
      && |j.samples| == |c.source| > 0
      && (j.passed <==>
          && TailKeeps(j.samples, c.statistic, c.maximum.value)
          && (prior.Some? ==>
                || TailKeeps(j.samples, c.statistic, prior.value[c.id] * c.regression.value.maxRatio.value)
                || TailKeeps(j.samples, c.statistic, prior.value[c.id] + c.regression.value.tolerance.value)))
  {
    hide NearestRank, UpTo, Rank, Judge, TailKeeps;
    JudgedExactly(c, prior);
    var j := Judge(c, prior).value;
    TailMeans(j.samples, c.statistic, j.observed, c.maximum.value);
    if prior.Some? {
      TailMeans(j.samples, c.statistic, j.observed, prior.value[c.id] * c.regression.value.maxRatio.value);
      TailMeans(j.samples, c.statistic, j.observed, prior.value[c.id] + c.regression.value.tolerance.value);
    }
  }

  /** The baseline that an evaluation gives to later ones. */
  function BaselineOf(results: seq<Judged>): map<string, real> {
    if results == [] then map[]
    else BaselineOf(results[..|results| - 1])[results[|results| - 1].id := results[|results| - 1].observed]
  }

  lemma {:induction false} BaselineHolds(results: seq<Judged>, k: nat)
    requires k < |results| && forall i, j | 0 <= i < j < |results| :: results[i].id != results[j].id
    ensures results[k].id in BaselineOf(results) && BaselineOf(results)[results[k].id] == results[k].observed
  {
    if k < |results| - 1 {
      BaselineHolds(results[..|results| - 1], k);
    }
  }

  /** The regression policy of a metric can be applied. */
  predicate HasPolicy(c: Metric) {
    c.regression.Some? && Usable(c.regression.value.maxRatio) && Usable(c.regression.value.tolerance)
  }

  /**
   A passing metric judged again against its own result: it passes again with the same observation, exactly
   when it has a regression policy to apply.
   */
  lemma PassesAgainstItself(c: Metric, prior: Option<map<string, real>>, own: map<string, real>)
    requires Judge(c, prior).Some? && Judge(c, prior).value.passed
    requires c.id in own && own[c.id] == Judge(c, prior).value.observed
    ensures Judge(c, Some(own)).Some? <==> HasPolicy(c)
    ensures HasPolicy(c) ==> Judge(c, Some(own)).value.passed && Judge(c, Some(own)).value.observed == own[c.id]
  {
    hide SourceValues, Observe;
  }

  /** Re-evaluating the samples of a passing evaluation against its own result passes whenever it can be done. */
  lemma ReevaluationPasses(metrics: seq<Metric>, prior: Option<map<string, real>>, results: seq<Judged>, k: nat)
    requires UniqueIds(metrics) && |results| == |metrics| && k < |metrics|
    requires forall i | 0 <= i < |metrics| :: Judge(metrics[i], prior) == Some(results[i]) && results[i].passed
    ensures var again := Judge(metrics[k], Some(BaselineOf(results)));
      (again.Some? <==> HasPolicy(metrics[k])) && (again.Some? ==> again.value.passed)
  {
    assert forall i | 0 <= i < |metrics| :: results[i].id == metrics[i].id;
    hide Judge, UniqueIds;
    assert forall i, j | 0 <= i < j < |results| :: results[i].id != results[j].id by { DistinctResults(metrics, results); }
    BaselineHolds(results, k);
    assert Judge(metrics[k], prior) == Some(results[k]);
    PassesAgainstItself(metrics[k], prior, BaselineOf(results));
  }

  lemma DistinctResults(metrics: seq<Metric>, results: seq<Judged>)
    requires UniqueIds(metrics) && |results| == |metrics| && forall i | 0 <= i < |metrics| :: results[i].id == metrics[i].id
    ensures forall i, j | 0 <= i < j < |results| :: results[i].id != results[j].id
  {
  }
}
