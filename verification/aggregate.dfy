/** Run-level summaries (internal/metrics/aggregate.go). */
module Aggregates {
  import opened Basics
  import opened Sums
  import opened Sorting
  import opened EventLog
  import opened Metrics

  datatype Summary = Summary(count: nat, sum: int, mean: int, p50: int, p95: int, max: int)

  const NOTHING := Summary(0, 0, 0, 0, 0, 0)

  function Ints(values: seq<int>): seq<int> { StableSort(values, IntLess()) }

  /** The 1-based rank ceil(p * n / 100), kept within 1..n. */
  function Rank(n: nat, p: nat): nat {
    var rank := (p * n + 99) / 100;
    if rank < 1 then 1 else if rank > n then n else rank
  }

  function NearestRank(sorted: seq<int>, p: nat): int
    requires sorted != []
  {
    sorted[Rank(|sorted|, p) - 1]
  }

  function Itself(): int -> int { (x: int) => x }

  function Summarized(values: seq<int>): Summary {
    if values == [] then NOTHING
    else
      var s := Ints(values);
      assert |s| == |values| by { IntsPermute(values); }
      var sum := SumOf(values, Itself());
      Summary(|values|, sum, Quot(sum, |values|), NearestRank(s, 50), NearestRank(s, 95), s[|s| - 1])
  }

  lemma IntsPermute(values: seq<int>)
    ensures multiset(Ints(values)) == multiset(values) && |Ints(values)| == |values|
    ensures Sorted(Ints(values), IntLess())
  {
    StableSortSorts(values, IntLess());
    assert |multiset(Ints(values))| == |multiset(values)|;
  }

  /** The order of the values does not matter. */
  lemma SummaryPermutes(a: seq<int>, b: seq<int>)
    requires multiset(a) == multiset(b)
    ensures Summarized(a) == Summarized(b)
  {
    assert |multiset(a)| == |multiset(b)|;
    TotalSortsAlike(a, b, IntLess());
    SumPermutation(a, b, Itself());
  }

  // ---- what the percentiles mean ----

  function AtMost(v: int): int -> int { (x: int) => if x <= v then 1 else 0 }
  function Below(v: int): int -> int { (x: int) => if x < v then 1 else 0 }

  lemma {:induction false} SumWithin(s: seq<int>, f: int -> int, lo: int, hi: int)
    requires forall x | x in s :: lo <= f(x) <= hi
    ensures |s| * lo <= SumOf(s, f) <= |s| * hi
  {
    if s != [] {
      var x := s[0];
      assert x in s && lo <= f(x) <= hi;
      SumWithin(s[1..], f, lo, hi);
      assert |s| * lo == lo + |s[1..]| * lo && |s| * hi == hi + |s[1..]| * hi;
    }
  }

  lemma SortedBetween(s: seq<int>, i: nat, j: nat)
    requires Sorted(s, IntLess()) && i <= j < |s|
    ensures s[i] <= s[j]
  {
    assert i < j ==> !IntLess()(s[j], s[i]);
  }

  lemma ManyAtMost(s: seq<int>, r: nat)
    requires Sorted(s, IntLess()) && 1 <= r <= |s|
    ensures SumOf(s, AtMost(s[r - 1])) >= r
  {
    var v := s[r - 1];
    assert s == s[..r] + s[r..];
    forall x | x in s[..r] ensures AtMost(v)(x) == 1 {
      var k: nat :| k < r && s[k] == x;
      SortedBetween(s, k, r - 1);
    }
    SumConcat(s[..r], s[r..], AtMost(v));
    SumWithin(s[..r], AtMost(v), 1, 1);
    SumWithin(s[r..], AtMost(v), 0, 1);
  }

  lemma FewBelow(s: seq<int>, r: nat)
    requires Sorted(s, IntLess()) && 1 <= r <= |s|
    ensures SumOf(s, Below(s[r - 1])) <= r - 1
  {
    var v := s[r - 1];
    assert s == s[..r - 1] + s[r - 1..];
    forall x | x in s[r - 1..] ensures Below(v)(x) == 0 {
      var k: nat :| r - 1 <= k < |s| && s[k] == x;
      SortedBetween(s, r - 1, k);
    }
    SumConcat(s[..r - 1], s[r - 1..], Below(v));
    SumWithin(s[..r - 1], Below(v), 0, 1);
    SumWithin(s[r - 1..], Below(v), 0, 0);
  }

  /** The p-th percentile: at least p per cent of the values are at most it, and fewer than p per cent are below. */
  lemma PercentileSplits(values: seq<int>, p: nat)
    requires values != [] && 1 <= p <= 100
    ensures |Ints(values)| == |values|
    ensures var v := NearestRank(Ints(values), p);
            && v in values
            && 100 * SumOf(values, AtMost(v)) >= p * |values|
            && 100 * SumOf(values, Below(v)) < p * |values|
  {
    IntsPermute(values);
    var s := Ints(values);
    var r := Rank(|s|, p);
    var v := s[r - 1];
    assert v in multiset(values);
    RankIsCeiling(|s|, p);
    ManyAtMost(s, r);
    FewBelow(s, r);
    SumPermutation(s, values, AtMost(v));
    SumPermutation(s, values, Below(v));
  }

  lemma RankIsCeiling(n: nat, p: nat)
    requires n >= 1 && 1 <= p <= 100
    ensures 1 <= Rank(n, p) <= n && 100 * (Rank(n, p) - 1) < p * n <= 100 * Rank(n, p)
  {
    assert p * n >= n >= 1 by { assert (p - 1) * n >= 0; }
    assert p * n <= 100 * n by { assert (100 - p) * n >= 0; }
  }

  lemma RanksGrow(n: nat, p: nat, q: nat)
    requires n >= 1 && p <= q
    ensures Rank(n, p) <= Rank(n, q)
  {
    assert p * n <= q * n by { assert (q - p) * n >= 0; }
  }

  lemma Extremes(values: seq<int>)
    requires values != []
    ensures |Ints(values)| == |values|
    ensures var s := Ints(values);
            s[0] in values && s[|s| - 1] in values && forall x | x in values :: s[0] <= x <= s[|s| - 1]
  {
    IntsPermute(values);
    var s := Ints(values);
    forall x | x in values ensures s[0] <= x <= s[|s| - 1] {
      assert x in multiset(s);
      var k :| 0 <= k < |s| && s[k] == x;
      SortedBetween(s, 0, k);
      SortedBetween(s, k, |s| - 1);
    }
    assert s[0] in multiset(values) && s[|s| - 1] in multiset(values);
  }

  /** min <= P50 <= P95 <= Max, and the mean lies between the extremes too, negative values included. */
  lemma SummaryOrdered(values: seq<int>)
    requires values != []
    ensures |Ints(values)| == |values|
    ensures var s, least := Summarized(values), Ints(values)[0];
            && least in values && s.max in values && (forall x | x in values :: least <= x <= s.max)
            && least <= s.p50 <= s.p95 <= s.max
            && least <= s.mean <= s.max
  {
    Extremes(values);
    IntsPermute(values);
    var t, n := Ints(values), |values|;
    RanksGrow(n, 50, 95);
    RankIsCeiling(n, 50);
    RankIsCeiling(n, 95);
    SortedBetween(t, 0, Rank(n, 50) - 1);
    SortedBetween(t, Rank(n, 50) - 1, Rank(n, 95) - 1);
    SortedBetween(t, Rank(n, 95) - 1, n - 1);
    MeanWithin(values, t[0], t[n - 1]);
  }

  /** Go's truncated mean stays between bounds on the values. */
  lemma MeanWithin(values: seq<int>, lo: int, hi: int)
    requires values != [] && forall x | x in values :: lo <= x <= hi
    ensures lo <= Quot(SumOf(values, Itself()), |values|) <= hi
  {
    SumWithin(values, Itself(), lo, hi);
    QuotWithin(SumOf(values, Itself()), |values|, lo, hi);
  }

  lemma QuotWithin(s: int, n: int, lo: int, hi: int)
    requires n > 0 && n * lo <= s <= n * hi
    ensures lo <= Quot(s, n) <= hi
  {
    QuotTruncates(s, n);
    TruncatedWithin(s, n, Quot(s, n), lo, hi);
  }

  lemma TruncatedWithin(s: int, n: int, q: int, lo: int, hi: int)
    requires n > 0 && n * lo <= s <= n * hi && Truncates(s, n, q)
    ensures lo <= q <= hi
  {
    assert n * (q + 1) == n * q + n && n * (q - 1) == n * q - n && n * (hi + 1) == n * hi + n;
    Unscale(n, lo, q + 1);
    if s >= 0 {
      Unscale(n, q, hi + 1);
    } else {
      Unscale(n, q - 1, hi);
    }
  }

  lemma Unscale(n: int, a: int, b: int)
    requires n > 0 && n * a < n * b
    ensures a < b
  {
    if a >= b {
      Scale(n, b, a);
    }
  }

  lemma Scale(n: int, a: int, b: int)
    requires n > 0 && a <= b
    ensures n * a <= n * b
  {
    assert n * (b - a) >= 0;
  }

  // ---- what a summary says ----

  function Total(values: seq<int>): int { if values == [] then 0 else values[0] + Total(values[1..]) }

  lemma {:induction false} TotalIs(values: seq<int>)
    ensures Total(values) == SumOf(values, Itself())
  {
    if values != [] {
      TotalIs(values[1..]);
    }
  }

  /** q is sum divided by n, truncated toward zero. */
  predicate Truncates(sum: int, n: int, q: int) {
    if sum >= 0 then n * q <= sum < n * q + n else n * q - n < sum <= n * q
  }

  lemma QuotTruncates(sum: int, n: int)
    requires n > 0
    ensures Truncates(sum, n, Quot(sum, n))
  {
    if sum < 0 {
      var q := -sum / n;
      assert -sum == n * q + -sum % n;
      assert n * (-q) == -(n * q);
    }
  }

  /** v is a p-th percentile of the values, one of them: at least p per cent are at most v, fewer are below it. */
  ghost predicate Percentile(values: seq<int>, p: nat, v: int) {
    v in values && 100 * SumOf(values, AtMost(v)) >= p * |values| && 100 * SumOf(values, Below(v)) < p * |values|
  }

  ghost predicate Summarizes(s: Summary, values: seq<int>) {
    if values == [] then s == Summary(0, 0, 0, 0, 0, 0)
    else
      && s.count == |values| && s.sum == Total(values) && Truncates(s.sum, |values|, s.mean)
      && Percentile(values, 50, s.p50) && Percentile(values, 95, s.p95)
      && s.max in values && forall x | x in values :: x <= s.max
  }

  /** A summary counts and adds the values, truncates their mean toward zero, and gives their 50th and 95th percentile
      and their maximum; of no values it is all zeros. */
  lemma SummaryMeans(values: seq<int>)
    ensures Summarizes(Summarized(values), values)
  {
    if values != [] {
      TotalIs(values);
      QuotTruncates(Total(values), |values|);
      PercentileSplits(values, 50);
      PercentileSplits(values, 95);
      Extremes(values);
    }
  }

  // ---- the aggregate ----

  datatype Aggregate = Aggregate(
    sessions: nat,
    timeToStop: Summary,
    doubleTalk: Summary,
    stallCount: int,
    stallMs: int,
    droppedFrames: int,
    reorderedFrames: int)

  function StallCountOf(): SessionMetrics -> int { (m: SessionMetrics) => m.stallCount }
  function StallMsOf(): SessionMetrics -> int { (m: SessionMetrics) => m.stallMs }
  function DroppedOf(): SessionMetrics -> int { (m: SessionMetrics) => m.droppedFrames }
  function ReorderedOf(): SessionMetrics -> int { (m: SessionMetrics) => m.reorderedFrames }
  function DoubleTalkOf(): SessionMetrics -> int { (m: SessionMetrics) => m.doubleTalkMs }

  /** Every interrupted turn of every session. */
  function AllStops(sessions: seq<SessionMetrics>): seq<int> {
    if sessions == [] then [] else AllStops(sessions[..|sessions| - 1]) + sessions[|sessions| - 1].timeToStopMs
  }

  function Aggregated(sessions: seq<SessionMetrics>): Aggregate {
    Aggregate(|sessions|, Summarized(AllStops(sessions)), Summarized(Map(sessions, DoubleTalkOf())),
              SumOf(sessions, StallCountOf()), SumOf(sessions, StallMsOf()),
              SumOf(sessions, DroppedOf()), SumOf(sessions, ReorderedOf()))
  }

  function StopsBag(): SessionMetrics -> multiset<int> { (m: SessionMetrics) => multiset(m.timeToStopMs) }

  lemma {:induction false} AllStopsBag(sessions: seq<SessionMetrics>)
    ensures multiset(AllStops(sessions)) == BagOf(sessions, StopsBag())
  {
    if sessions != [] {
      AllStopsBag(sessions[..|sessions| - 1]);
      BagLast(sessions, StopsBag());
    }
  }

  /** The aggregate does not depend on the order of the sessions. */
  lemma AggregatePermutes(a: seq<SessionMetrics>, b: seq<SessionMetrics>)
    requires multiset(a) == multiset(b)
    ensures Aggregated(a) == Aggregated(b)
  {
    assert |multiset(a)| == |multiset(b)|;
    AllStopsBag(a);
    AllStopsBag(b);
    BagPermutation(a, b, StopsBag());
    SummaryPermutes(AllStops(a), AllStops(b));
    MapBag(a, DoubleTalkOf());
    MapBag(b, DoubleTalkOf());
    BagPermutation(a, b, OneOf(DoubleTalkOf()));
    SummaryPermutes(Map(a, DoubleTalkOf()), Map(b, DoubleTalkOf()));
    SumPermutation(a, b, StallCountOf());
    SumPermutation(a, b, StallMsOf());
    SumPermutation(a, b, DroppedOf());
    SumPermutation(a, b, ReorderedOf());
  }

  lemma {:induction false} StopsCounted(sessions: seq<SessionMetrics>, v: int, f: SessionMetrics -> int)
    requires forall m :: f(m) == multiset(m.timeToStopMs)[v]
    ensures multiset(AllStops(sessions))[v] == SumOf(sessions, f)
  {
    if sessions != [] {
      StopsCounted(sessions[..|sessions| - 1], v, f);
      SumLast(sessions, f);
    }
  }

  /** The aggregate summarizes the stop times of all turns of all sessions and the double talk of each session, and adds
      up the stalls, their length, the drops and the reorderings. */
  lemma AggregateMeans(sessions: seq<SessionMetrics>) returns (stops: seq<int>, talks: seq<int>)
    ensures var a := Aggregated(sessions);
            && a.sessions == |sessions| && Summarizes(a.timeToStop, stops) && Summarizes(a.doubleTalk, talks)
            && a.stallCount == SumOf(sessions, (m: SessionMetrics) => m.stallCount as int)
            && a.stallMs == SumOf(sessions, (m: SessionMetrics) => m.stallMs)
            && a.droppedFrames == SumOf(sessions, (m: SessionMetrics) => m.droppedFrames)
            && a.reorderedFrames == SumOf(sessions, (m: SessionMetrics) => m.reorderedFrames as int)
    ensures |talks| == |sessions| && forall k | 0 <= k < |sessions| :: talks[k] == sessions[k].doubleTalkMs
    ensures forall v: int ::
              multiset(stops)[v] == SumOf(sessions, (m: SessionMetrics) => multiset(m.timeToStopMs)[v] as int)
  {
    stops, talks := AllStops(sessions), Map(sessions, DoubleTalkOf());
    SummaryMeans(stops);
    SummaryMeans(talks);
    SumsAgree(sessions, StallCountOf(), (m: SessionMetrics) => m.stallCount as int);
    SumsAgree(sessions, StallMsOf(), (m: SessionMetrics) => m.stallMs);
    SumsAgree(sessions, DroppedOf(), (m: SessionMetrics) => m.droppedFrames);
    SumsAgree(sessions, ReorderedOf(), (m: SessionMetrics) => m.reorderedFrames as int);
    forall v: int
      ensures multiset(stops)[v] == SumOf(sessions, (m: SessionMetrics) => multiset(m.timeToStopMs)[v] as int)
    {
      StopsCounted(sessions, v, (m: SessionMetrics) => multiset(m.timeToStopMs)[v] as int);
    }
  }

  // ---- as the code computes them ----

  /** summarize (aggregate.go:37-53). */
  method Summarize(values: seq<int>) returns (s: Summary)
    ensures s == Summarized(values)
  {
    if |values| == 0 {
      return NOTHING;
    }
    var sorted := SliceStable(values, IntLess());
    IntsPermute(values);
    var sum, i := 0, 0;
    while i < |sorted|
      invariant 0 <= i <= |sorted| && sum == SumOf(sorted[..i], Itself())
    {
      SumLast(sorted[..i + 1], Itself());
      assert sorted[..i + 1][..i] == sorted[..i];
      sum := sum + sorted[i];
      i := i + 1;
    }
    assert sorted[..i] == sorted;
    SumPermutation(sorted, values, Itself());
    s := Summary(|values|, sum, Quot(sum, |values|), NearestRank(sorted, 50), NearestRank(sorted, 95),
                 sorted[|sorted| - 1]);
  }

  /** ComputeAggregate (aggregate.go:73-88). */
  method ComputeAggregate(sessions: seq<SessionMetrics>) returns (agg: Aggregate)
    ensures agg == Aggregated(sessions)
  {
    var allStops, doubleTalks: seq<int> := [], [];
    var stallCount, stallMs, dropped, reordered := 0, 0, 0, 0;
    var i := 0;
    while i < |sessions|
      invariant 0 <= i <= |sessions| && allStops == AllStops(sessions[..i])
      invariant doubleTalks == Map(sessions[..i], DoubleTalkOf())
      invariant stallCount == SumOf(sessions[..i], StallCountOf()) && stallMs == SumOf(sessions[..i], StallMsOf())
      invariant dropped == SumOf(sessions[..i], DroppedOf()) && reordered == SumOf(sessions[..i], ReorderedOf())
    {
      var s := sessions[i];
      assert sessions[..i + 1][..i] == sessions[..i];
      SumLast(sessions[..i + 1], StallCountOf());
      SumLast(sessions[..i + 1], StallMsOf());
      SumLast(sessions[..i + 1], DroppedOf());
      SumLast(sessions[..i + 1], ReorderedOf());
      allStops := allStops + s.timeToStopMs;
      doubleTalks := doubleTalks + [s.doubleTalkMs];
      stallCount, stallMs := stallCount + s.stallCount, stallMs + s.stallMs;
      dropped, reordered := dropped + s.droppedFrames, reordered + s.reorderedFrames;
      i := i + 1;
    }
    assert sessions[..i] == sessions;
    var tts := Summarize(allStops);
    var dt := Summarize(doubleTalks);
    agg := Aggregate(|sessions|, tts, dt, stallCount, stallMs, dropped, reordered);
  }
}
