/** `calculateStats` of the snapshot generator: zone count, high-risk count,
    mean level, the 1-5 histogram and the overall status. The mean is kept as
    an exact rational (`toFixed(1)` is not modelled). */
module Stats {
  import opened Records

  /** The `status` strings a stats block can carry: the four the generator
      computes, the fallback's `error` and the client's `demo`. */
  datatype Status = NoData | Normal | Warning | Alert | Error | Demo

  function StatusName(s: Status): string {
    match s
    case NoData => "no_data"
    case Normal => "normal"
    case Warning => "warning"
    case Alert => "alert"
    case Error => "error"
    case Demo => "demo"
  }

  /** A stats block. `distribution[k]` counts level `k + 1`; the fallback
      block has no distribution at all. */
  datatype StatsBlock = StatsBlock(
    totalZones: int,
    highRiskZones: int,
    averageRisk: real,
    distribution: Option<seq<nat>>,
    status: Status)

  /** Number of levels at or above 4 (`filter(level => level >= 4).length`). */
  function CountHigh(levels: seq<int>): nat {
    if levels == [] then 0
    else CountHigh(levels[..|levels| - 1]) + (if levels[|levels| - 1] >= 4 then 1 else 0)
  }

  /** Sum of the levels (`reduce((sum, level) => sum + level, 0)`). */
  function Sum(levels: seq<int>): int {
    if levels == [] then 0 else Sum(levels[..|levels| - 1]) + levels[|levels| - 1]
  }

  /** Number of occurrences of one level. */
  function CountLevel(levels: seq<int>, v: int): nat {
    if levels == [] then 0
    else CountLevel(levels[..|levels| - 1], v) + (if levels[|levels| - 1] == v then 1 else 0)
  }

  /** Reference histogram: bucket `k` holds the number of levels equal to `k + 1`. */
  function Histogram(levels: seq<int>): (h: seq<nat>)
    ensures |h| == 5
  {
    [CountLevel(levels, 1), CountLevel(levels, 2), CountLevel(levels, 3),
     CountLevel(levels, 4), CountLevel(levels, 5)]
  }

  /** The number of levels the histogram accounts for. */
  function SumBuckets(h: seq<nat>): nat
    requires |h| == 5
  {
    h[0] + h[1] + h[2] + h[3] + h[4]
  }

  /** The status thresholds on the high-risk count. */
  function StatusFor(highRisk: nat): (s: Status)
    ensures s == Alert <==> highRisk > 3
    ensures s == Warning <==> 1 < highRisk <= 3
    ensures s == Normal <==> highRisk <= 1
  {
    if highRisk > 3 then Alert else if highRisk > 1 then Warning else Normal
  }

  const EmptyStats := StatsBlock(0, 0, 0.0, Some([0, 0, 0, 0, 0]), NoData)

  /** Specification of `calculateStats` on the list of levels. */
  function StatsOfLevels(levels: seq<int>): StatsBlock {
    if levels == [] then EmptyStats
    else
      var high := CountHigh(levels);
      StatsBlock(|levels|, high, Sum(levels) as real / |levels| as real, Some(Histogram(levels)), StatusFor(high))
  }

  /** Specification of `calculateStats` on a list of records. */
  function StatsOf(data: seq<ZoneRecord>): StatsBlock {
    StatsOfLevels(Levels(data))
  }

  /** The `forEach` that increments `distribution[level]` in place when the
      level is a key of the histogram, i.e. one of 1..5. */
  method CountDistribution(levels: seq<int>) returns (distribution: seq<nat>)
    ensures distribution == Histogram(levels)
  {
    var buckets := new nat[5](_ => 0);
    var i := 0;
    while i < |levels|
      invariant 0 <= i <= |levels|
      invariant buckets[..] == Histogram(levels[..i])
    {
      assert levels[..i + 1][..i] == levels[..i];
      var level := levels[i];
      if 1 <= level <= 5 {
        buckets[level - 1] := buckets[level - 1] + 1;
      }
      i := i + 1;
    }
    assert levels[..i] == levels;
    distribution := buckets[..];
  }

  /** `calculateStats`: the empty (`no_data`) block for an empty list, the
      aggregate otherwise. */
  method CalculateStats(data: seq<ZoneRecord>) returns (stats: StatsBlock)
    ensures stats == StatsOf(data)
    ensures data == [] ==> stats == EmptyStats
    ensures data != [] ==> stats.totalZones == |data| && stats.highRiskZones == CountHigh(Levels(data))
    ensures data != [] ==> stats.status == StatusFor(CountHigh(Levels(data)))
  {
    if |data| == 0 {
      return EmptyStats;
    }
    var levels := Levels(data);
    var highRiskZones := CountHigh(levels);
    var averageRisk := Sum(levels) as real / |levels| as real;
    var distribution := CountDistribution(levels);
    stats := StatsBlock(|data|, highRiskZones, averageRisk, Some(distribution), StatusFor(highRiskZones));
  }

  /** Levels that are keys of the histogram. */
  predicate AllKnown(levels: seq<int>) {
    forall i :: 0 <= i < |levels| ==> 1 <= levels[i] <= 5
  }

  /** The histogram counts only levels 1..5: its buckets add up to at most the
      number of levels, and to exactly that number iff every level is in 1..5. */
  lemma {:induction false} HistogramTotal(levels: seq<int>)
    ensures SumBuckets(Histogram(levels)) <= |levels|
    ensures SumBuckets(Histogram(levels)) == |levels| <==> AllKnown(levels)
  {
    if levels != [] {
      var init := levels[..|levels| - 1];
      HistogramTotal(init);
      assert forall i :: 0 <= i < |init| ==> init[i] == levels[i];
      assert levels == init + [levels[|levels| - 1]];
    }
  }

  /** On levels within 1..5 the high-risk count is the sum of the two top buckets. */
  lemma {:induction false} HighIsTopBuckets(levels: seq<int>)
    requires AllKnown(levels)
    ensures CountHigh(levels) == CountLevel(levels, 4) + CountLevel(levels, 5)
    ensures CountHigh(levels) <= |levels|
  {
    if levels != [] {
      var init := levels[..|levels| - 1];
      assert forall i :: 0 <= i < |init| ==> init[i] == levels[i];
      HighIsTopBuckets(init);
    }
  }

  lemma {:induction false} SumBounds(levels: seq<int>)
    requires AllKnown(levels)
    ensures |levels| <= Sum(levels) <= 5 * |levels|
  {
    if levels != [] {
      var init := levels[..|levels| - 1];
      assert forall i :: 0 <= i < |init| ==> init[i] == levels[i];
      SumBounds(init);
    }
  }

  /** A stats block computed from records with known levels agrees with itself:
      the histogram accounts for every zone, the high-risk count is the two
      top buckets, and the mean lies between 1 and 5. */
  lemma StatsConsistent(levels: seq<int>)
    requires levels != [] && AllKnown(levels)
    ensures var s := StatsOfLevels(levels);
      && s.distribution.Some?
      && SumBuckets(s.distribution.value) == s.totalZones == |levels|
      && s.highRiskZones == s.distribution.value[3] + s.distribution.value[4]
      && 1.0 <= s.averageRisk <= 5.0
  {
    HistogramTotal(levels);
    HighIsTopBuckets(levels);
    SumBounds(levels);
    MeanBetween(Sum(levels), |levels|);
  }

  lemma MeanBetween(sum: int, n: int)
    requires 0 < n <= sum <= 5 * n
    ensures 1.0 <= sum as real / n as real <= 5.0
  {
    var q, m := sum as real / n as real, n as real;
    assert q * m == sum as real;
    if q < 1.0 {
      ScaleStrict(q, 1.0, m);
    }
    if q > 5.0 {
      ScaleStrict(5.0, q, m);
    }
  }

  lemma ScaleStrict(a: real, b: real, m: real)
    requires a < b && m > 0.0
    ensures a * m < b * m
  {
    assert (b - a) * m > 0.0;
  }

  /** Levels 1..5 give 5 zones, 2 high-risk ones,
      mean 3 and status `warning`. */
  lemma StatsExample()
    ensures StatsOfLevels([1, 2, 3, 4, 5]) == StatsBlock(5, 2, 3.0, Some([1, 1, 1, 1, 1]), Warning)
  {
    var p1, p2, p3, p4, l := [1], [1, 2], [1, 2, 3], [1, 2, 3, 4], [1, 2, 3, 4, 5];
    assert p1[..0] == [] && p2[..1] == p1 && p3[..2] == p2 && p4[..3] == p3 && l[..4] == p4;
    assert CountHigh(p3) == 0 && CountHigh(p4) == 1 && CountHigh(l) == 2;
    assert Sum(p1) == 1 && Sum(p2) == 3 && Sum(p3) == 6 && Sum(p4) == 10 && Sum(l) == 15;
    forall v | 1 <= v <= 5 ensures CountLevel(l, v) == 1 {
      assert CountLevel(p1, v) == (if v == 1 then 1 else 0);
      assert CountLevel(p2, v) == (if v <= 2 then 1 else 0);
      assert CountLevel(p3, v) == (if v <= 3 then 1 else 0);
      assert CountLevel(p4, v) == (if v <= 4 then 1 else 0);
    }
  }
}
