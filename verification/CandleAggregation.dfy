/** Candles and their aggregation to a coarser interval. */
module CandleAggregation {
  import opened Common

  datatype Candle = Candle(
    openTime: int, closeTime: int, open: real, high: real, low: real, close: real, volume: real)

  /** Prices are positive and the range contains open and close. */
  predicate SaneCandle(c: Candle) {
    && 0.0 < c.low
    && c.low <= c.open <= c.high
    && c.low <= c.close <= c.high
  }

  function Highest(group: seq<Candle>): real
    requires group != []
  {
    if |group| == 1 then group[0].high else Max(Highest(group[..|group| - 1]), group[|group| - 1].high)
  }

  function Lowest(group: seq<Candle>): real
    requires group != []
  {
    if |group| == 1 then group[0].low else Min(Lowest(group[..|group| - 1]), group[|group| - 1].low)
  }

  function Volume(group: seq<Candle>): real {
    if group == [] then 0.0 else Volume(group[..|group| - 1]) + group[|group| - 1].volume
  }

  function Merged(group: seq<Candle>): Candle
    requires group != []
  {
    Candle(group[0].openTime, group[|group| - 1].closeTime, group[0].open,
           Highest(group), Lowest(group), group[|group| - 1].close, Volume(group))
  }

  /** Consecutive groups of `factor` candles, each merged; an incomplete last group is dropped. */
  function Aggregated(candles: seq<Candle>, factor: nat): seq<Candle>
    requires factor > 0
  {
    if |candles| < factor then []
    else [Merged(candles[..factor])] + Aggregated(candles[factor..], factor)
  }

  /** What the aggregation covers: the longest prefix of whole groups. */
  function Complete(candles: seq<Candle>, factor: nat): seq<Candle>
    requires factor > 0
  {
    candles[..|candles| - |candles| % factor]
  }

  // ----- Splitting and joining -----

  lemma {:induction false} VolumeJoins(a: seq<Candle>, b: seq<Candle>)
    ensures Volume(a + b) == Volume(a) + Volume(b)
  {
    if b == [] {
      assert a + b == a;
    } else {
      assert (a + b)[..|a + b| - 1] == a + b[..|b| - 1];
      VolumeJoins(a, b[..|b| - 1]);
    }
  }

  lemma {:induction false} HighestJoins(a: seq<Candle>, b: seq<Candle>)
    requires a != [] && b != []
    ensures Highest(a + b) == Max(Highest(a), Highest(b))
  {
    assert (a + b)[..|a + b| - 1] == a + b[..|b| - 1];
    if |b| == 1 {
      assert a + b[..0] == a;
    } else {
      HighestJoins(a, b[..|b| - 1]);
    }
  }

  lemma {:induction false} LowestJoins(a: seq<Candle>, b: seq<Candle>)
    requires a != [] && b != []
    ensures Lowest(a + b) == Min(Lowest(a), Lowest(b))
  {
    assert (a + b)[..|a + b| - 1] == a + b[..|b| - 1];
    if |b| == 1 {
      assert a + b[..0] == a;
    } else {
      LowestJoins(a, b[..|b| - 1]);
    }
  }

  /** Merging two halves first and then their results is merging the whole. */
  lemma MergedJoins(a: seq<Candle>, b: seq<Candle>)
    requires a != [] && b != []
    ensures Merged(a + b) == Merged([Merged(a)] + [Merged(b)])
  {
    var pair := [Merged(a)] + [Merged(b)];
    assert pair[..1] == [Merged(a)];
    VolumeJoins(a, b);
    HighestJoins(a, b);
    LowestJoins(a, b);
    VolumeJoins([Merged(a)], [Merged(b)]);
    MergedSingle(Merged(a));
    MergedSingle(Merged(b));
    assert Volume(pair) == Volume(a + b);
    assert (a + b)[0] == a[0] && (a + b)[|a + b| - 1] == b[|b| - 1];
  }

  lemma MergedSingle(c: Candle)
    ensures Merged([c]) == c
  {
    assert [c][..0] == [];
    assert Volume([c]) == Volume([c][..0]) + c.volume;
    assert Merged([c]).volume == c.volume;
  }

  // ----- Whole numbers of groups -----

  /** `n` is a whole number of groups. */
  predicate Whole(n: nat, factor: nat)
    requires factor > 0
  {
    n == 0 || (n >= factor && Whole(n - factor, factor))
  }

  lemma MulOrdered(x: int, y: int, factor: int)
    requires x <= y && factor >= 0
    ensures x * factor <= y * factor
  {
  }

  lemma SameRemainder(n: nat, factor: nat)
    requires factor > 0 && n >= factor
    ensures n % factor == (n - factor) % factor
  {
    var p, q := n / factor, (n - factor) / factor;
    var d := p - q - 1;
    assert n == p * factor + n % factor && n - factor == q * factor + (n - factor) % factor;
    assert d * factor == (n - factor) % factor - n % factor;
    if d >= 1 {
      MulOrdered(1, d, factor);
    } else if d <= -1 {
      MulOrdered(d, -1, factor);
    }
  }

  lemma {:induction false} WholePrefix(n: nat, factor: nat)
    requires factor > 0
    ensures n % factor <= n && Whole(n - n % factor, factor)
    decreases n
  {
    if n >= factor {
      SameRemainder(n, factor);
      WholePrefix(n - factor, factor);
    } else {
      assert n % factor == n;
    }
  }

  lemma {:induction false} WholeProduct(groups: nat, factor: nat)
    requires factor > 0
    ensures groups * factor >= 0 && Whole(groups * factor, factor)
  {
    if groups > 0 {
      assert groups * factor == (groups - 1) * factor + factor;
      WholeProduct(groups - 1, factor);
    }
  }

  lemma {:induction false} GroupCount(candles: seq<Candle>, factor: nat, groups: nat)
    requires factor > 0
    ensures |candles| == groups * factor ==> |Aggregated(candles, factor)| == groups
    ensures |candles| < groups * factor ==> |Aggregated(candles, factor)| < groups
    decreases groups
  {
    if groups > 0 {
      assert groups * factor == (groups - 1) * factor + factor;
      if |candles| >= factor {
        GroupCount(candles[factor..], factor, groups - 1);
      } else {
        MulOrdered(0, groups - 1, factor);
      }
    }
  }

  lemma {:induction false} AggregatedJoins(a: seq<Candle>, b: seq<Candle>, factor: nat)
    requires factor > 0 && Whole(|a|, factor)
    ensures Aggregated(a + b, factor) == Aggregated(a, factor) + Aggregated(b, factor)
    decreases |a|
  {
    if a == [] {
      assert a + b == b;
    } else {
      assert (a + b)[..factor] == a[..factor] && (a + b)[factor..] == a[factor..] + b;
      AggregatedJoins(a[factor..], b, factor);
    }
  }

  /** Merging the merged groups of a stretch is merging the stretch. */
  lemma {:induction false} MergedOfAggregated(candles: seq<Candle>, factor: nat)
    requires factor > 0 && candles != [] && Whole(|candles|, factor)
    ensures Aggregated(candles, factor) != []
    ensures Merged(Aggregated(candles, factor)) == Merged(candles)
    decreases |candles|
  {
    var head, tail := candles[..factor], candles[factor..];
    assert candles == head + tail;
    MergedSingle(Merged(head));
    if tail == [] {
      assert Aggregated(candles, factor) == [Merged(head)] && candles == head;
    } else {
      MergedOfAggregated(tail, factor);
      MergedJoins(head, tail);
      MergedJoins([Merged(head)], Aggregated(tail, factor));
    }
  }

  // ----- The laws -----

  /** Aggregating twice is aggregating once by the product. */
  lemma {:induction false} AggregationComposes(candles: seq<Candle>, a: nat, b: nat)
    requires a > 0 && b > 0
    ensures b * a > 0
    ensures Aggregated(Aggregated(candles, a), b) == Aggregated(candles, b * a)
    decreases |candles|
  {
    MulOrdered(1, b, a);
    if |candles| < b * a {
      GroupCount(candles, a, b);
    } else {
      var head, tail := candles[..b * a], candles[b * a..];
      assert candles == head + tail;
      WholeProduct(b, a);
      AggregatedJoins(head, tail, a);
      GroupCount(head, a, b);
      MergedOfAggregated(head, a);
      var groups, rest := Aggregated(head, a), Aggregated(tail, a);
      assert (groups + rest)[..b] == groups && (groups + rest)[b..] == rest;
      AggregationComposes(tail, a, b);
    }
  }

  /** The candles after the last complete group make no difference. */
  lemma RemainderDropped(candles: seq<Candle>, factor: nat)
    requires factor > 0
    ensures Whole(|Complete(candles, factor)|, factor)
    ensures Aggregated(candles, factor) == Aggregated(Complete(candles, factor), factor)
  {
    var n := |candles|;
    WholePrefix(n, factor);
    hide Whole;
    var whole, rest := candles[..n - n % factor], candles[n - n % factor..];
    assert candles == whole + rest && |rest| < factor;
    AggregatedJoins(whole, rest, factor);
    assert Aggregated(rest, factor) == [];
  }

  /** Nothing of the complete prefix is lost: volume adds up, and the extremes are kept. */
  lemma AggregationPreserves(candles: seq<Candle>, factor: nat)
    requires factor > 0
    ensures var result, whole := Aggregated(candles, factor), Complete(candles, factor);
            && Volume(result) == Volume(whole)
            && (result == [] <==> whole == [])
            && (result != [] ==> Highest(result) == Highest(whole) && Lowest(result) == Lowest(whole))
  {
    hide Complete, Whole, Highest, Lowest, Volume;
    var whole := Complete(candles, factor);
    RemainderDropped(candles, factor);
    if whole == [] {
      NothingAggregated(factor);
    } else {
      MergedOfAggregated(whole, factor);
      hide Aggregated;
      var c, d := Merged(Aggregated(whole, factor)), Merged(whole);
      assert c.volume == d.volume && c.high == d.high && c.low == d.low;
    }
  }

  lemma NothingAggregated(factor: nat)
    requires factor > 0
    ensures Aggregated([], factor) == []
  {
  }

  // ----- The loop -----

  method AggregateCandles(candles: seq<Candle>, factor: nat) returns (result: seq<Candle>)
    requires factor > 0
    ensures result == Aggregated(candles, factor)
  {
    hide Merged;
    result := [];
    WholePrefix(|candles|, factor);
    var complete := |candles| - |candles| % factor;
    var start := 0;
    assert candles[0..] == candles;
    while start < complete
      invariant start <= complete <= |candles| && Whole(complete - start, factor)
      invariant Aggregated(candles, factor) == result + Aggregated(candles[start..], factor)
    {
      var group := candles[start..start + factor];
      WholeStep(complete - start, factor);
      assert candles[start..][..factor] == group && candles[start..][factor..] == candles[start + factor..];
      result := result + [Merged(group)];
      start := start + factor;
    }
    assert |candles[start..]| < factor;
  }

  lemma WholeStep(n: nat, factor: nat)
    requires factor > 0 && n > 0 && Whole(n, factor)
    ensures n >= factor && Whole(n - factor, factor)
  {
  }
}
