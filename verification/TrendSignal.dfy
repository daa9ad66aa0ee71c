/**
  The volatility and the entry signal a replay computes from its candles: true ranges, moving
  averages on three intervals, breakout, trend strength and screening, with the settings the
  replay has by default.  The pullback confirmation is an arbitrary function.
 */
module TrendSignal {
  import opened Common
  import opened CandleAggregation

  // ----- Indicators -----

  function Last<T>(xs: seq<T>, n: nat): (r: seq<T>)
    ensures |r| == if |xs| <= n then |xs| else n
    ensures forall x :: x in r ==> x in xs
  {
    if |xs| <= n then xs else xs[|xs| - n..]
  }

  function TrueRange(before: Candle, c: Candle): real {
    Max(Max(c.high - c.low, Abs(c.high - before.close)), Abs(c.low - before.close))
  }

  function TrueRanges(candles: seq<Candle>): (r: seq<real>)
    ensures |r| == |candles|
  {
    var n := |candles|;
    if n == 0 then []
    else if n == 1 then [candles[0].high - candles[0].low]
    else TrueRanges(candles[..n - 1]) + [TrueRange(candles[n - 2], candles[n - 1])]
  }

  /** The mean of the last true ranges. */
  function Atr(candles: seq<Candle>, period: nat): real
    requires period > 0
  {
    if candles == [] then 0.0
    else
      var window := Last(TrueRanges(candles), period);
      Total(window) / |window| as real
  }

  function Closes(candles: seq<Candle>): (r: seq<real>)
    ensures |r| == |candles| && forall i :: 0 <= i < |r| ==> r[i] == candles[i].close
  {
    seq(|candles|, i requires 0 <= i < |candles| => candles[i].close)
  }

  /** The weight of the newest value. */
  function Alpha(period: nat): (r: real)
    ensures 0.0 < r <= 1.0 || period == 0
  {
    2.0 / (period + 1) as real
  }

  /** The exponential moving average after the last value. */
  function Ema(values: seq<real>, period: nat): real
    requires values != []
  {
    var n := |values|;
    if n == 1 then values[0]
    else Worth(values[n - 1], Alpha(period)) + Worth(Ema(values[..n - 1], period), 1.0 - Alpha(period))
  }

  const FAST := 20
  const SLOW := 50

  /** 1 for up, -1 for down, 0 for neither or too few candles. */
  function TrendDirection(candles: seq<Candle>): int {
    if |candles| < SLOW then 0
    else
      var closes := Closes(candles);
      var fast, slow := Ema(closes, FAST), Ema(closes, SLOW);
      var slope := fast - Ema(closes[..|closes| - 3], FAST);
      if fast > slow && slope > 0.0 then 1
      else if fast < slow && slope < 0.0 then -1
      else 0
  }

  const CHANNEL := 20

  /** Whether the last close leaves the range of the candles before it. */
  function DonchianBreakout(candles: seq<Candle>): int {
    var n := |candles|;
    if n <= CHANNEL then 0
    else
      var before, close := candles[n - CHANNEL - 1..n - 1], candles[n - 1].close;
      if close > Highest(before) then 1 else if close < Lowest(before) then -1 else 0
  }

  const PERIOD := 14

  /** How far the last candle reaches above (below) the one before it, if that is the larger move. */
  function PlusMove(before: Candle, c: Candle): real {
    var up, down := c.high - before.high, before.low - c.low;
    if up > down && up > 0.0 then up else 0.0
  }

  function MinusMove(before: Candle, c: Candle): real {
    var up, down := c.high - before.high, before.low - c.low;
    if down > up && down > 0.0 then down else 0.0
  }

  function Moves(candles: seq<Candle>, move: (Candle, Candle) -> real): (r: seq<real>)
    requires candles != []
    ensures |r| == |candles| - 1 && forall i :: 0 <= i < |r| ==> r[i] == move(candles[i], candles[i + 1])
  {
    seq(|candles| - 1, i requires 0 <= i < |candles| - 1 => move(candles[i], candles[i + 1]))
  }

  /** Trend strength from 0 to 100. */
  function Adx(candles: seq<Candle>): real {
    if |candles| < PERIOD + 1 then 0.0
    else
      Strength(Total(Last(Moves(candles, PlusMove), PERIOD)), Total(Last(Moves(candles, MinusMove), PERIOD)),
               Total(Last(TrueRanges(candles)[1..], PERIOD)))
  }

  /** How one-sided the moves up and down are. */
  function Strength(up: real, down: real, ranges: real): real {
    if ranges == 0.0 then 0.0
    else
      var plus, minus := 100.0 * up / ranges, 100.0 * down / ranges;
      if plus + minus == 0.0 then 0.0 else 100.0 * Abs(plus - minus) / (plus + minus)
  }

  /** The volatility after each number of candles from `PERIOD` on. */
  function Samples(candles: seq<Candle>): (r: seq<real>)
    requires |candles| >= PERIOD
    ensures |r| == |candles| - PERIOD + 1
    ensures forall i :: 0 <= i < |r| ==> r[i] == Atr(candles[..i + PERIOD], PERIOD)
  {
    seq(|candles| - PERIOD + 1, i requires 0 <= i < |candles| - PERIOD + 1 => Atr(candles[..i + PERIOD], PERIOD))
  }

  /** Values below `x` count one, values equal to it a half. */
  function MidRank(xs: seq<real>, x: real): real {
    if xs == [] then 0.0
    else
      var last := xs[|xs| - 1];
      MidRank(xs[..|xs| - 1], x) + (if last < x then 1.0 else if last == x then 0.5 else 0.0)
  }

  function VolatilityPercentile(candles: seq<Candle>): real {
    if |candles| < 2 * PERIOD then 0.5
    else
      var samples := Samples(candles);
      MidRank(samples, samples[|samples| - 1]) / |samples| as real
  }

  // ----- Screening and signal -----

  datatype Regime = Trending | Ranging | Volatile | Uncertain

  const ADX_MIN := 20.0
  const SOFT_LIMIT := 0.75
  const HARD_LIMIT := 0.9
  const MAX_VOLATILITY := 0.99

  function MarketRegime(trend1h: int, trend4h: int, adx: real, volatility: real): Regime {
    if volatility >= HARD_LIMIT then Volatile
    else if trend1h != 0 && trend1h == trend4h && adx >= ADX_MIN then Trending
    else if volatility <= SOFT_LIMIT then Ranging
    else Uncertain
  }

  /** The market gates that can fail in a replay, and the set-up gates; `trigger` is breakout or pullback. */
  predicate Eligible(trend1h: int, trend4h: int, adx: real, volatility: real, breakout: int, pullback: int) {
    var trigger := if breakout == trend1h then breakout else pullback;
    && volatility <= MAX_VOLATILITY && MarketRegime(trend1h, trend4h, adx, volatility).Trending?
    && trend1h != 0 && trend1h == trend4h && adx >= ADX_MIN
    && trigger != 0 && trigger == trend1h
  }

  const WINDOW := 480

  /** The pullback confirmation of a list of candles in a trend. */
  type Pullback = (seq<Candle>, int) -> int

  function Signal(candles: seq<Candle>, pullback: Pullback): Option<PositionSide> {
    var recent := Last(candles, WINDOW);
    var hours, fourHours := Aggregated(candles, 4), Aggregated(candles, 16);
    var trend1h, trend4h := TrendDirection(hours), TrendDirection(fourHours);
    if !Eligible(trend1h, trend4h, Adx(hours), VolatilityPercentile(recent), DonchianBreakout(recent),
                 pullback(recent, trend1h)) then None
    else if DonchianBreakout(candles) != trend1h && pullback(candles, trend1h) != trend1h then None
    else Some(if trend1h == 1 then Long else Short)
  }

  // ----- What the indicators measure -----

  /** The distance between the highest and the lowest of high, low and the close before. */
  lemma TrueRangeMeaning(before: Candle, c: Candle)
    requires c.low <= c.high
    ensures TrueRange(before, c) == Max(c.high, before.close) - Min(c.low, before.close)
  {
  }

  /** A value's rank and its rank from above make up the whole list. */
  lemma {:induction false} RanksFromBothEnds(xs: seq<real>, others: seq<real>, x: real)
    requires |others| == |xs| && forall i :: 0 <= i < |xs| ==> others[i] == -xs[i]
    ensures MidRank(xs, x) + MidRank(others, -x) == |xs| as real
    ensures (forall i :: 0 <= i < |xs| ==> xs[i] < x) ==> MidRank(xs, x) == |xs| as real
  {
    if xs != [] {
      RanksFromBothEnds(xs[..|xs| - 1], others[..|xs| - 1], x);
    }
  }

  /** Equal moves up and down make no trend, and nothing is stronger than moves one way only. */
  lemma StrengthRange(up: real, down: real, ranges: real)
    requires up >= 0.0 && down >= 0.0 && ranges > 0.0
    ensures 0.0 <= Strength(up, down, ranges) <= 100.0
    ensures up == down ==> Strength(up, down, ranges) == 0.0
  {
    var plus, minus := 100.0 * up / ranges, 100.0 * down / ranges;
    assert plus >= 0.0 && minus >= 0.0;
    if plus + minus != 0.0 {
      ShareRange(Abs(plus - minus), plus + minus);
      assert 100.0 * Abs(plus - minus) / (plus + minus) == 100.0 * (Abs(plus - minus) / (plus + minus));
    }
  }

  lemma ShareRange(part: real, whole: real)
    requires 0.0 <= part <= whole && whole > 0.0
    ensures 0.0 <= part / whole <= 1.0
    ensures part == 0.0 ==> part / whole == 0.0
  {
  }

  /**
    A signal asks for both trends one way, a strong trend, volatility below the hard limit, a breakout or
    a pullback that way in the window, and one of them in all the candles.
   */
  lemma SignalMeaning(candles: seq<Candle>, pullback: Pullback)
    ensures var recent, hours := Last(candles, WINDOW), Aggregated(candles, 4);
            var trend := TrendDirection(hours);
            var wanted :=
              && trend != 0 && trend == TrendDirection(Aggregated(candles, 16)) && Adx(hours) >= 20.0
              && VolatilityPercentile(recent) < 0.9
              && (DonchianBreakout(recent) == trend || pullback(recent, trend) == trend)
              && (DonchianBreakout(candles) == trend || pullback(candles, trend) == trend);
            Signal(candles, pullback) == if !wanted then None else if trend > 0 then Some(Long) else Some(Short)
  {
    hide TrendDirection, Adx, VolatilityPercentile, DonchianBreakout, Aggregated, Last;
    DirectionsAreUnits(Aggregated(candles, 4));
  }

  // ----- A staircase -----

  /** Every candle opens at its low and closes at its high, `step` above, where the next one opens. */
  predicate Stair(candles: seq<Candle>, step: real) {
    && step > 0.0
    && (forall i :: 0 <= i < |candles| ==>
                      && candles[i].open == candles[i].low && candles[i].close == candles[i].high
                      && candles[i].high == candles[i].low + step)
    && (forall i :: 0 < i < |candles| ==> candles[i].low == candles[i - 1].high)
  }

  predicate AllEqual(xs: seq<real>, x: real) {
    forall i :: 0 <= i < |xs| ==> xs[i] == x
  }

  function Times(n: nat, x: real): real {
    n as real * x
  }

  lemma TimesOne(n: nat, x: real)
    ensures Times(n + 1, x) == Times(n, x) + x && Times(0, x) == 0.0 && Times(1, x) == x
  {
  }

  lemma TimesPositive(n: nat, x: real)
    requires n > 0 && x > 0.0
    ensures Times(n, x) > 0.0 && Times(n, x) / n as real == x
  {
    MulStrict(0.0, n as real, x);
    Quotient(n as real, x);
  }

  lemma Quotient(n: real, x: real)
    requires n > 0.0
    ensures (n * x) / n == x
  {
  }

  lemma {:induction false} TotalOfEqual(xs: seq<real>, x: real)
    requires AllEqual(xs, x)
    ensures Total(xs) == Times(|xs|, x)
  {
    TimesOne(|xs|, x);
    if xs != [] {
      TotalOfEqual(xs[..|xs| - 1], x);
      TimesOne(|xs| - 1, x);
    }
    hide Times;
  }

  lemma {:induction false} StairRanges(candles: seq<Candle>, step: real)
    requires Stair(candles, step)
    ensures AllEqual(TrueRanges(candles), step)
  {
    if |candles| > 1 {
      StairRanges(candles[..|candles| - 1], step);
    }
  }

  /** The volatility of a staircase is its step. */
  lemma StairAtr(candles: seq<Candle>, step: real, period: nat)
    requires Stair(candles, step) && candles != [] && period > 0
    ensures Atr(candles, period) == step
  {
    StairRanges(candles, step);
    var window := Last(TrueRanges(candles), period);
    TotalOfEqual(window, step);
    TimesPositive(|window|, step);
    hide Times;
  }

  lemma {:induction false} MidRankOfEqual(xs: seq<real>, x: real)
    requires AllEqual(xs, x)
    ensures MidRank(xs, x) == Times(|xs|, 0.5)
  {
    TimesOne(|xs|, 0.5);
    if xs != [] {
      MidRankOfEqual(xs[..|xs| - 1], x);
      TimesOne(|xs| - 1, 0.5);
    }
    hide Times;
  }

  lemma StairVolatility(candles: seq<Candle>, step: real)
    requires Stair(candles, step)
    ensures VolatilityPercentile(candles) == 0.5
  {
    hide Atr;
    if |candles| >= 2 * PERIOD {
      var samples := Samples(candles);
      forall i | 0 <= i < |samples|
        ensures samples[i] == step
      {
        StairAtr(candles[..i + PERIOD], step, PERIOD);
      }
      MidRankOfEqual(samples, step);
      TimesPositive(|samples|, 0.5);
      hide Times;
    }
  }

  lemma {:induction false} StairExtremes(candles: seq<Candle>, step: real)
    requires Stair(candles, step) && candles != []
    ensures Highest(candles) == candles[|candles| - 1].high && Lowest(candles) == candles[0].low
    ensures candles[|candles| - 1].high == candles[0].low + Times(|candles|, step)
    ensures Times(|candles|, step) > 0.0
  {
    hide Times;
    TimesPositive(|candles|, step);
    TimesOne(|candles| - 1, step);
    if |candles| > 1 {
      StairExtremes(candles[..|candles| - 1], step);
    }
  }

  lemma StairBreaksOut(candles: seq<Candle>, step: real)
    requires Stair(candles, step) && |candles| > CHANNEL
    ensures DonchianBreakout(candles) == 1
  {
    StairExtremes(candles[|candles| - CHANNEL - 1..|candles| - 1], step);
  }

  /** Merging groups of a staircase makes a staircase of larger steps. */
  lemma {:induction false} AggregatedStair(candles: seq<Candle>, step: real, factor: nat)
    requires Stair(candles, step) && factor > 0
    ensures Stair(Aggregated(candles, factor), Times(factor, step))
    ensures Aggregated(candles, factor) != [] ==> Aggregated(candles, factor)[0].low == candles[0].low
    decreases |candles|
  {
    hide Times;
    TimesPositive(factor, step);
    if |candles| >= factor {
      var head, tail := candles[..factor], candles[factor..];
      StairExtremes(head, step);
      AggregatedStair(tail, step, factor);
      hide Highest, Lowest, Volume;
      var rest, all := Aggregated(tail, factor), Aggregated(candles, factor);
      assert all == [Merged(head)] + rest;
      if rest != [] {
        assert tail[0] == candles[factor] && tail[0].low == head[factor - 1].high;
      }
    }
  }

  lemma GroupsAtLeast(candles: seq<Candle>, factor: nat, groups: nat)
    requires factor > 0 && |candles| >= groups * factor
    ensures |Aggregated(candles, factor)| >= groups
  {
    var n := groups * factor;
    WholeProduct(groups, factor);
    assert candles == candles[..n] + candles[n..];
    AggregatedJoins(candles[..n], candles[n..], factor);
    GroupCount(candles[..n], factor, groups);
  }

  // ----- The trend of a staircase -----

  predicate Climbs(values: seq<real>, step: real) {
    step > 0.0 && forall i :: 0 < i < |values| ==> values[i] == values[i - 1] + step
  }

  /** How far the average is behind the last value. */
  function Lag(values: seq<real>, period: nat): real
    requires values != []
  {
    values[|values| - 1] - Ema(values, period)
  }

  lemma LagStep(values: seq<real>, step: real, period: nat)
    requires Climbs(values, step) && |values| > 1
    ensures Lag(values, period) == Worth(Lag(values[..|values| - 1], period) + step, 1.0 - Alpha(period))
    ensures Ema(values, period) - Ema(values[..|values| - 1], period) ==
            Worth(Lag(values[..|values| - 1], period) + step, Alpha(period))
  {
    var n := |values|;
    var before := Ema(values[..n - 1], period);
    AverageParts(values[n - 1], before, Alpha(period));
    hide Ema, Worth, Alpha;
    assert values[n - 1] == values[n - 2] + step;
  }

  lemma AverageParts(value: real, before: real, alpha: real)
    ensures var average := Worth(value, alpha) + Worth(before, 1.0 - alpha);
            && value - average == Worth(value - before, 1.0 - alpha)
            && average - before == Worth(value - before, alpha)
  {
  }

  lemma AlphaOrdered()
    ensures 0.0 < Alpha(SLOW) < Alpha(FAST) < 1.0
  {
  }

  lemma SlowerLags(fast: real, slow: real, a: real, b: real)
    requires 0.0 < fast <= slow && 0.0 < a < b
    ensures 0.0 < Worth(fast, a) < Worth(slow, b)
  {
    MulStrict(0.0, fast, a);
    MulMono(fast, slow, a);
    MulStrict(a, b, slow);
  }

  /** The slow average lags further behind, and both move up. */
  lemma {:induction false} ClimbLags(values: seq<real>, step: real)
    requires Climbs(values, step) && values != []
    ensures 0.0 <= Lag(values, FAST) <= Lag(values, SLOW)
    ensures |values| > 1 ==>
              && Lag(values, FAST) < Lag(values, SLOW)
              && Ema(values, FAST) > Ema(values[..|values| - 1], FAST)
  {
    if |values| > 1 {
      var front := values[..|values| - 1];
      ClimbLags(front, step);
      AlphaOrdered();
      LagStep(values, step, FAST);
      LagStep(values, step, SLOW);
      hide Ema, Worth, Alpha, Lag;
      SlowerLags(Lag(front, FAST) + step, Lag(front, SLOW) + step, 1.0 - Alpha(FAST), 1.0 - Alpha(SLOW));
      SlowerLags(Lag(front, FAST) + step, Lag(front, FAST) + step, Alpha(SLOW), Alpha(FAST));
    }
  }

  lemma ClimbingEma(values: seq<real>, step: real)
    requires Climbs(values, step) && |values| >= 4
    ensures Ema(values, FAST) > Ema(values[..|values| - 3], FAST)
  {
    hide Ema;
    var n := |values|;
    var a, b := values[..n - 1], values[..n - 2];
    assert a[..n - 2] == b && b[..n - 3] == values[..n - 3];
    ClimbLags(values, step);
    ClimbLags(a, step);
    ClimbLags(b, step);
  }

  lemma StairTrend(candles: seq<Candle>, step: real)
    requires Stair(candles, step) && |candles| >= SLOW
    ensures TrendDirection(candles) == 1
  {
    var closes := Closes(candles);
    assert Climbs(closes, step);
    ClimbLags(closes, step);
    ClimbingEma(closes, step);
    hide Ema;
  }

  lemma StairMoves(candles: seq<Candle>, step: real)
    requires Stair(candles, step) && candles != []
    ensures AllEqual(Moves(candles, PlusMove), step) && AllEqual(Moves(candles, MinusMove), 0.0)
  {
    forall i | 0 <= i < |candles| - 1
      ensures PlusMove(candles[i], candles[i + 1]) == step && MinusMove(candles[i], candles[i + 1]) == 0.0
    {
      assert candles[i + 1].low == candles[i].high;
    }
  }

  lemma TotalOfLast(xs: seq<real>, x: real, n: nat)
    requires AllEqual(xs, x) && |xs| >= n
    ensures Total(Last(xs, n)) == Times(n, x)
  {
    TotalOfEqual(Last(xs, n), x);
    hide Times, Total;
  }

  lemma StairStrength(candles: seq<Candle>, step: real)
    requires Stair(candles, step) && |candles| > PERIOD
    ensures Adx(candles) == 100.0
  {
    StairRanges(candles, step);
    StairMoves(candles, step);
    hide Times, TrueRanges, Moves, Last, Total, Strength, Stair;
    TotalOfLast(TrueRanges(candles)[1..], step, PERIOD);
    TotalOfLast(Moves(candles, PlusMove), step, PERIOD);
    TotalOfLast(Moves(candles, MinusMove), 0.0, PERIOD);
    TimesPositive(PERIOD, step);
    TimesZero(PERIOD);
    OneSided(Times(PERIOD, step));
  }

  lemma TimesZero(n: nat)
    ensures Times(n, 0.0) == 0.0
  {
  }

  lemma OneSided(up: real)
    requires up > 0.0
    ensures Strength(up, 0.0, up) == 100.0
  {
    Quotient(up, 100.0);
    assert 100.0 * up / up == 100.0;
    assert 100.0 * 0.0 / up == 0.0;
  }

  // ----- The signal of a staircase -----

  lemma StairPart(candles: seq<Candle>, step: real, i: nat, j: nat)
    requires Stair(candles, step) && i <= j <= |candles|
    ensures Stair(candles[i..j], step)
  {
  }

  /** Rising by equal steps gives no signal before there are fifty four-hour candles, and a long one from then on. */
  lemma StairSignal(candles: seq<Candle>, step: real, pullback: Pullback)
    requires Stair(candles, step)
    ensures Signal(candles, pullback) == if |candles| < 16 * SLOW then None else Some(Long)
    ensures candles != [] ==> Atr(Last(candles, WINDOW), PERIOD) == step
  {
    hide TrendDirection, Adx, VolatilityPercentile, DonchianBreakout, Aggregated, Times, Atr;
    var n := |candles|;
    var recent := Last(candles, WINDOW);
    StairPart(candles, step, n - |recent|, n);
    assert candles[n - |recent|..n] == recent;
    if n > 0 {
      StairAtr(recent, step, PERIOD);
    }
    if n < 16 * SLOW {
      GroupCount(candles, 16, SLOW);
      NoTrend(Aggregated(candles, 16));
    } else {
      GroupsAtLeast(candles, 16, SLOW);
      GroupsAtLeast(candles, 4, 4 * SLOW);
      AggregatedStair(candles, step, 4);
      AggregatedStair(candles, step, 16);
      StairTrend(Aggregated(candles, 4), Times(4, step));
      StairTrend(Aggregated(candles, 16), Times(16, step));
      StairStrength(Aggregated(candles, 4), Times(4, step));
      StairVolatility(recent, step);
      StairBreaksOut(recent, step);
      StairBreaksOut(candles, step);
    }
  }

  lemma NoTrend(candles: seq<Candle>)
    ensures |candles| < SLOW ==> TrendDirection(candles) == 0
  {
  }

  // ----- Rising and falling markets are treated alike -----

  /** The same market upside down: prices are measured downwards from a level. */
  function Reflection(c: Candle, level: real): Candle {
    c.(open := level - c.open, high := level - c.low, low := level - c.high, close := level - c.close)
  }

  function Reflected(candles: seq<Candle>, level: real): (r: seq<Candle>)
    ensures |r| == |candles| && forall i :: 0 <= i < |r| ==> r[i] == Reflection(candles[i], level)
  {
    seq(|candles|, i requires 0 <= i < |candles| => Reflection(candles[i], level))
  }

  /** The pullback confirmation of the market upside down. */
  function Opposite(pullback: Pullback, level: real): Pullback {
    (candles, trend) => -pullback(Reflected(candles, level), -trend)
  }

  function Flipped(side: Option<PositionSide>): Option<PositionSide> {
    if side.None? then None else Some(if side.value.Long? then Short else Long)
  }

  lemma ReflectedTwice(candles: seq<Candle>, level: real)
    ensures Reflected(Reflected(candles, level), level) == candles
  {
  }

  lemma ReflectedParts(candles: seq<Candle>, level: real, i: nat, j: nat)
    requires i <= j <= |candles|
    ensures Reflected(candles, level)[i..j] == Reflected(candles[i..j], level)
  {
  }

  lemma ReflectedLast(candles: seq<Candle>, level: real, n: nat)
    ensures Last(Reflected(candles, level), n) == Reflected(Last(candles, n), level)
  {
    if |candles| > n {
      ReflectedParts(candles, level, |candles| - n, |candles|);
      assert candles[|candles| - n..] == candles[|candles| - n..|candles|];
    }
  }

  lemma ReflectedRange(before: Candle, c: Candle, level: real)
    ensures TrueRange(Reflection(before, level), Reflection(c, level)) == TrueRange(before, c)
  {
  }

  lemma {:induction false} ReflectedRanges(candles: seq<Candle>, level: real)
    ensures TrueRanges(Reflected(candles, level)) == TrueRanges(candles)
  {
    hide TrueRange;
    var n := |candles|;
    if n > 1 {
      ReflectedRange(candles[n - 2], candles[n - 1], level);
      ReflectedRanges(candles[..n - 1], level);
      ReflectedParts(candles, level, 0, n - 1);
      assert Reflected(candles, level)[..n - 1] == Reflected(candles, level)[0..n - 1];
      assert candles[..n - 1] == candles[0..n - 1];
    }
  }

  lemma ReflectedAtr(candles: seq<Candle>, level: real, period: nat)
    requires period > 0
    ensures Atr(Reflected(candles, level), period) == Atr(candles, period)
  {
    hide TrueRanges;
    ReflectedRanges(candles, level);
  }

  lemma ReflectedVolatility(candles: seq<Candle>, level: real)
    ensures VolatilityPercentile(Reflected(candles, level)) == VolatilityPercentile(candles)
  {
    hide Atr, MidRank;
    var other := Reflected(candles, level);
    if |candles| >= 2 * PERIOD {
      forall i | 0 <= i < |candles| - PERIOD + 1
        ensures Samples(other)[i] == Samples(candles)[i]
      {
        ReflectedAtr(candles[..i + PERIOD], level, PERIOD);
        ReflectedParts(candles, level, 0, i + PERIOD);
        assert other[..i + PERIOD] == other[0..i + PERIOD] && candles[..i + PERIOD] == candles[0..i + PERIOD];
      }
      assert Samples(other) == Samples(candles);
    }
  }

  lemma {:induction false} ReflectedExtremes(candles: seq<Candle>, level: real)
    requires candles != []
    ensures Highest(Reflected(candles, level)) == level - Lowest(candles)
    ensures Lowest(Reflected(candles, level)) == level - Highest(candles)
  {
    var n := |candles|;
    if n > 1 {
      ReflectedExtremes(candles[..n - 1], level);
      ReflectedParts(candles, level, 0, n - 1);
      assert Reflected(candles, level)[..n - 1] == Reflected(candles, level)[0..n - 1];
      assert candles[..n - 1] == candles[0..n - 1];
    }
  }

  lemma {:induction false} SameVolume(candles: seq<Candle>, level: real)
    ensures Volume(Reflected(candles, level)) == Volume(candles)
  {
    var n := |candles|;
    if n > 0 {
      SameVolume(candles[..n - 1], level);
      ReflectedParts(candles, level, 0, n - 1);
      assert Reflected(candles, level)[..n - 1] == Reflected(candles, level)[0..n - 1];
      assert candles[..n - 1] == candles[0..n - 1];
    }
  }

  lemma ReflectedMerged(group: seq<Candle>, level: real)
    requires group != []
    ensures Merged(Reflected(group, level)) == Reflection(Merged(group), level)
  {
    hide Highest, Lowest, Volume;
    ReflectedExtremes(group, level);
    SameVolume(group, level);
  }

  lemma {:induction false} ReflectedAggregated(candles: seq<Candle>, level: real, factor: nat)
    requires factor > 0
    ensures Aggregated(Reflected(candles, level), factor) == Reflected(Aggregated(candles, factor), level)
    decreases |candles|
  {
    hide Merged;
    var other := Reflected(candles, level);
    if |candles| >= factor {
      ReflectedMerged(candles[..factor], level);
      ReflectedAggregated(candles[factor..], level, factor);
      ReflectedParts(candles, level, 0, factor);
      ReflectedParts(candles, level, factor, |candles|);
      assert candles[0..factor] == candles[..factor] && other[0..factor] == other[..factor];
      assert candles[factor..|candles|] == candles[factor..] && other[factor..|candles|] == other[factor..];
    }
  }

  /** An average of values measured from a level is the average measured from it. */
  lemma {:induction false} ReflectedEma(values: seq<real>, others: seq<real>, level: real, period: nat)
    requires values != [] && |others| == |values|
    requires forall i :: 0 <= i < |values| ==> others[i] == level - values[i]
    ensures Ema(others, period) == level - Ema(values, period)
  {
    var n := |values|;
    if n > 1 {
      ReflectedEma(values[..n - 1], others[..n - 1], level, period);
      ReflectedAverage(values[n - 1], Ema(values[..n - 1], period), level, Alpha(period));
    }
  }

  lemma ReflectedAverage(value: real, before: real, level: real, alpha: real)
    ensures Worth(level - value, alpha) + Worth(level - before, 1.0 - alpha)
            == level - (Worth(value, alpha) + Worth(before, 1.0 - alpha))
  {
  }

  lemma ReflectedTrend(candles: seq<Candle>, level: real)
    ensures TrendDirection(Reflected(candles, level)) == -TrendDirection(candles)
  {
    hide Ema;
    if |candles| >= SLOW {
      var closes, others := Closes(candles), Closes(Reflected(candles, level));
      ReflectedEma(closes, others, level, FAST);
      ReflectedEma(closes, others, level, SLOW);
      ReflectedEma(closes[..|closes| - 3], others[..|closes| - 3], level, FAST);
    }
  }

  lemma ReflectedBreakout(candles: seq<Candle>, level: real)
    requires Ranged(candles)
    ensures DonchianBreakout(Reflected(candles, level)) == -DonchianBreakout(candles)
  {
    hide Highest, Lowest;
    var n := |candles|;
    if n > CHANNEL {
      ReflectedParts(candles, level, n - CHANNEL - 1, n - 1);
      ReflectedExtremes(candles[n - CHANNEL - 1..n - 1], level);
      ExtremesOrdered(candles[n - CHANNEL - 1..n - 1]);
    }
  }

  /** No candle's low is above its high. */
  predicate Ranged(candles: seq<Candle>) {
    forall i :: 0 <= i < |candles| ==> candles[i].low <= candles[i].high
  }

  lemma {:induction false} ExtremesOrdered(candles: seq<Candle>)
    requires candles != [] && Ranged(candles)
    ensures Lowest(candles) <= Highest(candles)
  {
    if |candles| > 1 {
      ExtremesOrdered(candles[..|candles| - 1]);
    }
  }

  lemma ReflectedMoves(candles: seq<Candle>, level: real)
    requires candles != []
    ensures Moves(Reflected(candles, level), PlusMove) == Moves(candles, MinusMove)
    ensures Moves(Reflected(candles, level), MinusMove) == Moves(candles, PlusMove)
  {
  }

  lemma StrengthEitherWay(up: real, down: real, ranges: real)
    ensures Strength(up, down, ranges) == Strength(down, up, ranges)
  {
  }

  lemma ReflectedAdx(candles: seq<Candle>, level: real)
    ensures Adx(Reflected(candles, level)) == Adx(candles)
  {
    hide TrueRanges, Strength, Total;
    if |candles| >= PERIOD + 1 {
      ReflectedRanges(candles, level);
      ReflectedMoves(candles, level);
      StrengthEitherWay(Total(Last(Moves(candles, PlusMove), PERIOD)), Total(Last(Moves(candles, MinusMove), PERIOD)),
                        Total(Last(TrueRanges(candles)[1..], PERIOD)));
    }
  }

  lemma DirectionsAreUnits(candles: seq<Candle>)
    ensures TrendDirection(candles) in {-1, 0, 1} && DonchianBreakout(candles) in {-1, 0, 1}
  {
    hide Ema, Highest, Lowest;
  }

  /** Turning a market upside down turns its signal around, whatever the candles. */
  lemma SignalReflects(candles: seq<Candle>, level: real, pullback: Pullback)
    requires Ranged(candles)
    ensures Signal(Reflected(candles, level), Opposite(pullback, level)) == Flipped(Signal(candles, pullback))
  {
    hide TrendDirection, Adx, VolatilityPercentile, DonchianBreakout, Aggregated, Reflected, Last;
    var recent := Last(candles, WINDOW);
    var hours, fourHours := Aggregated(candles, 4), Aggregated(candles, 16);
    ReflectedLast(candles, level, WINDOW);
    ReflectedAggregated(candles, level, 4);
    ReflectedAggregated(candles, level, 16);
    ReflectedTrend(hours, level);
    ReflectedTrend(fourHours, level);
    ReflectedAdx(hours, level);
    ReflectedVolatility(recent, level);
    assert forall i :: 0 <= i < |recent| ==> recent[i] in candles;
    ReflectedBreakout(recent, level);
    ReflectedBreakout(candles, level);
    ReflectedTwice(recent, level);
    ReflectedTwice(candles, level);
    DirectionsAreUnits(hours);
    DirectionsAreUnits(fourHours);
    var trend := TrendDirection(hours);
    var other, opposite := Reflected(candles, level), Opposite(pullback, level);
    assert opposite(Reflected(recent, level), -trend) == -pullback(recent, trend);
    assert opposite(other, -trend) == -pullback(candles, trend);
  }

  lemma StairIsRanged(candles: seq<Candle>, step: real)
    requires Stair(candles, step)
    ensures Ranged(candles)
  {
  }

  /** Falling by equal steps gives a short signal from fifty four-hour candles on, and none before. */
  lemma FallingSignal(candles: seq<Candle>, level: real, step: real, pullback: Pullback)
    requires Stair(Reflected(candles, level), step)
    ensures Signal(candles, pullback) == if |candles| < 16 * SLOW then None else Some(Short)
  {
    hide Signal, Stair;
    var rising := Reflected(candles, level);
    StairIsRanged(rising, step);
    ReflectedTwice(candles, level);
    assert forall i :: 0 <= i < |candles| ==> rising[i] == Reflection(candles[i], level);
    StairSignal(rising, step, Opposite(pullback, level));
    SignalReflects(candles, level, pullback);
  }
}
