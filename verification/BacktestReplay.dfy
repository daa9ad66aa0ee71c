/**
  The single-symbol replay: one position at a time, sized by risk, managed candle by candle.
  Funding is taken from the account but not from the trade results, which decides what the
  reported net profit is the sum of.
 */
module BacktestReplay {
  import opened Common
  import opened CandleAggregation
  import opened ExitPolicy
  import opened TrendSignal
  import Sim = SimPosition

  datatype Config = Config(
    initialEquity: real, riskPct: real, stopAtr: real, targetAtr: real, costs: Sim.Costs,
    fundingRate: real, dailyLossPct: real, maxDrawdownPct: real)

  predicate ValidConfig(c: Config) {
    c.initialEquity > 0.0 && c.stopAtr > 0.0 && c.targetAtr > 0.0 && Sim.SaneCosts(c.costs)
  }

  /** A candle with its day, the volatility of the candles before it, and the signal that follows it. */
  datatype Bar = Bar(candle: Candle, day: int, atr: real, signal: Option<PositionSide>)

  datatype Report = Report(finalEquity: real, netProfit: real, fees: real, funding: real, tradePnls: seq<real>)

  datatype ReplayError = TooFewCandles | DayStartIsZero

  /** The position of a signal; a positive risk distance always leaves room for a first target. */
  function Opening(side: PositionSide, rawEntry: real, atr: real, equity: real, c: Config): Sim.Position
    requires ValidConfig(c) && atr > 0.0
  {
    var entry := Sim.EntryPrice(side, rawEntry, c.costs.slippageRate);
    var risk := Worth(atr, c.stopAtr);
    RiskPositive(atr, c.stopAtr);
    RiskPositive(atr, c.targetAtr);
    var quantity := Units(Worth(equity, c.riskPct), risk);
    var stop := entry - Direction(side) * risk;
    var target := entry + Direction(side) * Worth(atr, c.targetAtr);
    var tp1 := FirstTakeProfit(entry, stop, target, side);
    Sim.Position(side, quantity, entry, tp1.value, target, quantity, stop, entry, entry, 0.0,
                 Sim.Fee(entry, quantity, c.costs.feeRate), Sim.Slip(entry, rawEntry, quantity), false, false)
  }

  /** An opening risks exactly its share of the equity, and its prices are in order. */
  lemma OpeningRisksItsShare(side: PositionSide, rawEntry: real, atr: real, equity: real, c: Config)
    requires ValidConfig(c) && atr > 0.0
    ensures var p := Opening(side, rawEntry, atr, equity, c);
            && Worth(p.quantity, Abs(p.entry - p.stop)) == Worth(equity, c.riskPct)
            && Tighter(side, p.entry, p.stop) && Tighter(side, p.tp1, p.entry) && Tighter(side, p.tp2, p.tp1)
            && Abs(p.tp1 - p.entry) <= Abs(p.entry - p.stop)
            && Abs(p.entry - p.stop) == Worth(atr, c.stopAtr) && Abs(p.tp2 - p.entry) == Worth(atr, c.targetAtr)
            && p.side == side && p.entry == Sim.EntryPrice(side, rawEntry, c.costs.slippageRate)
            && p.highest == p.lowest == p.entry && p.remaining == p.quantity && p.realized == 0.0
            && !p.tp1Hit && !p.tp2Hit
  {
    hide Worth, Units, Sim.EntryPrice, Sim.Fee, Sim.Slip, FirstTakeProfit;
    var risk := Worth(atr, c.stopAtr);
    RiskPositive(atr, c.stopAtr);
    RiskPositive(atr, c.targetAtr);
    WorthOfUnits(Worth(equity, c.riskPct), risk);
  }

  /** Going in costs a share of the raw value, and a fee on the slipped one. */
  lemma OpeningCosts(side: PositionSide, rawEntry: real, atr: real, equity: real, c: Config)
    requires ValidConfig(c) && atr > 0.0 && rawEntry >= 0.0
    ensures Sim.Costed(Opening(side, rawEntry, atr, equity, c), rawEntry, [], c.costs)
  {
    var p := Opening(side, rawEntry, atr, equity, c);
    Sim.EntryCosted(side, p.quantity, rawEntry, c.costs);
    hide Sim.EntryPrice, Sim.Fee, Sim.Slip, Units, FirstTakeProfit, Worth;
  }

  lemma RiskPositive(atr: real, multiple: real)
    requires atr > 0.0 && multiple > 0.0
    ensures Worth(atr, multiple) > 0.0
  {
    MulStrict(0.0, atr, multiple);
  }

  /** Charged on every 32nd candle, whichever the side. */
  function Funding(p: Sim.Position, index: nat, rate: real): real {
    if index % 32 != 0 then 0.0 else Worth(Worth(p.entry, p.remaining), rate)
  }

  function OpenNet(p: Option<Sim.Position>): real {
    if p.None? then 0.0 else p.value.realized - p.value.fees
  }

  function Unrealized(p: Option<Sim.Position>, price: real): real {
    if p.None? then 0.0 else Sim.Gain(p.value.side, p.value.entry, price, p.value.remaining)
  }

  datatype Account = Account(equity: real, fees: real, funding: real, tradePnls: seq<real>, position: Option<Sim.Position>)

  /** Cash is the closed trades plus the open position, less all funding. */
  predicate Balanced(a: Account, initial: real) {
    a.equity == initial + Total(a.tradePnls) + OpenNet(a.position) - a.funding
  }

  /** One candle of an open position. */
  function Managed(a: Account, candle: Candle, atr: real, index: nat, c: Config): Account
    requires a.position.Some?
  {
    var p := a.position.value;
    var funding := Funding(p, index, c.fundingRate);
    var r := Sim.Managed(p, candle, atr, c.costs);
    var pnl, fee := r.realized - p.realized, r.fees - p.fees;
    var closed := Sim.Closes(p, candle, r);
    Account(a.equity - funding + pnl - fee, a.fees + fee, a.funding + funding,
            if closed then a.tradePnls + [r.realized - r.fees] else a.tradePnls,
            if closed then None else Some(r))
  }

  lemma ManagedBalances(a: Account, candle: Candle, atr: real, index: nat, c: Config)
    requires a.position.Some? && Balanced(a, c.initialEquity)
    ensures Balanced(Managed(a, candle, atr, index, c), c.initialEquity)
  {
    hide Sim.Managed, Sim.StopTouched, Funding;
    TotalAppended(a.tradePnls, Sim.Managed(a.position.value, candle, atr, c.costs).realized
                               - Sim.Managed(a.position.value, candle, atr, c.costs).fees);
    hide Total;
  }

  function ClosedAt(a: Account, price: real, c: Config): (r: Account)
    requires a.position.Some?
    ensures r.position.None? && r.funding == a.funding
  {
    var p := a.position.value;
    var r := Sim.Realized(p, price, p.remaining, c.costs);
    a.(equity := a.equity + (r.realized - p.realized) - (r.fees - p.fees), fees := a.fees + (r.fees - p.fees),
       tradePnls := a.tradePnls + [r.realized - r.fees], position := None)
  }

  lemma ClosedBalances(a: Account, price: real, c: Config)
    requires a.position.Some? && Balanced(a, c.initialEquity)
    ensures Balanced(ClosedAt(a, price, c), c.initialEquity)
  {
    hide Sim.Realized;
    var r := Sim.Realized(a.position.value, price, a.position.value.remaining, c.costs);
    TotalAppended(a.tradePnls, r.realized - r.fees);
    hide Total;
  }

  /** Before costs an account moves by what its position realizes, candle by candle and at the close. */
  function Gross(a: Account): real {
    a.equity + a.fees + a.funding
  }

  lemma CandleMovesGross(a: Account, candle: Candle, atr: real, index: nat, c: Config)
    requires a.position.Some?
    ensures var p, r := a.position.value, Sim.Managed(a.position.value, candle, atr, c.costs);
            var b := Managed(a, candle, atr, index, c);
            && Gross(b) == Gross(a) + (r.realized - p.realized)
            && b.fees == a.fees + (r.fees - p.fees)
            && (b.position.Some? ==> b.position.value == r && b.tradePnls == a.tradePnls)
            && (b.position.None? ==> b.tradePnls == a.tradePnls + [r.realized - r.fees])
            && (b.position.Some? <==> !Sim.StopTouched(p, candle) && r.remaining > 0.0)
  {
    hide Sim.Managed, Funding, Sim.StopTouched;
  }

  lemma CloseMovesGross(a: Account, price: real, c: Config)
    requires a.position.Some?
    ensures var p, r := a.position.value, Sim.Realized(a.position.value, price, a.position.value.remaining, c.costs);
            && Gross(ClosedAt(a, price, c)) == Gross(a) + (r.realized - p.realized)
            && ClosedAt(a, price, c).fees == a.fees + (r.fees - p.fees)
            && ClosedAt(a, price, c).tradePnls == a.tradePnls + [r.realized - r.fees]
  {
    hide Sim.Realized;
  }

  // ----- The replay as a recursion over the bars -----

  datatype Replay = Replay(
    account: Account, peak: real, dayStart: real, day: int, pending: Option<PositionSide>, halted: bool)

  function Start(bars: seq<Bar>, c: Config): Replay
    requires bars != []
  {
    Replay(Account(c.initialEquity, 0.0, 0.0, [], None), c.initialEquity, c.initialEquity, bars[0].day, None, false)
  }

  /** A new day starts its loss count; a pending signal opens at the open of the bar. */
  function Opened(s: Replay, bar: Bar, c: Config): (r: Replay)
    requires ValidConfig(c)
    ensures r.peak == s.peak && r.halted == s.halted
  {
    var dayStart, a := if bar.day != s.day then s.account.equity else s.dayStart, s.account;
    var today := s.(day := bar.day, dayStart := dayStart);
    if s.pending.Some? && a.position.None? && bar.atr > 0.0 && !s.halted then
      var p := Opening(s.pending.value, bar.candle.open, bar.atr, a.equity, c);
      today.(account := a.(position := Some(p), fees := a.fees + p.fees, equity := a.equity - p.fees), pending := None)
    else today
  }

  function Carried(s: Replay, bar: Bar, index: nat, c: Config): (r: Replay)
    ensures r == s.(account := r.account)
  {
    if s.account.position.None? then s
    else s.(account := Managed(s.account, bar.candle, bar.atr, index, c))
  }

  /** The end of a bar: the marked account moves the peak and may trip a breaker. */
  function Judged(s: Replay, bar: Bar, index: nat, c: Config): (r: Result<Replay, ReplayError>)
    requires s.peak > 0.0
    ensures r.Ok? ==> r.value.peak > 0.0 && r.value.account == s.account
  {
    var marked := s.account.equity + Unrealized(s.account.position, bar.candle.close);
    var peak := Max(s.peak, marked);
    var pending := if s.account.position.None? && index >= 220 && !s.halted then bar.signal else s.pending;
    if s.dayStart == 0.0 then Err(DayStartIsZero)
    else if (s.dayStart - marked) / s.dayStart >= c.dailyLossPct || (peak - marked) / peak >= c.maxDrawdownPct
    then Ok(s.(peak := peak, halted := true, pending := None))
    else Ok(s.(peak := peak, pending := pending))
  }

  /** The state after the first `n` bars. */
  function After(bars: seq<Bar>, n: nat, c: Config): (r: Result<Replay, ReplayError>)
    requires n <= |bars| && bars != [] && ValidConfig(c)
    ensures r.Ok? ==> r.value.peak > 0.0
  {
    if n == 0 then Ok(Start(bars, c))
    else
      var before := After(bars, n - 1, c);
      if before.Err? then before
      else Judged(Carried(Opened(before.value, bars[n - 1], c), bars[n - 1], n - 1, c), bars[n - 1], n - 1, c)
  }

  /** The account at the end: what is still open leaves at the last close. */
  function Final(bars: seq<Bar>, c: Config): Result<Account, ReplayError>
    requires ValidConfig(c)
  {
    if |bars| < 240 then Err(TooFewCandles)
    else
      var end := After(bars, |bars|, c);
      if end.Err? then Err(end.error)
      else
        var a := end.value.account;
        Ok(if a.position.None? then a else ClosedAt(a, bars[|bars| - 1].candle.close, c))
  }

  /** The replay computes the recursion; in particular net profit is the trade results less all funding. */
  method Run(bars: seq<Bar>, c: Config) returns (r: Result<Report, ReplayError>)
    requires ValidConfig(c)
    ensures |bars| < 240 <==> r == Err(TooFewCandles)
    ensures var end := Final(bars, c);
            if end.Err? then r == Err(end.error)
            else
              var a := end.value;
              && r == Ok(Report(a.equity, a.equity - c.initialEquity, a.fees, a.funding, a.tradePnls))
              && r.value.netProfit == Total(a.tradePnls) - a.funding
  {
    hide Managed, Opening, Unrealized, Total, Sim.Realized, Balanced, After, Final, ClosedAt, Max;
    FinalMeans(bars, c);
    if |bars| < 240 {
      return Err(TooFewCandles);
    }
    var a := Account(c.initialEquity, 0.0, 0.0, [], None);
    var peak, dayStart, day := c.initialEquity, c.initialEquity, bars[0].day;
    var pending: Option<PositionSide> := None;
    var halted := false;
    AfterStep(bars, 0, c);
    for i := 0 to |bars|
      invariant peak > 0.0
      invariant After(bars, i, c) == Ok(Replay(a, peak, dayStart, day, pending, halted))
    {
      var bar := bars[i];
      ghost var before := Replay(a, peak, dayStart, day, pending, halted);
      if bar.day != day {
        day, dayStart := bar.day, a.equity;
      }
      if pending.Some? && a.position.None? && bar.atr > 0.0 && !halted {
        var p := Opening(pending.value, bar.candle.open, bar.atr, a.equity, c);
        a := a.(position := Some(p), fees := a.fees + p.fees, equity := a.equity - p.fees);
        pending := None;
      }
      assert Opened(before, bar, c) == Replay(a, peak, dayStart, day, pending, halted);
      hide Opened;
      if a.position.Some? {
        a := Managed(a, bar.candle, bar.atr, i, c);
      }
      assert Carried(Opened(before, bar, c), bar, i, c) == Replay(a, peak, dayStart, day, pending, halted);
      hide Carried;
      var marked := a.equity + Unrealized(a.position, bar.candle.close);
      peak := Max(peak, marked);
      if a.position.None? && i >= 220 && !halted {
        pending := bar.signal;
      }
      AfterStep(bars, i, c);
      AfterErrors(bars, i + 1, c);
      if dayStart == 0.0 {
        return Err(DayStartIsZero);
      }
      if (dayStart - marked) / dayStart >= c.dailyLossPct || (peak - marked) / peak >= c.maxDrawdownPct {
        halted, pending := true, None;
      }
    }
    AfterBalances(bars, |bars|, c);
    BalancedMeans(a, c.initialEquity);
    if a.position.Some? {
      ClosedBalances(a, bars[|bars| - 1].candle.close, c);
      a := ClosedAt(a, bars[|bars| - 1].candle.close, c);
      BalancedMeans(a, c.initialEquity);
    }
    return Ok(Report(a.equity, a.equity - c.initialEquity, a.fees, a.funding, a.tradePnls));
  }

  lemma AfterStep(bars: seq<Bar>, n: nat, c: Config)
    requires n < |bars| && ValidConfig(c)
    ensures After(bars, 0, c) == Ok(Start(bars, c))
    ensures After(bars, n, c).Ok? ==>
              After(bars, n + 1, c) == Judged(Carried(Opened(After(bars, n, c).value, bars[n], c), bars[n], n, c), bars[n], n, c)
  {
    hide Judged, Carried, Opened;
  }

  lemma FinalMeans(bars: seq<Bar>, c: Config)
    requires ValidConfig(c)
    ensures |bars| < 240 ==> Final(bars, c) == Err(TooFewCandles)
    ensures |bars| >= 240 ==>
              var end := After(bars, |bars|, c);
              Final(bars, c) == if end.Err? then Err(end.error)
                                else if end.value.account.position.None? then Ok(end.value.account)
                                else Ok(ClosedAt(end.value.account, bars[|bars| - 1].candle.close, c))
  {
    hide After, ClosedAt;
  }

  lemma BalancedMeans(a: Account, initial: real)
    requires Balanced(a, initial)
    ensures a.position.None? ==> a.equity - initial == Total(a.tradePnls) - a.funding
  {
    hide Total;
  }

  /** A replay that stopped early stays stopped, for the one reason there is. */
  lemma {:induction false} AfterErrors(bars: seq<Bar>, n: nat, c: Config)
    requires n <= |bars| && bars != [] && ValidConfig(c)
    ensures After(bars, n, c).Err? ==>
              After(bars, n, c).error == DayStartIsZero && After(bars, |bars|, c) == After(bars, n, c)
    decreases |bars| - n
  {
    hide Managed, Opening, Unrealized, Opened, Carried;
    AfterReason(bars, n, c);
    if n < |bars| {
      AfterErrors(bars, n + 1, c);
    }
  }

  lemma {:induction false} AfterReason(bars: seq<Bar>, n: nat, c: Config)
    requires n <= |bars| && bars != [] && ValidConfig(c)
    ensures After(bars, n, c).Err? ==> After(bars, n, c).error == DayStartIsZero
  {
    hide Managed, Opening, Unrealized, Opened, Carried;
    if n > 0 {
      AfterReason(bars, n - 1, c);
    }
  }

  lemma OpenedBalances(s: Replay, bar: Bar, c: Config)
    requires ValidConfig(c) && Balanced(s.account, c.initialEquity)
    ensures Balanced(Opened(s, bar, c).account, c.initialEquity)
  {
    hide Total, Sim.Fee, Sim.EntryPrice, Sim.Slip, FirstTakeProfit;
  }

  lemma {:induction false} AfterBalances(bars: seq<Bar>, n: nat, c: Config)
    requires n <= |bars| && bars != [] && ValidConfig(c)
    ensures After(bars, n, c).Ok? ==> Balanced(After(bars, n, c).value.account, c.initialEquity)
  {
    hide Managed, Opening, Unrealized, Opened, Balanced;
    if n == 0 {
      StartBalances(bars, c);
    } else if After(bars, n - 1, c).Ok? {
      AfterBalances(bars, n - 1, c);
      var before, bar := After(bars, n - 1, c).value, bars[n - 1];
      OpenedBalances(before, bar, c);
      var entered := Opened(before, bar, c);
      if entered.account.position.Some? {
        ManagedBalances(entered.account, bar.candle, bar.atr, n - 1, c);
      }
    }
  }

  lemma StartBalances(bars: seq<Bar>, c: Config)
    requires bars != []
    ensures Balanced(Start(bars, c).account, c.initialEquity)
  {
  }

  // ----- When net profit is the sum of the trade results -----

  /** A position is in the market during the bar at `i`. */
  predicate Carries(bars: seq<Bar>, i: nat, c: Config)
    requires i < |bars| && ValidConfig(c)
  {
    var before := After(bars, i, c);
    before.Ok? && Opened(before.value, bars[i], c).account.position.Some?
  }

  /** The notional value of the position during the bar at `i`. */
  function CarriedValue(bars: seq<Bar>, i: nat, c: Config): real
    requires i < |bars| && ValidConfig(c)
  {
    if !Carries(bars, i, c) then 0.0
    else
      var p := Opened(After(bars, i, c).value, bars[i], c).account.position.value;
      Worth(p.entry, p.remaining)
  }

  /** All notional value funding was charged on in the first `n` bars. */
  function Charged(bars: seq<Bar>, n: nat, c: Config): real
    requires n <= |bars| && ValidConfig(c)
  {
    if n == 0 then 0.0
    else Charged(bars, n - 1, c) + (if (n - 1) % 32 == 0 then CarriedValue(bars, n - 1, c) else 0.0)
  }

  lemma WorthSplits(a: real, b: real, rate: real)
    ensures Worth(a + b, rate) == Worth(a, rate) + Worth(b, rate) && Worth(0.0, rate) == 0.0
  {
  }

  lemma {:induction false} FundingIsCharged(bars: seq<Bar>, n: nat, c: Config)
    requires n <= |bars| && bars != [] && ValidConfig(c)
    ensures After(bars, n, c).Ok? ==> After(bars, n, c).value.account.funding == Worth(Charged(bars, n, c), c.fundingRate)
  {
    hide Opening, Unrealized, Worth, Sim.Managed, Sim.StopTouched;
    if n == 0 {
      WorthSplits(0.0, 0.0, c.fundingRate);
    } else if After(bars, n - 1, c).Ok? {
      FundingIsCharged(bars, n - 1, c);
      WorthSplits(Charged(bars, n - 1, c), if (n - 1) % 32 == 0 then CarriedValue(bars, n - 1, c) else 0.0, c.fundingRate);
      WorthSplits(Charged(bars, n - 1, c), 0.0, c.fundingRate);
    }
  }

  // ----- When it opens, and when it halts -----

  /** The account at the end of a bar, with what is open at the close. */
  function MarkAt(bars: seq<Bar>, i: nat, c: Config): real
    requires i < |bars| && ValidConfig(c) && After(bars, i + 1, c).Ok?
  {
    var a, close := After(bars, i + 1, c).value.account, bars[i].candle.close;
    if a.position.None? then a.equity
    else
      var p := a.position.value;
      a.equity + (if p.side.Long? then (close - p.entry) * p.remaining else (p.entry - close) * p.remaining)
  }

  lemma StillOk(bars: seq<Bar>, i: nat, n: nat, c: Config)
    requires i <= n <= |bars| && bars != [] && ValidConfig(c) && After(bars, n, c).Ok?
    ensures After(bars, i, c).Ok?
    decreases n
  {
    hide Judged, Carried, Opened;
    if i < n {
      StillOk(bars, i, n - 1, c);
    }
  }

  /** What the loss of a bar is measured from: the cash there was when its day began. */
  function DayStart(bars: seq<Bar>, i: nat, c: Config): real
    requires i < |bars| && ValidConfig(c)
  {
    if i == 0 then c.initialEquity
    else if bars[i].day != bars[i - 1].day
    then (if After(bars, i, c).Ok? then After(bars, i, c).value.account.equity else 0.0)
    else DayStart(bars, i - 1, c)
  }

  /** The highest mark up to a bar, or the initial equity. */
  function Peak(bars: seq<Bar>, n: nat, c: Config): real
    requires n <= |bars| && ValidConfig(c)
  {
    if n == 0 then c.initialEquity
    else if After(bars, n, c).Err? then 0.0
    else Max(Peak(bars, n - 1, c), MarkAt(bars, n - 1, c))
  }

  /** The mark of a bar is below the day's start, or below the highest mark, by a limit's share of it. */
  ghost predicate Trips(bars: seq<Bar>, i: nat, c: Config)
    requires i < |bars| && ValidConfig(c)
  {
    && After(bars, i + 1, c).Ok? && DayStart(bars, i, c) != 0.0 && Peak(bars, i + 1, c) > 0.0
    && var mark, start, peak := MarkAt(bars, i, c), DayStart(bars, i, c), Peak(bars, i + 1, c);
       (start - mark) / start >= c.dailyLossPct || (peak - mark) / peak >= c.maxDrawdownPct
  }

  ghost predicate TrippedBefore(bars: seq<Bar>, n: nat, c: Config)
    requires n <= |bars| && ValidConfig(c)
  {
    exists i :: 0 <= i < n && Trips(bars, i, c)
  }

  /** What waits for the next bar: the signal of the last one, if late enough, flat and not halted. */
  function Waiting(bars: seq<Bar>, n: nat, s: Replay): Option<PositionSide>
    requires n <= |bars|
  {
    if n > 220 && s.account.position.None? && !s.halted then bars[n - 1].signal else None
  }

  /**
    A replay is halted exactly from the first bar on whose mark has lost a limit's share, and a
    signal waits exactly if it is the last bar's, from index 220 on, with no position and no halt.
   */
  lemma {:induction false} ReplayMeaning(bars: seq<Bar>, n: nat, c: Config)
    requires n <= |bars| && bars != [] && ValidConfig(c) && After(bars, n, c).Ok?
    ensures var s := After(bars, n, c).value;
            && (s.halted <==> TrippedBefore(bars, n, c))
            && s.pending == Waiting(bars, n, s)
            && s.peak == Peak(bars, n, c)
            && (n > 0 ==> s.dayStart == DayStart(bars, n - 1, c) && s.day == bars[n - 1].day)
  {
    hide Managed, Opening, Trips, Max;
    if n == 0 {
    } else {
      StillOk(bars, n - 1, n, c);
      ReplayMeaning(bars, n - 1, c);
      var before := After(bars, n - 1, c).value;
      var entered := Opened(before, bars[n - 1], c);
      var carried := Carried(entered, bars[n - 1], n - 1, c);
      MarkMeaning(bars, n - 1, carried, c);
      BarTrips(bars, n - 1, carried, c);
      assert TrippedBefore(bars, n, c) <==> TrippedBefore(bars, n - 1, c) || Trips(bars, n - 1, c);
    }
  }

  lemma MarkMeaning(bars: seq<Bar>, i: nat, carried: Replay, c: Config)
    requires i < |bars| && bars != [] && ValidConfig(c) && After(bars, i + 1, c).Ok?
    requires After(bars, i + 1, c).value.account == carried.account
    ensures MarkAt(bars, i, c) == carried.account.equity + Unrealized(carried.account.position, bars[i].candle.close)
  {
    hide After;
  }

  lemma BarTrips(bars: seq<Bar>, i: nat, carried: Replay, c: Config)
    requires i < |bars| && bars != [] && ValidConfig(c) && carried.peak > 0.0
    requires After(bars, i + 1, c) == Judged(carried, bars[i], i, c) && After(bars, i + 1, c).Ok?
    requires carried.peak == Peak(bars, i, c) && carried.dayStart == DayStart(bars, i, c)
    ensures var s := After(bars, i + 1, c).value;
            && (s.halted <==> carried.halted || Trips(bars, i, c))
            && s.peak == Peak(bars, i + 1, c)
            && s.pending == if Trips(bars, i, c) then None
                            else if carried.account.position.None? && i >= 220 && !carried.halted then bars[i].signal
                            else carried.pending
  {
    hide After, DayStart;
    MarkMeaning(bars, i, carried, c);
  }

  /** A replay breaks off exactly at a bar whose day began without any cash. */
  lemma BreaksOffIff(bars: seq<Bar>, n: nat, c: Config)
    requires n < |bars| && ValidConfig(c) && After(bars, n, c).Ok?
    ensures var s := After(bars, n, c).value;
            After(bars, n + 1, c).Err? <==> (if bars[n].day != s.day then s.account.equity else s.dayStart) == 0.0
  {
    hide Managed, Opening, Unrealized;
    AfterStep(bars, n, c);
  }

  /**
    A bar opens a position exactly if the bar before it, at index 220 or later, ended flat, not
    halted and with a signal, and its own volatility is known; then the one that signal asks for.
   */
  lemma OpensIff(bars: seq<Bar>, n: nat, c: Config)
    requires n < |bars| && ValidConfig(c) && After(bars, n, c).Ok?
    ensures var s := After(bars, n, c).value;
            var r := Opened(s, bars[n], c).account;
            if n > 220 && s.account.position.None? && !TrippedBefore(bars, n, c) && bars[n - 1].signal.Some?
               && bars[n].atr > 0.0
            then
              var p := Opening(bars[n - 1].signal.value, bars[n].candle.open, bars[n].atr, s.account.equity, c);
              && r == s.account.(position := Some(p), fees := r.fees, equity := r.equity)
              && r.equity == s.account.equity - p.fees && r.fees == s.account.fees + p.fees
            else r == s.account
  {
    hide Opening, After;
    ReplayMeaning(bars, n, c);
  }

  /** Positive prices, a risk share above zero, and a drawdown breaker that trips before the equity is gone. */
  predicate SaneReplay(bars: seq<Bar>, c: Config) {
    && ValidConfig(c) && c.riskPct > 0.0 && c.maxDrawdownPct <= 1.0
    && forall i :: 0 <= i < |bars| ==> bars[i].candle.open > 0.0
  }

  predicate Holds(a: Account) {
    a.position.Some? ==> a.position.value.entry > 0.0 && a.position.value.remaining > 0.0
  }

  /** A signal waits only while no position is open and money is left. */
  predicate Solvent(s: Replay) {
    Holds(s.account) && (s.pending.Some? ==> s.account.position.None? && s.account.equity > 0.0)
  }

  lemma OpeningHolds(side: PositionSide, rawEntry: real, atr: real, equity: real, c: Config)
    requires ValidConfig(c) && atr > 0.0 && rawEntry > 0.0 && equity > 0.0 && c.riskPct > 0.0
    ensures var p := Opening(side, rawEntry, atr, equity, c); p.entry > 0.0 && p.remaining > 0.0
  {
    hide Sim.Fee, Sim.Slip, FirstTakeProfit, Worth, Units;
    RiskPositive(atr, c.stopAtr);
    RiskPositive(atr, c.targetAtr);
    RiskPositive(equity, c.riskPct);
    UnitsPositive(Worth(equity, c.riskPct), Worth(atr, c.stopAtr));
    EntryPositive(side, rawEntry, c.costs.slippageRate);
    hide Sim.EntryPrice;
  }

  lemma UnitsPositive(notional: real, price: real)
    requires notional > 0.0 && price > 0.0
    ensures Units(notional, price) > 0.0
  {
  }

  lemma EntryPositive(side: PositionSide, raw: real, rate: real)
    requires raw > 0.0 && 0.0 <= rate < 1.0
    ensures Sim.EntryPrice(side, raw, rate) > 0.0
  {
    MulStrict(0.0, if side.Long? then 1.0 + rate else 1.0 - rate, raw);
  }

  lemma ManagedHolds(a: Account, candle: Candle, atr: real, index: nat, c: Config)
    requires a.position.Some? && Holds(a)
    ensures Holds(Managed(a, candle, atr, index, c))
  {
    hide Funding, Sim.StopTouched, Sim.TargetTouched, Sim.Gain, Sim.Slip, Sim.Fee, Sim.ExitPrice, BreakevenStop, TrailingStop;
  }

  lemma JudgedSolvent(s: Replay, bar: Bar, index: nat, c: Config)
    requires s.peak > 0.0 && c.maxDrawdownPct <= 1.0 && Holds(s.account)
    requires s.pending.Some? ==> s.account.position.None?
    ensures var r := Judged(s, bar, index, c); r.Ok? ==> Solvent(r.value)
  {
    var marked := s.account.equity + Unrealized(s.account.position, bar.candle.close);
    var peak := Max(s.peak, marked);
    if s.account.position.None? && marked <= 0.0 {
      DrawdownTotal(peak, marked);
    }
  }

  lemma DrawdownTotal(peak: real, marked: real)
    requires peak > 0.0 && marked <= 0.0
    ensures (peak - marked) / peak >= 1.0
  {
  }

  lemma {:induction false} AfterSolvent(bars: seq<Bar>, n: nat, c: Config)
    requires n <= |bars| && bars != [] && SaneReplay(bars, c)
    ensures After(bars, n, c).Ok? ==> Solvent(After(bars, n, c).value)
    ensures n < |bars| && After(bars, n, c).Ok? ==> Holds(Opened(After(bars, n, c).value, bars[n], c).account)
  {
    hide Opening, Unrealized, Managed;
    if n > 0 && After(bars, n - 1, c).Ok? {
      AfterSolvent(bars, n - 1, c);
      var bar := bars[n - 1];
      var entered := Opened(After(bars, n - 1, c).value, bar, c);
      if entered.account.position.Some? {
        ManagedHolds(entered.account, bar.candle, bar.atr, n - 1, c);
      }
      JudgedSolvent(Carried(entered, bar, n - 1, c), bar, n - 1, c);
    }
    if n < |bars| && After(bars, n, c).Ok? {
      var s := After(bars, n, c).value;
      if s.pending.Some? && bars[n].atr > 0.0 {
        OpeningHolds(s.pending.value, bars[n].candle.open, bars[n].atr, s.account.equity, c);
      }
    }
  }

  /** Notional value never cancels out: it is zero exactly if nothing was carried over a funding bar. */
  lemma {:induction false} ChargedIff(bars: seq<Bar>, n: nat, c: Config)
    requires n <= |bars| && bars != [] && SaneReplay(bars, c)
    ensures Charged(bars, n, c) >= 0.0
    ensures Charged(bars, n, c) == 0.0 <==> forall i :: 0 <= i < n && i % 32 == 0 ==> !Carries(bars, i, c)
  {
    hide Carries, Worth, After, Opened;
    if n > 0 {
      ChargedIff(bars, n - 1, c);
      if Carries(bars, n - 1, c) {
        CarriedPositive(bars, n - 1, c);
      }
    }
  }

  lemma CarriedPositive(bars: seq<Bar>, i: nat, c: Config)
    requires i < |bars| && SaneReplay(bars, c) && Carries(bars, i, c)
    ensures CarriedValue(bars, i, c) > 0.0
  {
    hide Opened, After;
    AfterSolvent(bars, i, c);
    var p := Opened(After(bars, i, c).value, bars[i], c).account.position.value;
    RiskPositive(p.entry, p.remaining);
  }

  /**
    Net profit is the sum of the trade results exactly when no funding is charged at all: the rate
    is zero, or no position is in the market during a bar whose index is divisible by 32.
   */
  lemma NetIsTradesIff(bars: seq<Bar>, c: Config)
    requires SaneReplay(bars, c) && Final(bars, c).Ok?
    ensures var a := Final(bars, c).value;
            && a.equity - c.initialEquity == Total(a.tradePnls) - a.funding
            && (a.equity - c.initialEquity == Total(a.tradePnls) <==>
                || c.fundingRate == 0.0
                || forall i :: 0 <= i < |bars| && i % 32 == 0 ==> !Carries(bars, i, c))
  {
    hide Carries, Total;
    var end := After(bars, |bars|, c).value;
    AfterBalances(bars, |bars|, c);
    if end.account.position.Some? {
      ClosedBalances(end.account, bars[|bars| - 1].candle.close, c);
    }
    FundingIsCharged(bars, |bars|, c);
    ChargedIff(bars, |bars|, c);
    WorthZero(Charged(bars, |bars|, c), c.fundingRate);
  }

  lemma WorthZero(quantity: real, rate: real)
    ensures Worth(quantity, rate) == 0.0 <==> quantity == 0.0 || rate == 0.0
  {
    if quantity != 0.0 && Worth(quantity, rate) == 0.0 {
      assert rate == Worth(quantity, rate) / quantity;
    }
  }

  // ----- Bars that carry what the replay computes from its candles -----

  const DAY := 86400

  function CandlesOf(bars: seq<Bar>): (r: seq<Candle>)
    ensures |r| == |bars| && forall i :: 0 <= i < |r| ==> r[i] == bars[i].candle
  {
    seq(|bars|, i requires 0 <= i < |bars| => bars[i].candle)
  }

  /**
    Days, volatility and signals are those of the candles: volatility of the last hundred before a
    bar, the signal after it wherever the replay can ask for one, and a volatility above zero there,
    without which no signal can be formed.
   */
  predicate Computed(bars: seq<Bar>, pullback: Pullback) {
    forall i :: 0 <= i < |bars| ==> ComputedAt(bars, i, pullback)
  }

  predicate ComputedAt(bars: seq<Bar>, i: nat, pullback: Pullback)
    requires i < |bars|
  {
    var candles, bar := CandlesOf(bars), bars[i];
    && bar.day == bar.candle.openTime / DAY
    && bar.atr == Atr(Last(candles[..i], 100), PERIOD)
    && (i >= 220 ==>
          && Atr(Last(candles[..i + 1], WINDOW), PERIOD) > 0.0
          && bar.signal == Signal(candles[..i + 1], pullback))
  }

  // ----- A replay whose net profit is not the sum of its trade results -----

  const BARS := 801

  /** A quarter of an hour from `100 + i` to `101 + i`. */
  function RisingCandle(i: nat): Candle {
    Candle(900 * i, 900 * i + 899, 100.0 + i as real, 101.0 + i as real, 100.0 + i as real, 101.0 + i as real, 1.0)
  }

  function RisingBar(i: nat): Bar {
    Bar(RisingCandle(i), 900 * i / DAY, if i == 0 then 0.0 else 1.0, if i < 799 then None else Some(Long))
  }

  function RisingBars(): (r: seq<Bar>)
    ensures |r| == BARS && forall i :: 0 <= i < BARS ==> r[i] == RisingBar(i)
  {
    seq(BARS, i requires 0 <= i < BARS => RisingBar(i))
  }

  /** The settings a replay has by default. */
  const DEFAULTS := Config(1000.0, 0.0025, 1.5, 3.0, Sim.Costs(0.0005, 0.0005, 1.5), 0.0001, 0.01, 0.05)

  /** The rising bars are bars of the program, whatever the pullback confirmation says. */
  lemma RisingIsComputed(i: nat, pullback: Pullback)
    requires i < BARS
    ensures ComputedAt(RisingBars(), i, pullback)
  {
    hide Atr, Signal;
    var candles := CandlesOf(RisingBars());
    assert Stair(candles, 1.0);
    StairPart(candles, 1.0, 0, i);
    StairPart(candles, 1.0, 0, i + 1);
    assert candles[0..i] == candles[..i] && candles[0..i + 1] == candles[..i + 1];
    StairSignal(candles[..i + 1], 1.0, pullback);
    RisingVolatility(candles[..i]);
  }

  lemma RisingVolatility(candles: seq<Candle>)
    requires Stair(candles, 1.0)
    ensures Atr(Last(candles, 100), PERIOD) == if candles == [] then 0.0 else 1.0
  {
    var recent := Last(candles, 100);
    if candles != [] {
      StairPart(candles, 1.0, |candles| - |recent|, |candles|);
      assert candles[|candles| - |recent|..|candles|] == recent;
      StairAtr(recent, 1.0, PERIOD);
    }
  }

  /** Nothing happens until the first signal, after bar 799. */
  function RisingState(n: nat): Replay {
    Replay(Account(1000.0, 0.0, 0.0, [], None), 1000.0, 1000.0, if n == 0 then 0 else 900 * (n - 1) / DAY,
           if n == 800 then Some(Long) else None, false)
  }

  lemma RisingWaits(n: nat)
    requires n < 800
    ensures var bar := RisingBar(n);
            Judged(Carried(Opened(RisingState(n), bar, DEFAULTS), bar, n, DEFAULTS), bar, n, DEFAULTS) == Ok(RisingState(n + 1))
  {
    assert (1000.0 - 1000.0) / 1000.0 == 0.0;
  }

  lemma {:induction false} RisingAfter(n: nat)
    requires n <= 800
    ensures After(RisingBars(), n, DEFAULTS) == Ok(RisingState(n))
  {
    hide Judged, Carried, Opened, After;
    if n == 0 {
      AfterStep(RisingBars(), 0, DEFAULTS);
    } else {
      RisingAfter(n - 1);
      AfterStep(RisingBars(), n - 1, DEFAULTS);
      RisingWaits(n - 1);
    }
  }

  /** The position opened at bar 800 is charged there, since 800 is 25 times 32. */
  lemma RisingCarries()
    ensures Carries(RisingBars(), 800, DEFAULTS)
  {
    RisingAfter(800);
    hide Opening, After;
  }

  /** The day of the last bar starts with the initial equity, so the replay ends. */
  lemma RisingEnds()
    ensures Final(RisingBars(), DEFAULTS).Ok?
  {
    RisingAfter(800);
    AfterStep(RisingBars(), 800, DEFAULTS);
    FinalMeans(RisingBars(), DEFAULTS);
    hide Opening, After, Managed, Unrealized, Final, Max;
  }

  /** A replay of 801 rising candles with funding in its net profit. */
  lemma FundingSplitsProfit(pullback: Pullback)
    ensures Computed(RisingBars(), pullback)
    ensures SaneReplay(RisingBars(), DEFAULTS) && Final(RisingBars(), DEFAULTS).Ok?
    ensures var a := Final(RisingBars(), DEFAULTS).value;
            a.equity - DEFAULTS.initialEquity != Total(a.tradePnls)
  {
    hide After, Carries, Total, ComputedAt, Final;
    forall i | 0 <= i < BARS
      ensures ComputedAt(RisingBars(), i, pullback)
    {
      RisingIsComputed(i, pullback);
    }
    RisingEnds();
    RisingCarries();
    assert 800 % 32 == 0;
    NetIsTradesIff(RisingBars(), DEFAULTS);
  }
}
