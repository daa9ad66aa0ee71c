/**
  The portfolio replay: several symbols against one account and the production risk gate.  The
  accounts have to balance at every bar, and the limits have to hold at every bar, whatever
  signals, volatilities, correlations and funding the bars bring.
 */
module PortfolioReplay {
  import opened Common
  import opened CandleAggregation
  import opened ExitPolicy
  import Risk = RiskEngine
  import Sim = SimPosition

  // ----- Accounts -----

  datatype Ledger = Ledger(pnls: seq<real>, holdingBars: seq<nat>, fees: real, funding: real, slippage: real)

  const EMPTY_LEDGER := Ledger([], [], 0.0, 0.0, 0.0)

  /** The account's cash and its totals; `gross` is the sum of all realized results before costs. */
  datatype Books = Books(equity: real, gross: real, fees: real, funding: real, ledgers: map<string, Ledger>)

  function NetBy(ledgers: map<string, Ledger>): string -> real {
    s => if s in ledgers then Total(ledgers[s].pnls) else 0.0
  }

  function FeesBy(ledgers: map<string, Ledger>): string -> real {
    s => if s in ledgers then ledgers[s].fees else 0.0
  }

  function FundingBy(ledgers: map<string, Ledger>): string -> real {
    s => if s in ledgers then ledgers[s].funding else 0.0
  }

  /** Cash is what the closed trades and the open positions made, told in two ways. */
  predicate Balanced(b: Books, symbols: seq<string>, initial: real, openNet: real) {
    && b.equity == initial + SumOver(symbols, NetBy(b.ledgers)) + openNet
    && b.equity == initial + b.gross - b.fees - b.funding
    && b.fees == SumOver(symbols, FeesBy(b.ledgers))
    && b.funding == SumOver(symbols, FundingBy(b.ledgers))
  }

  ghost predicate Indexed(symbols: seq<string>, b: Books) {
    Distinct(symbols) && forall s :: s in symbols <==> s in b.ledgers
  }

  /** A result, a fee and a funding payment of one symbol. */
  function Charged(b: Books, symbol: string, pnl: real, fee: real, funding: real): Books
    requires symbol in b.ledgers
  {
    var l := b.ledgers[symbol];
    Books(b.equity + pnl - fee - funding, b.gross + pnl, b.fees + fee, b.funding + funding,
          b.ledgers[symbol := l.(fees := l.fees + fee, funding := l.funding + funding)])
  }

  /** A closed position enters its ledger. */
  function Recorded(b: Books, e: Entry): Books
    requires e.symbol in b.ledgers
  {
    var l := b.ledgers[e.symbol];
    b.(ledgers := b.ledgers[e.symbol := l.(pnls := l.pnls + [Net(e)], holdingBars := l.holdingBars + [e.holdingBars],
                                           slippage := l.slippage + e.position.slippage)])
  }

  lemma ChargedBalances(b: Books, symbols: seq<string>, initial: real, openNet: real, symbol: string,
                        pnl: real, fee: real, funding: real)
    requires Indexed(symbols, b) && symbol in b.ledgers && Balanced(b, symbols, initial, openNet)
    ensures var r := Charged(b, symbol, pnl, fee, funding);
            Indexed(symbols, r) && Balanced(r, symbols, initial, openNet + pnl - fee - funding)
  {
    hide Total, SumOver;
    var r := Charged(b, symbol, pnl, fee, funding);
    SumUpdated(symbols, NetBy(b.ledgers), NetBy(r.ledgers), symbol);
    SumUpdated(symbols, FeesBy(b.ledgers), FeesBy(r.ledgers), symbol);
    SumUpdated(symbols, FundingBy(b.ledgers), FundingBy(r.ledgers), symbol);
  }

  lemma LedgersAfterFee(b: Books, symbol: string, fee: real)
    requires symbol in b.ledgers
    ensures var after := Charged(b, symbol, 0.0, fee, 0.0).ledgers;
            && after.Keys == b.ledgers.Keys
            && forall s :: s in after ==>
                 && after[s].pnls == b.ledgers[s].pnls && after[s].funding == b.ledgers[s].funding
                 && (s != symbol ==> after[s] == b.ledgers[s])
  {
  }

  lemma RecordedBalances(b: Books, symbols: seq<string>, initial: real, openNet: real, e: Entry)
    requires Indexed(symbols, b) && e.symbol in b.ledgers && Balanced(b, symbols, initial, openNet)
    ensures Indexed(symbols, Recorded(b, e)) && Balanced(Recorded(b, e), symbols, initial, openNet - Net(e))
  {
    hide SumOver;
    var r := Recorded(b, e);
    var pnls := b.ledgers[e.symbol].pnls;
    TotalAppended(pnls, Net(e));
    SumUpdated(symbols, NetBy(b.ledgers), NetBy(r.ledgers), e.symbol);
    SumUpdated(symbols, FeesBy(b.ledgers), FeesBy(r.ledgers), e.symbol);
    SumUpdated(symbols, FundingBy(b.ledgers), FundingBy(r.ledgers), e.symbol);
  }

  // ----- Open positions -----

  /** One open position with what the portfolio keeps about it. */
  datatype Entry = Entry(
    symbol: string, position: Sim.Position, initialRisk: real, marginUsed: real, funding: real, holdingBars: nat)

  function Net(e: Entry): real {
    e.position.realized - e.position.fees - e.funding
  }

  function OpenNet(entries: seq<Entry>): real {
    if entries == [] then 0.0 else OpenNet(entries[..|entries| - 1]) + Net(entries[|entries| - 1])
  }

  function HeldOf(entries: seq<Entry>): (r: seq<Risk.Held>)
    ensures |r| == |entries|
    ensures forall i :: 0 <= i < |entries| ==>
                          r[i] == Risk.Held(entries[i].symbol, entries[i].position.side, entries[i].initialRisk)
  {
    if entries == [] then []
    else
      var last := entries[|entries| - 1];
      HeldOf(entries[..|entries| - 1]) + [Risk.Held(last.symbol, last.position.side, last.initialRisk)]
  }

  function OpenRisk(entries: seq<Entry>): real {
    if entries == [] then 0.0 else OpenRisk(entries[..|entries| - 1]) + entries[|entries| - 1].initialRisk
  }

  function SideCount(entries: seq<Entry>, side: PositionSide): nat {
    if entries == [] then 0
    else SideCount(entries[..|entries| - 1], side) + (if entries[|entries| - 1].position.side == side then 1 else 0)
  }

  /** What the portfolio counts is what the risk gate sees. */
  lemma {:induction false} GateSees(entries: seq<Entry>, side: PositionSide)
    ensures Risk.InitialRisk(HeldOf(entries)) == OpenRisk(entries)
    ensures Risk.CountSide(HeldOf(entries), side) == SideCount(entries, side)
  {
    if entries != [] {
      var front := entries[..|entries| - 1];
      GateSees(front, side);
      assert HeldOf(entries)[..|entries| - 1] == HeldOf(front);
    }
  }

  /** What is held of each symbol. */
  function Holdings(entries: seq<Entry>): map<string, real> {
    if entries == [] then map[]
    else Holdings(entries[..|entries| - 1])[entries[|entries| - 1].symbol := entries[|entries| - 1].position.remaining]
  }

  predicate SaneEntry(e: Entry) {
    && e.position.quantity > 0.0 && 0.0 < e.position.remaining <= e.position.quantity
    && e.initialRisk > 0.0 && e.marginUsed >= 0.0
  }

  /** Every position is sane, and there is one per symbol. */
  predicate SaneEntries(entries: seq<Entry>) {
    entries == [] ||
    (&& SaneEntries(entries[..|entries| - 1])
     && SaneEntry(entries[|entries| - 1])
     && entries[|entries| - 1].symbol !in Holdings(entries[..|entries| - 1]))
  }

  lemma {:induction false} SaneEntriesEach(entries: seq<Entry>, i: nat)
    requires SaneEntries(entries) && i < |entries|
    ensures SaneEntry(entries[i])
  {
    if i < |entries| - 1 {
      SaneEntriesEach(entries[..|entries| - 1], i);
    }
  }

  lemma {:induction false} NotHeld(entries: seq<Entry>, symbol: string)
    requires forall i :: 0 <= i < |entries| ==> entries[i].symbol != symbol
    ensures symbol !in Holdings(entries)
  {
    if entries != [] {
      NotHeld(entries[..|entries| - 1], symbol);
    }
  }

  predicate AllKnown(entries: seq<Entry>, symbols: seq<string>) {
    forall s :: s in Holdings(entries) ==> s in symbols
  }

  predicate WithinLimits(entries: seq<Entry>, initial: real, l: Risk.Limits) {
    && OpenRisk(entries) <= Worth(initial, l.portfolioRiskPct)
    && |entries| <= l.maxPositions
    && SideCount(entries, Long) <= l.maxSameDirection && SideCount(entries, Short) <= l.maxSameDirection
  }

  /** `now` holds nothing that `before` did not, and of nothing more. */
  predicate OnlyShrunk(before: map<string, real>, now: map<string, real>) {
    forall s :: s in now ==> s in before && now[s] <= before[s]
  }

  /** `kept` is what one pass over `entries` left: some closed, the others no larger. */
  predicate Reduced(entries: seq<Entry>, kept: seq<Entry>) {
    && SaneEntries(kept) && |kept| <= |entries|
    && OpenRisk(kept) <= OpenRisk(entries)
    && SideCount(kept, Long) <= SideCount(entries, Long) && SideCount(kept, Short) <= SideCount(entries, Short)
    && OnlyShrunk(Holdings(entries), Holdings(kept))
  }

  lemma Appended(entries: seq<Entry>, e: Entry)
    ensures var more := entries + [e];
            && OpenNet(more) == OpenNet(entries) + Net(e)
            && OpenRisk(more) == OpenRisk(entries) + e.initialRisk
            && (forall side :: SideCount(more, side) == SideCount(entries, side) + if e.position.side == side then 1 else 0)
            && Holdings(more) == Holdings(entries)[e.symbol := e.position.remaining]
            && (SaneEntries(more) <==> SaneEntries(entries) && SaneEntry(e) && e.symbol !in Holdings(entries))
  {
    assert (entries + [e])[..|entries|] == entries;
  }

  lemma ReducedByClosing(entries: seq<Entry>, kept: seq<Entry>, e: Entry)
    requires Reduced(entries, kept) && SaneEntries(entries + [e])
    ensures Reduced(entries + [e], kept)
  {
    Appended(entries, e);
    hide OpenRisk, SideCount, Holdings, SaneEntries;
  }

  lemma ReducedByKeeping(entries: seq<Entry>, kept: seq<Entry>, e: Entry, r: Entry)
    requires Reduced(entries, kept) && SaneEntries(entries + [e]) && SaneEntry(r)
    requires r.symbol == e.symbol && r.position.side == e.position.side && r.initialRisk == e.initialRisk
    requires r.position.remaining <= e.position.remaining
    ensures Reduced(entries + [e], kept + [r])
  {
    hide OpenRisk, SideCount, Holdings, SaneEntries, SaneEntry, OpenNet, Net;
    Appended(entries, e);
    Appended(kept, r);
  }

  // ----- One position over one candle -----

  function Advanced(e: Entry, candle: Candle, atr: real, rate: Option<real>, c: Sim.Costs): Entry {
    e.(position := Sim.Managed(e.position, candle, atr, c),
       funding := e.funding + Sim.FundingCost(e.position, rate),
       holdingBars := e.holdingBars + 1)
  }

  lemma ManagedShrinks(p: Sim.Position, candle: Candle, atr: real, c: Sim.Costs)
    requires p.quantity > 0.0 && p.remaining >= 0.0
    ensures var r := Sim.Managed(p, candle, atr, c);
            && 0.0 <= r.remaining <= p.remaining && r.side == p.side && r.quantity == p.quantity
            && r.tp2 == p.tp2 && r.entry == p.entry
  {
    hide Sim.Slip, Sim.Fee, Sim.Gain, Sim.ExitPrice, Sim.Portion, BreakevenStop, TrailingStop;
    Sim.PortionSizes(p.quantity);
    var seen := Sim.Observed(p, candle);
    if !Sim.StopTouched(p, candle) {
      var first := Sim.AfterFirstTarget(seen, candle, c);
      var second := Sim.AfterSecondTarget(first, candle, c);
    }
  }

  lemma AdvancedShrinks(e: Entry, candle: Candle, atr: real, rate: Option<real>, c: Sim.Costs)
    requires SaneEntry(e)
    ensures var r := Advanced(e, candle, atr, rate, c);
            && r.position.remaining <= e.position.remaining && r.position.side == e.position.side
            && (!Sim.Closes(e.position, candle, r.position) ==> SaneEntry(r))
  {
    hide Sim.Managed, Sim.FundingCost;
    ManagedShrinks(e.position, candle, atr, c);
  }

  // ----- Inputs -----

  datatype Config = Config(initialEquity: real, costs: Sim.Costs, limits: Risk.Limits)

  predicate ValidConfig(c: Config) {
    && c.initialEquity > 0.0 && Sim.SaneCosts(c.costs) && Risk.ValidLimits(c.limits)
    && c.limits.capitalLimit == c.initialEquity
  }

  datatype Pending = Pending(signal: Risk.Signal, snapshot: Risk.Snapshot, score: real)

  predicate ValidPending(p: Pending, symbols: seq<string>) {
    Risk.ValidSignal(p.signal) && Risk.ValidSnapshot(p.snapshot) && p.signal.symbol in symbols
  }

  predicate AllValid(ps: seq<Pending>, symbols: seq<string>) {
    forall i :: 0 <= i < |ps| ==> ValidPending(ps[i], symbols)
  }

  /**
    One step of the timeline.  Volatility, settled funding rates, correlations and the candidates
    that pass screening are whatever they are.
   */
  datatype Bar = Bar(
    day: int, candles: map<string, Candle>, atrs: map<string, real>, fundingRates: map<string, real>,
    correlations: map<string, map<string, real>>, candidates: seq<Pending>)

  function AtrOf(bar: Bar, symbol: string): real {
    if symbol in bar.atrs then bar.atrs[symbol] else 0.0
  }

  function RateOf(bar: Bar, symbol: string): Option<real> {
    if symbol in bar.fundingRates then Some(bar.fundingRates[symbol]) else None
  }

  /** What one bar makes of a position; `None` once it is closed. */
  function AfterCandle(e: Entry, bar: Bar, c: Sim.Costs): Option<Entry> {
    if e.symbol !in bar.candles then Some(e)
    else
      var candle := bar.candles[e.symbol];
      var r := Advanced(e, candle, AtrOf(bar, e.symbol), RateOf(bar, e.symbol), c);
      if Sim.Closes(e.position, candle, r.position) then None else Some(r)
  }

  /** A position is gone exactly when its candle left nothing of it; otherwise it is a bar older, and longs paid funding. */
  lemma AfterCandleMeaning(e: Entry, bar: Bar, c: Sim.Costs)
    requires e.symbol in bar.candles
    ensures var left, p := AfterCandle(e, bar, c), Sim.Managed(e.position, bar.candles[e.symbol], AtrOf(bar, e.symbol), c);
            && (left.None? <==> p.remaining <= 0.0)
            && (left.Some? ==>
                  var r := left.value;
                  var worth := e.position.entry * e.position.remaining;
                  var paid := if e.symbol in bar.fundingRates then worth * bar.fundingRates[e.symbol] else 0.0;
                  && r.position == p && r.holdingBars == e.holdingBars + 1
                  && r.funding == (if e.position.side.Long? then e.funding + paid else e.funding - paid)
                  && r.symbol == e.symbol && r.initialRisk == e.initialRisk && r.marginUsed == e.marginUsed)
  {
    hide Sim.Managed, Sim.Closes;
    Sim.ClosesIffGone(e.position, bar.candles[e.symbol], AtrOf(bar, e.symbol), c);
  }

  /** What one bar leaves of the open positions. */
  function AfterBar(entries: seq<Entry>, bar: Bar, c: Sim.Costs): seq<Entry> {
    if entries == [] then []
    else
      var left := AfterCandle(entries[|entries| - 1], bar, c);
      AfterBar(entries[..|entries| - 1], bar, c) + (if left.Some? then [left.value] else [])
  }

  /** What one bar books for a position, which is recorded once it is closed. */
  function BookedCandle(b: Books, e: Entry, bar: Bar, c: Sim.Costs): (r: Books)
    requires e.symbol in b.ledgers
    ensures r.ledgers.Keys == b.ledgers.Keys
  {
    if e.symbol !in bar.candles then b
    else
      var candle := bar.candles[e.symbol];
      var r := Advanced(e, candle, AtrOf(bar, e.symbol), RateOf(bar, e.symbol), c);
      var charged := Charged(b, e.symbol, r.position.realized - e.position.realized, r.position.fees - e.position.fees,
                             r.funding - e.funding);
      if Sim.Closes(e.position, candle, r.position) then Recorded(charged, r) else charged
  }

  predicate HasLedgers(b: Books, entries: seq<Entry>) {
    forall i :: 0 <= i < |entries| ==> entries[i].symbol in b.ledgers
  }

  /** What one bar books for all open positions. */
  function BookedBar(b: Books, entries: seq<Entry>, bar: Bar, c: Sim.Costs): (r: Books)
    requires HasLedgers(b, entries)
    ensures r.ledgers.Keys == b.ledgers.Keys
  {
    if entries == [] then b
    else BookedCandle(BookedBar(b, entries[..|entries| - 1], bar, c), entries[|entries| - 1], bar, c)
  }

  /** What closing a position at a price books. */
  function BookedClose(b: Books, e: Entry, price: real, c: Sim.Costs): (r: Books)
    requires e.symbol in b.ledgers
    ensures r.ledgers.Keys == b.ledgers.Keys
  {
    var r := e.(position := Sim.Realized(e.position, price, e.position.remaining, c));
    Recorded(Charged(b, e.symbol, r.position.realized - e.position.realized, r.position.fees - e.position.fees, 0.0), r)
  }

  predicate HasPrices(prices: map<string, real>, entries: seq<Entry>) {
    forall i :: 0 <= i < |entries| ==> entries[i].symbol in prices
  }

  function BookedCloses(b: Books, entries: seq<Entry>, prices: map<string, real>, c: Sim.Costs): (r: Books)
    requires HasLedgers(b, entries) && HasPrices(prices, entries)
    ensures r.ledgers.Keys == b.ledgers.Keys
  {
    if entries == [] then b
    else
      var e := entries[|entries| - 1];
      BookedClose(BookedCloses(b, entries[..|entries| - 1], prices, c), e, prices[e.symbol], c)
  }

  /** What leaving at these prices costs: slippage on what remains, and the fee at the slipped price. */
  function LeavingCosts(entries: seq<Entry>, prices: map<string, real>, c: Sim.Costs): real
    requires HasPrices(prices, entries)
  {
    if entries == [] then 0.0
    else
      var e := entries[|entries| - 1];
      var raw := prices[e.symbol];
      LeavingCosts(entries[..|entries| - 1], prices, c)
      + Sim.Slip(Sim.ExitPrice(e.position.side, raw, c.slippageRate), raw, e.position.remaining)
      + Sim.Fee(Sim.ExitPrice(e.position.side, raw, c.slippageRate), e.position.remaining, c.feeRate)
  }

  /** Closing everything turns the marked account into cash, less the costs of leaving. */
  lemma {:induction false} ClosingPaysTheMark(b: Books, entries: seq<Entry>, prices: map<string, real>, c: Sim.Costs)
    requires HasLedgers(b, entries) && HasPrices(prices, entries) && Sim.SaneCosts(c)
    requires forall i :: 0 <= i < |entries| ==> prices[entries[i].symbol] >= 0.0
    ensures BookedCloses(b, entries, prices, c).equity == b.equity + Marked(entries, prices) - LeavingCosts(entries, prices, c)
  {
    if entries != [] {
      var e := entries[|entries| - 1];
      ClosingPaysTheMark(b, entries[..|entries| - 1], prices, c);
      hide Sim.Gain, Sim.Slip, Sim.Fee, Sim.ExitPrice;
      Sim.ExitSlips(e.position.side, e.position.entry, prices[e.symbol], c.slippageRate, e.position.remaining);
    }
  }

  lemma AfterNothing(b: Books, bar: Bar, c: Sim.Costs)
    ensures AfterBar([], bar, c) == [] && BookedBar(b, [], bar, c) == b
  {
  }

  lemma AfterBarStep(all: seq<Entry>, i: nat, bar: Bar, c: Sim.Costs)
    requires i < |all|
    ensures var left := AfterCandle(all[i], bar, c);
            AfterBar(all[..i + 1], bar, c) == AfterBar(all[..i], bar, c) + (if left.Some? then [left.value] else [])
  {
    assert all[..i + 1][..i] == all[..i];
  }

  lemma BookedBarStep(b: Books, all: seq<Entry>, i: nat, bar: Bar, c: Sim.Costs)
    requires i < |all| && HasLedgers(b, all)
    ensures HasLedgers(b, all[..i + 1]) && HasLedgers(b, all[..i]) && all[i].symbol in b.ledgers
    ensures BookedBar(b, all[..i + 1], bar, c) == BookedCandle(BookedBar(b, all[..i], bar, c), all[i], bar, c)
  {
    assert all[..i + 1][..i] == all[..i];
  }

  lemma BookedCloseStep(b: Books, all: seq<Entry>, i: nat, prices: map<string, real>, c: Sim.Costs)
    requires i < |all| && HasLedgers(b, all) && HasPrices(prices, all)
    ensures HasLedgers(b, all[..i + 1]) && HasLedgers(b, all[..i]) && all[i].symbol in b.ledgers
    ensures HasPrices(prices, all[..i + 1]) && HasPrices(prices, all[..i])
    ensures BookedCloses(b, all[..i + 1], prices, c)
            == BookedClose(BookedCloses(b, all[..i], prices, c), all[i], prices[all[i].symbol], c)
  {
    assert all[..i + 1][..i] == all[..i];
  }

  // ----- Marking and the risk context -----

  function Marked(entries: seq<Entry>, prices: map<string, real>): real {
    if entries == [] then 0.0
    else
      var e := entries[|entries| - 1];
      var price := if e.symbol in prices then prices[e.symbol] else e.position.entry;
      Marked(entries[..|entries| - 1], prices) + Sim.Gain(e.position.side, e.position.entry, price, e.position.remaining)
  }

  /** The margin of the part that is still held. */
  function TiedUp(e: Entry): (r: real)
    requires SaneEntry(e)
    ensures r >= 0.0
  {
    assert e.marginUsed * e.position.remaining >= 0.0;
    RatioNotNegative(e.marginUsed * e.position.remaining, e.position.quantity);
    e.marginUsed * e.position.remaining / e.position.quantity
  }

  function MarginInUse(entries: seq<Entry>): (r: real)
    requires SaneEntries(entries)
    ensures r >= 0.0
  {
    if entries == [] then 0.0
    else
      var e := entries[|entries| - 1];
      MarginInUse(entries[..|entries| - 1]) + TiedUp(e)
  }

  /** A position ties up its margin, less the share of it that has left. */
  lemma MarginMeaning(entries: seq<Entry>, e: Entry)
    requires SaneEntries(entries + [e])
    ensures SaneEntries(entries) && SaneEntry(e)
    ensures MarginInUse([]) == 0.0
    ensures e.position.remaining == e.position.quantity ==>
              MarginInUse(entries + [e]) == MarginInUse(entries) + e.marginUsed
    ensures e.position.remaining * 2.0 == e.position.quantity ==>
              MarginInUse(entries + [e]) == MarginInUse(entries) + e.marginUsed / 2.0
    ensures MarginInUse(entries + [e]) == MarginInUse(entries) + TiedUp(e)
    ensures TiedUp(e) * e.position.quantity == e.marginUsed * e.position.remaining
  {
    MarginStep(entries, e);
    hide MarginInUse, SaneEntries, TiedUp;
    TiedMeaning(e);
  }

  lemma TiedMeaning(e: Entry)
    requires SaneEntry(e)
    ensures TiedUp(e) * e.position.quantity == e.marginUsed * e.position.remaining
    ensures e.position.remaining == e.position.quantity ==> TiedUp(e) == e.marginUsed
    ensures e.position.remaining * 2.0 == e.position.quantity ==> TiedUp(e) == e.marginUsed / 2.0
  {
    var n, q := e.marginUsed * e.position.remaining, e.position.quantity;
    var tied := TiedUp(e);
    assert tied == n / q;
    hide TiedUp;
    QuotientIs(n, q, tied);
    if e.position.remaining == q {
      SameProduct(tied, e.marginUsed, q);
    }
    if e.position.remaining * 2.0 == q {
      HalfShare(tied, e.marginUsed, e.position.remaining, q);
    }
  }

  lemma HalfShare(tied: real, margin: real, half: real, whole: real)
    requires whole > 0.0 && half * 2.0 == whole && tied * whole == margin * half
    ensures tied == margin / 2.0
  {
    assert (2.0 * tied - margin) * half == 0.0;
  }

  lemma QuotientIs(n: real, q: real, r: real)
    requires q > 0.0 && r == n / q
    ensures r * q == n
  {
  }

  lemma SameProduct(a: real, b: real, q: real)
    requires q > 0.0 && a * q == b * q
    ensures a == b
  {
    assert (a - b) * q == 0.0;
  }

  lemma MarginStep(entries: seq<Entry>, e: Entry)
    requires SaneEntries(entries + [e])
    ensures SaneEntries(entries) && SaneEntry(e) && MarginInUse([]) == 0.0
    ensures MarginInUse(entries + [e]) == MarginInUse(entries) + TiedUp(e)
  {
    hide TiedUp;
    assert (entries + [e])[..|entries|] == entries;
  }

  lemma RatioNotNegative(n: real, d: real)
    requires n >= 0.0 && d > 0.0
    ensures n / d >= 0.0
  {
    var q := n / d;
    assert q * d == n;
    if q < 0.0 {
      MulStrict(q, 0.0, d);
    }
  }

  const SMALLEST_EQUITY := 0.00000001

  function ContextFor(
    marked: real, peak: real, dayStart: real, entries: seq<Entry>, filters: Risk.Filters, config: Config,
    correlations: map<string, real>): Risk.Context
    requires SaneEntries(entries)
  {
    var equity := Max(marked, SMALLEST_EQUITY);
    Risk.Context(Risk.Testnet,
                 Risk.Account(equity, Max(dayStart, SMALLEST_EQUITY), Max(peak, equity), MarginInUse(entries)),
                 HeldOf(entries), filters, config.limits, correlations, config.costs.feeRate, config.costs.slippageRate)
  }

  lemma ContextIsValid(
    marked: real, peak: real, dayStart: real, entries: seq<Entry>, filters: Risk.Filters, config: Config,
    correlations: map<string, real>)
    requires SaneEntries(entries) && ValidConfig(config) && Risk.ValidFilters(filters)
    ensures Risk.ValidContext(ContextFor(marked, peak, dayStart, entries, filters, config, correlations))
  {
    hide MarginInUse, HeldOf, Risk.ValidLimits, Risk.ValidFilters;
    forall i | 0 <= i < |entries|
      ensures HeldOf(entries)[i].initialRisk > 0.0
    {
      SaneEntriesEach(entries, i);
    }
  }

  // ----- Opening -----

  /** The position an approved decision opens, after entry slippage; `None` where no first target exists. */
  function OpenDecision(signal: Risk.Signal, d: Risk.Decision, c: Sim.Costs): Option<Entry>
    requires d.Approved?
  {
    var side := Risk.SideOf(signal.action);
    var entry := Sim.EntryPrice(side, d.entry, c.slippageRate);
    var tp1 := FirstTakeProfit(entry, d.stop, d.target, side);
    if tp1.None? then None
    else Some(Entry(signal.symbol,
                    Sim.Position(side, d.quantity, entry, tp1.value, d.target, d.quantity, d.stop, entry, entry, 0.0,
                                 Sim.Fee(entry, d.quantity, c.feeRate), Sim.Slip(entry, d.entry, d.quantity), false, false),
                    d.risk, d.margin, 0.0, 0))
  }

  lemma CapitalWithinInitial(equity: real, initial: real, pct: real)
    requires pct > 0.0
    ensures Worth(Min(equity, initial), pct) <= Worth(initial, pct)
  {
    MulMono(Min(equity, initial), initial, pct);
  }

  /** What the gate approved keeps every limit of the portfolio. */
  lemma OpeningKeepsLimits(
    entries: seq<Entry>, signal: Risk.Signal, snapshot: Risk.Snapshot, context: Risk.Context, d: Risk.Decision,
    config: Config, e: Entry)
    requires ValidConfig(config) && SaneEntries(entries) && WithinLimits(entries, config.initialEquity, config.limits)
    requires Risk.Sane(signal, snapshot, context)
    requires context.positions == HeldOf(entries) && context.limits == config.limits
    requires d.Approved? && Risk.Verdict(d, signal, snapshot, context)
    requires OpenDecision(signal, d, config.costs) == Some(e)
    ensures SaneEntries(entries + [e]) && WithinLimits(entries + [e], config.initialEquity, config.limits)
    ensures e.symbol == signal.symbol && Net(e) == -e.position.fees && e.symbol !in Holdings(entries)
    ensures e.initialRisk == d.risk && e.position.quantity == e.position.remaining == d.quantity
  {
    hide Risk.Applies, Risk.WithinLimits, OpenDecision, Worth, OpenRisk, SideCount, Holdings, SaneEntries, SaneEntry, OpenNet, Net;
    Risk.PassedGates(signal, snapshot, context);
    OpenedEntry(signal, snapshot, context, d, config.costs, e);
    RiskLeftOver(d, signal, snapshot, context);
    GateSees(entries, e.position.side);
    assert forall i :: 0 <= i < |entries| ==> entries[i].symbol == HeldOf(entries)[i].symbol;
    NotHeld(entries, signal.symbol);
    CapitalWithinInitial(context.account.equity, config.initialEquity, config.limits.portfolioRiskPct);
    Appended(entries, e);
  }

  lemma OpenedEntry(signal: Risk.Signal, snapshot: Risk.Snapshot, context: Risk.Context, d: Risk.Decision, c: Sim.Costs, e: Entry)
    requires Risk.Sane(signal, snapshot, context) && d.Approved? && signal.terms.Some?
    requires Risk.WithinLimits(d, signal, snapshot, context) && OpenDecision(signal, d, c) == Some(e)
    ensures SaneEntry(e) && e.symbol == signal.symbol && e.initialRisk == d.risk && Net(e) == -e.position.fees
    ensures e.position.quantity == e.position.remaining == d.quantity && e.position.side == Risk.SideOf(signal.action)
  {
    hide Sim.Fee, Sim.Slip, Sim.EntryPrice, FirstTakeProfit, Risk.FitsAll, Worth, OnGrid, Risk.RoundedEntry, Risk.RoundedStop,
      Risk.RoundedTarget, Risk.TradeRiskCap, Risk.MarginCap, Risk.PortfolioRiskCap, Risk.InitialRisk;
    MarginPositive(d, context);
    hide Risk.Margin;
  }

  lemma RiskLeftOver(d: Risk.Decision, s: Risk.Signal, m: Risk.Snapshot, c: Risk.Context)
    requires d.Approved? && s.terms.Some? && c.filters.tick > 0.0 && c.limits.maxLeverage >= 1
    requires Risk.WithinLimits(d, s, m, c)
    ensures d.risk + Risk.InitialRisk(c.positions) <= Risk.PortfolioRiskCap(c)
  {
    hide Worth, Risk.Margin, Risk.InitialRisk, Risk.PortfolioRiskCap;
  }

  lemma MarginPositive(d: Risk.Decision, c: Risk.Context)
    requires d.Approved? && Risk.ValidContext(c) && d.quantity >= c.filters.minQuantity
    requires d.leverage >= 1 && Worth(d.quantity, d.entry) >= c.filters.minNotional
    ensures Risk.Margin(d.quantity, d.entry, d.leverage) >= 0.0
  {
    RatioNotNegative(Worth(d.quantity, d.entry), d.leverage as real);
  }

  /** Cash, ledgers and open positions, which every attempt to open may change. */
  datatype Desk = Desk(books: Books, entries: seq<Entry>)

  function OpeningOf(item: Pending, decision: Option<Risk.Decision>, c: Sim.Costs): Option<Entry> {
    if decision.Some? && decision.value.Approved? then OpenDecision(item.signal, decision.value, c) else None
  }

  /** An attempt changes something only when its decision opens a position; that costs the entry fee. */
  function AfterDecision(desk: Desk, item: Pending, decision: Option<Risk.Decision>, c: Sim.Costs): Desk
    requires item.signal.symbol in desk.books.ledgers
  {
    var opening := OpeningOf(item, decision, c);
    if opening.None? then desk
    else Desk(Charged(desk.books, item.signal.symbol, 0.0, opening.value.position.fees, 0.0), desk.entries + [opening.value])
  }

  /** Attempts one after another: what was tried, how the gate decided, and where each one left the desk. */
  datatype Session = Session(tried: seq<Pending>, decisions: seq<Option<Risk.Decision>>, desks: seq<Desk>)

  // ----- What holds at the end of every bar -----

  /** A summary of the replay at the end of one bar. */
  datatype Moment = Moment(
    cash: real, closedNet: real, openNet: real, openRisk: real, count: nat, longs: nat, shorts: nat,
    halted: bool, held: map<string, real>, day: int, marked: real)

  predicate SoundMoment(m: Moment, config: Config) {
    && m.cash == config.initialEquity + m.closedNet + m.openNet
    && m.openRisk <= Worth(config.initialEquity, config.limits.portfolioRiskPct)
    && m.count <= config.limits.maxPositions
    && m.longs <= config.limits.maxSameDirection && m.shorts <= config.limits.maxSameDirection
  }

  predicate HaltLasts(a: Moment, b: Moment) {
    a.halted ==> b.halted && OnlyShrunk(a.held, b.held)
  }

  /** Every moment is sound, and after a halted one nothing is opened or grows. */
  predicate SoundTrace(trace: seq<Moment>, config: Config) {
    && (forall i :: 0 <= i < |trace| ==> SoundMoment(trace[i], config))
    && (forall i, j :: 0 <= i < j < |trace| ==> HaltLasts(trace[i], trace[j]))
  }

  lemma SoundTraceGrows(trace: seq<Moment>, m: Moment, config: Config)
    requires SoundTrace(trace, config) && SoundMoment(m, config)
    requires trace != [] ==> HaltLasts(trace[|trace| - 1], m)
    ensures SoundTrace(trace + [m], config)
  {
    hide SoundMoment;
    var more := trace + [m];
    forall i, j | 0 <= i < j < |more|
      ensures HaltLasts(more[i], more[j])
    {
      if j == |trace| && i < |trace| - 1 {
        assert HaltLasts(trace[i], trace[|trace| - 1]);
      }
    }
  }

  /** What a replay starts from. */
  datatype Reference = Reference(day: int, dayStart: real, marked: real, peak: real, drawdown: real)

  /** What the losses of a bar's day are measured from: the last mark before the day began. */
  function DayStart(o: Reference, trace: seq<Moment>, i: nat): real
    requires i < |trace|
  {
    var before := if i == 0 then Reference(o.day, o.dayStart, o.marked, o.peak, o.drawdown)
                  else Reference(trace[i - 1].day, DayStart(o, trace, i - 1), trace[i - 1].marked, o.peak, o.drawdown);
    if trace[i].day != before.day then before.marked else before.dayStart
  }

  /** Bars `k` to `i` are the bars of one day up to `i`: the start is the mark before bar `k`. */
  lemma {:induction false} DayStartMeaning(o: Reference, trace: seq<Moment>, k: nat, i: nat)
    requires k <= i < |trace| && forall j :: k <= j <= i ==> trace[j].day == trace[i].day
    ensures k > 0 && trace[k - 1].day != trace[k].day ==> DayStart(o, trace, i) == trace[k - 1].marked
    ensures k == 0 ==> DayStart(o, trace, i) == if trace[0].day != o.day then o.marked else o.dayStart
  {
    if k < i {
      assert trace[i - 1].day == trace[i].day;
      DayStartMeaning(o, trace, k, i - 1);
    }
  }

  /** The highest mark of the first `n` bars, or what the replay started from. */
  function HighMark(o: Reference, trace: seq<Moment>, n: nat): real
    requires n <= |trace|
  {
    if n == 0 then o.peak else Max(HighMark(o, trace, n - 1), trace[n - 1].marked)
  }

  lemma {:induction false} HighMarkMeaning(o: Reference, trace: seq<Moment>, n: nat)
    requires n <= |trace|
    ensures HighMark(o, trace, n) >= o.peak && forall i :: 0 <= i < n ==> HighMark(o, trace, n) >= trace[i].marked
    ensures HighMark(o, trace, n) == o.peak || exists i :: 0 <= i < n && HighMark(o, trace, n) == trace[i].marked
  {
    if n > 0 {
      HighMarkMeaning(o, trace, n - 1);
    }
  }

  /** The account has lost a limit's share of where the day began or of its highest mark. */
  predicate Trips(marked: real, dayStart: real, high: real, l: Risk.Limits) {
    var equity := Max(marked, SMALLEST_EQUITY);
    || equity <= Max(dayStart, SMALLEST_EQUITY) * (1.0 - l.dailyLossPct)
    || equity <= Max(high, equity) * (1.0 - l.maxDrawdownPct)
  }

  predicate TripsAt(o: Reference, trace: seq<Moment>, i: nat, l: Risk.Limits)
    requires i < |trace|
  {
    Trips(trace[i].marked, DayStart(o, trace, i), HighMark(o, trace, i + 1), l)
  }

  /** The replay is halted from the first bar on whose mark trips a breaker, and not before. */
  ghost predicate HaltsOnTrips(o: Reference, trace: seq<Moment>, l: Risk.Limits) {
    forall i :: 0 <= i < |trace| ==> (trace[i].halted <==> TrippedBy(o, trace, i, l))
  }

  /** How far a bar's mark is below the highest one so far, as a share of that. */
  function LossAt(o: Reference, trace: seq<Moment>, i: nat): real
    requires i < |trace|
  {
    LossFrom(HighMark(o, trace, i + 1), trace[i].marked)
  }

  function LossFrom(high: real, marked: real): real {
    if high != 0.0 then (high - marked) / high else 0.0
  }

  /** `worst` is the greatest loss of all bars. */
  ghost predicate WorstLoss(o: Reference, trace: seq<Moment>, worst: real) {
    && worst >= o.drawdown && (forall i :: 0 <= i < |trace| ==> worst >= LossAt(o, trace, i))
    && (worst == o.drawdown || exists i :: 0 <= i < |trace| && worst == LossAt(o, trace, i))
  }

  /** What the engine remembers between bars is what the bars so far make of it. */
  ghost predicate Remembers(o: Reference, trace: seq<Moment>, now: Reference) {
    && now.peak == HighMark(o, trace, |trace|)
    && WorstLoss(o, trace, now.drawdown)
    && if trace == [] then now == o
       else
         var last := trace[|trace| - 1];
         now.day == last.day && now.marked == last.marked && now.dayStart == DayStart(o, trace, |trace| - 1)
  }

  lemma {:induction false} DayStartLocal(o: Reference, trace: seq<Moment>, m: Moment, i: nat)
    requires i < |trace|
    ensures DayStart(o, trace + [m], i) == DayStart(o, trace, i)
  {
    if i > 0 {
      DayStartLocal(o, trace, m, i - 1);
    }
  }

  lemma {:induction false} HighMarkLocal(o: Reference, trace: seq<Moment>, m: Moment, n: nat)
    requires n <= |trace|
    ensures HighMark(o, trace + [m], n) == HighMark(o, trace, n)
  {
    if n > 0 {
      HighMarkLocal(o, trace, m, n - 1);
    }
  }

  /** One more bar: its losses are measured as the whole trace says. */
  lemma RemembersMore(o: Reference, trace: seq<Moment>, before: Reference, m: Moment, now: Reference)
    requires Remembers(o, trace, before)
    requires now.day == m.day && now.marked == m.marked
    requires now.dayStart == if m.day != before.day then before.marked else before.dayStart
    requires now.peak == Max(before.peak, m.marked)
    requires now.drawdown == Max(before.drawdown, LossFrom(now.peak, m.marked))
    ensures Remembers(o, trace + [m], now)
    ensures now.dayStart == DayStart(o, trace + [m], |trace|) && now.peak == HighMark(o, trace + [m], |trace| + 1)
  {
    var more := trace + [m];
    HighMarkLocal(o, trace, m, |trace|);
    if trace != [] {
      DayStartLocal(o, trace, m, |trace| - 1);
    }
    LossesMore(o, trace, before.drawdown, m);
  }

  lemma LossesMore(o: Reference, trace: seq<Moment>, worst: real, m: Moment)
    requires WorstLoss(o, trace, worst)
    ensures WorstLoss(o, trace + [m], Max(worst, LossFrom(Max(HighMark(o, trace, |trace|), m.marked), m.marked)))
  {
    hide LossFrom;
    var more := trace + [m];
    forall i | 0 <= i < |trace|
      ensures LossAt(o, more, i) == LossAt(o, trace, i)
    {
      HighMarkLocal(o, trace, m, i + 1);
    }
    HighMarkLocal(o, trace, m, |trace|);
    assert LossAt(o, more, |trace|) == LossFrom(Max(HighMark(o, trace, |trace|), m.marked), m.marked);
    if worst != o.drawdown {
      var i :| 0 <= i < |trace| && worst == LossAt(o, trace, i);
      assert worst == LossAt(o, more, i);
    }
  }

  lemma TripsLocal(o: Reference, trace: seq<Moment>, m: Moment, j: nat, l: Risk.Limits)
    requires j < |trace|
    ensures TripsAt(o, trace + [m], j, l) == TripsAt(o, trace, j, l)
  {
    hide Trips;
    DayStartLocal(o, trace, m, j);
    HighMarkLocal(o, trace, m, j + 1);
  }

  ghost predicate TrippedBy(o: Reference, trace: seq<Moment>, i: nat, l: Risk.Limits)
    requires i < |trace|
  {
    exists j :: 0 <= j <= i && TripsAt(o, trace, j, l)
  }

  lemma TrippedByLocal(o: Reference, trace: seq<Moment>, m: Moment, i: nat, l: Risk.Limits)
    requires i < |trace|
    ensures TrippedBy(o, trace + [m], i, l) == TrippedBy(o, trace, i, l)
  {
    hide TripsAt;
    forall j | 0 <= j <= i
      ensures TripsAt(o, trace + [m], j, l) == TripsAt(o, trace, j, l)
    {
      TripsLocal(o, trace, m, j, l);
    }
  }

  lemma TrippedByLast(o: Reference, trace: seq<Moment>, l: Risk.Limits)
    requires trace != []
    ensures var n := |trace| - 1;
            TrippedBy(o, trace, n, l) <==> (n > 0 && TrippedBy(o, trace, n - 1, l)) || TripsAt(o, trace, n, l)
  {
    hide TripsAt;
  }

  lemma HaltsMore(o: Reference, trace: seq<Moment>, m: Moment, l: Risk.Limits)
    requires HaltsOnTrips(o, trace, l)
    requires m.halted <==> (trace != [] && trace[|trace| - 1].halted) || TripsAt(o, trace + [m], |trace|, l)
    ensures HaltsOnTrips(o, trace + [m], l)
  {
    hide TripsAt, TrippedBy;
    var more := trace + [m];
    TrippedByLast(o, more, l);
    forall i | 0 <= i < |trace|
      ensures TrippedBy(o, more, i, l) == trace[i].halted
    {
      TrippedByLocal(o, trace, m, i, l);
    }
  }

  datatype SymbolResult = SymbolResult(net: real, trades: nat, fees: real, funding: real)

  datatype Result = Result(
    finalEquity: real, netProfit: real, maxDrawdown: real, fees: real, funding: real, symbols: map<string, SymbolResult>)

  // ----- The engine -----

  class PortfolioBacktestEngine {
    const config: Config
    const symbols: seq<string>
    const filters: map<string, Risk.Filters>
    var books: Books
    var entries: seq<Entry>
    var pending: seq<Pending>
    var lastPrices: map<string, real>
    var peak: real
    var maxDrawdown: real
    var dayStart: real
    var lastMarked: real
    var tradingDay: int
    var halted: bool
    ghost var seen: seq<Bar>
    ghost var trace: seq<Moment>

    constructor (config: Config, symbols: seq<string>, filters: map<string, Risk.Filters>, history: map<string, real>,
                 day: int)
      requires ValidConfig(config) && Distinct(symbols)
      requires forall s :: s in symbols ==> s in filters && Risk.ValidFilters(filters[s])
      ensures Valid() && Priced() && entries == [] && pending == [] && !halted && trace == [] && seen == []
      ensures this.config == config && this.symbols == symbols && this.filters == filters && lastPrices == history
      ensures Memory() == Reference(day, config.initialEquity, config.initialEquity, config.initialEquity, 0.0)
      ensures books.equity == config.initialEquity && forall s :: s in books.ledgers ==> books.ledgers[s] == EMPTY_LEDGER
    {
      this.config, this.symbols, this.filters := config, symbols, filters;
      var ledgers := map s | s in symbols :: EMPTY_LEDGER;
      books := Books(config.initialEquity, 0.0, 0.0, 0.0, ledgers);
      entries, pending, lastPrices := [], [], history;
      peak, maxDrawdown, dayStart, lastMarked := config.initialEquity, 0.0, config.initialEquity, config.initialEquity;
      tradingDay, halted, seen, trace := day, false, [], [];
      EmptyLedgers(symbols, ledgers);
      NothingOpen(config);
    }

    /** Accounts balance and limits hold. */
    ghost predicate Valid()
      reads this
    {
      && ValidConfig(config)
      && (forall s :: s in symbols ==> s in filters && Risk.ValidFilters(filters[s]))
      && Indexed(symbols, books)
      && Balanced(books, symbols, config.initialEquity, OpenNet(entries))
      && SaneEntries(entries) && WithinLimits(entries, config.initialEquity, config.limits)
      && AllKnown(entries, symbols)
      && AllValid(pending, symbols)
    }

    /** What losses are measured against. */
    ghost function Memory(): Reference
      reads this
    {
      Reference(tradingDay, dayStart, lastMarked, peak, maxDrawdown)
    }

    ghost function Here(): Desk
      reads this
    {
      Desk(books, entries)
    }

    /** Every open symbol has a last price. */
    ghost predicate Priced()
      reads this
    {
      forall s :: s in Holdings(entries) ==> s in lastPrices
    }

    ghost predicate ValidBar(bar: Bar)
    {
      && (forall s :: s in bar.candles ==> s in symbols)
      && (forall i :: 0 <= i < |bar.candidates| ==> ValidPending(bar.candidates[i], symbols))
    }

    /** The signal is still good and its candle trades through the price it was made at. */
    predicate Fillable(item: Pending, bar: Bar) {
      && item.signal.symbol in bar.candles
      && var candle, mid := bar.candles[item.signal.symbol], Risk.MidPrice(item.snapshot);
         && candle.openTime <= item.signal.expiresAt
         && (if item.signal.action.OpenLong? then candle.low <= mid else candle.high >= mid)
    }

    /** A buy waits while the whole candle is above the quote's middle, a sell while it is below; both expire. */
    lemma FillableMeaning(item: Pending, bar: Bar)
      requires item.signal.symbol in bar.candles
      ensures var c, mid := bar.candles[item.signal.symbol], (item.snapshot.bestBid + item.snapshot.bestAsk) / 2.0;
              var waits := if item.signal.action.OpenLong? then mid < c.low else c.high < mid;
              Fillable(item, bar) <==> !waits && !(item.signal.expiresAt < c.openTime)
    {
    }

    function ContextAt(desk: Desk, symbol: string, bar: Bar, prices: map<string, real>, high: real, start: real): Risk.Context
      requires SaneEntries(desk.entries) && symbol in filters
    {
      ContextFor(desk.books.equity + Marked(desk.entries, prices), high, start, desk.entries, filters[symbol], config,
                 if symbol in bar.correlations then bar.correlations[symbol] else map[])
    }

    /** Exactly the fillable signals are decided, each by the gate on the account as it is marked then. */
    ghost predicate Judged(item: Pending, decision: Option<Risk.Decision>, desk: Desk, bar: Bar, prices: map<string, real>,
                           high: real, start: real)
    {
      && (decision.Some? <==> Fillable(item, bar))
      && (decision.Some? ==>
            && SaneEntries(desk.entries) && item.signal.symbol in filters
            && var context := ContextAt(desk, item.signal.symbol, bar, prices, high, start);
               Risk.Sane(item.signal, item.snapshot, context)
               && Risk.Verdict(decision.value, item.signal, item.snapshot, context))
    }

    /** An approved decision no position can be made of; the source raises there. */
    predicate Raises(item: Pending, decision: Option<Risk.Decision>) {
      decision.Some? && decision.value.Approved? && OpeningOf(item, decision, config.costs).None?
    }

    /** Every attempt is judged, and changes the desk as its decision says. */
    ghost predicate Processed(session: Session, bar: Bar, prices: map<string, real>, high: real, start: real) {
      && |session.desks| == |session.decisions| + 1 && |session.decisions| <= |session.tried|
      && forall i :: 0 <= i < |session.decisions| ==>
                       && session.tried[i].signal.symbol in session.desks[i].books.ledgers
                       && Judged(session.tried[i], session.decisions[i], session.desks[i], bar, prices, high, start)
                       && session.desks[i + 1]
                          == AfterDecision(session.desks[i], session.tried[i], session.decisions[i], config.costs)
    }

    lemma StartOfSession(session: Session, bar: Bar, prices: map<string, real>, high: real, start: real)
      requires session.decisions == [] && |session.desks| == 1
      ensures Processed(session, bar, prices, high, start)
    {
    }

    lemma ProcessedMore(before: Session, session: Session, item: Pending, decision: Option<Risk.Decision>, desk: Desk,
                        bar: Bar, prices: map<string, real>, high: real, start: real)
      requires Processed(before, bar, prices, high, start) && |before.decisions| < |before.tried|
      requires var n := |before.decisions|;
               && item == before.tried[n] && item.signal.symbol in before.desks[n].books.ledgers
               && Judged(item, decision, before.desks[n], bar, prices, high, start)
               && desk == AfterDecision(before.desks[n], item, decision, config.costs)
      requires session == Session(before.tried, before.decisions + [decision], before.desks + [desk])
      ensures Processed(session, bar, prices, high, start)
    {
      hide Judged, AfterDecision;
    }

    /** All waiting signals are tried, best score first, unless one raises. */
    ghost predicate AllTried(session: Session, waiting: seq<Pending>, raised: bool) {
      && multiset(session.tried) == multiset(waiting) && Falling(session.tried) && SameByScore(session.tried, waiting)
      && (forall i :: 0 <= i < |session.decisions| && i < |session.tried| ==>
                        (Raises(session.tried[i], session.decisions[i]) <==> raised && i == |session.decisions| - 1))
      && if raised then session.decisions != [] else |session.decisions| == |session.tried|
    }

    lemma Unjudged(item: Pending, bar: Bar, prices: map<string, real>)
      requires Valid() && ValidPending(item, symbols)
      ensures item.signal.symbol in filters && item.signal.symbol in books.ledgers
      ensures !Fillable(item, bar) ==> Judged(item, None, Here(), bar, prices, peak, dayStart)
    {
      hide Fillable, Balanced, WithinLimits, SaneEntries, ValidConfig;
    }

    lemma JudgedBy(item: Pending, verdict: Risk.Decision, desk: Desk, bar: Bar, prices: map<string, real>,
                   context: Risk.Context)
      requires Fillable(item, bar) && SaneEntries(desk.entries) && item.signal.symbol in filters
      requires context == ContextAt(desk, item.signal.symbol, bar, prices, peak, dayStart)
      requires Risk.Sane(item.signal, item.snapshot, context)
      requires Risk.Verdict(verdict, item.signal, item.snapshot, context)
      ensures Judged(item, Some(verdict), desk, bar, prices, peak, dayStart)
    {
      hide Risk.Verdict, Risk.Sane, ContextAt;
    }

    lemma DeskAfter(desk: Desk, item: Pending, decision: Option<Risk.Decision>)
      requires item.signal.symbol in desk.books.ledgers
      ensures var opening := OpeningOf(item, decision, config.costs);
              AfterDecision(desk, item, decision, config.costs)
              == if opening.None? then desk
                 else Desk(Charged(desk.books, item.signal.symbol, 0.0, opening.value.position.fees, 0.0),
                           desk.entries + [opening.value])
    {
    }

    /** Try to open one pending signal.  `_open_decision` raises where `raised` is set. */
    method TryOpen(item: Pending, bar: Bar, prices: map<string, real>)
      returns (raised: bool, ghost decision: Option<Risk.Decision>)
      requires Valid() && ValidPending(item, symbols)
      modifies `books, `entries
      ensures Valid()
      ensures raised ==> unchanged(this)
      ensures Judged(item, decision, old(Here()), bar, prices, peak, dayStart) && item.signal.symbol in old(books).ledgers
      ensures Here() == AfterDecision(old(Here()), item, decision, config.costs)
      ensures raised <==> Raises(item, decision)
      ensures var opening := OpeningOf(item, decision, config.costs);
              entries == old(entries) + (if opening.Some? then [opening.value] else [])
      ensures forall s :: s in books.ledgers ==>
                            && books.ledgers[s].pnls == old(books).ledgers[s].pnls
                            && books.ledgers[s].funding == old(books).ledgers[s].funding
                            && (s != item.signal.symbol ==> books.ledgers[s] == old(books).ledgers[s])
      ensures forall s :: s in Holdings(entries) ==> s in old(Holdings(entries)) || s in bar.candles
    {
      hide Balanced, WithinLimits, OpenNet, Holdings, SaneEntries, Risk.Sane, Risk.Applies, Risk.WithinLimits, OpenDecision,
        ContextFor, Risk.FitsAll, AfterDecision, Judged, Indexed, Charged, Marked, Risk.Verdict, AllValid, ValidConfig;
      Unjudged(item, bar, prices);
      decision := None;
      DeskAfter(Here(), item, None);
      var symbol := item.signal.symbol;
      if symbol !in bar.candles || bar.candles[symbol].openTime > item.signal.expiresAt {
        return false, decision;
      }
      var candle, mid := bar.candles[symbol], Risk.MidPrice(item.snapshot);
      if !(if item.signal.action.OpenLong? then candle.low <= mid else candle.high >= mid) {
        return false, decision;
      }
      assert Fillable(item, bar);
      var correlations := if symbol in bar.correlations then bar.correlations[symbol] else map[];
      var marked := books.equity + Marked(entries, prices);
      var context := ContextFor(marked, peak, dayStart, entries, filters[symbol], config, correlations);
      SaneContext(item, marked, peak, dayStart, entries, filters[symbol], config, correlations, symbols);
      var verdict := Risk.Evaluate(item.signal, item.snapshot, context);
      JudgedBy(item, verdict, Here(), bar, prices, context);
      decision := Some(verdict);
      DeskAfter(Here(), item, decision);
      if verdict.Rejected? {
        return false, decision;
      }
      var opening := OpenDecision(item.signal, verdict, config.costs);
      if opening.None? {
        return true, decision;
      }
      var e := opening.value;
      OpeningKeepsLimits(entries, item.signal, item.snapshot, context, verdict, config, e);
      Appended(entries, e);
      ChargedBalances(books, symbols, config.initialEquity, OpenNet(entries), symbol, 0.0, e.position.fees, 0.0);
      LedgersAfterFee(books, symbol, e.position.fees);
      books := Charged(books, symbol, 0.0, e.position.fees, 0.0);
      entries := entries + [e];
      return false, decision;
    }

    /** Pending signals are tried by falling score; they are gone afterwards either way. */
    method ProcessPending(bar: Bar, prices: map<string, real>) returns (raised: bool, ghost session: Session)
      requires Valid() && ValidBar(bar)
      modifies `books, `entries, `pending
      ensures Valid() && pending == []
      ensures forall s :: s in Holdings(entries) ==> s in old(Holdings(entries)) || s in bar.candles
      ensures old(entries) <= entries && |entries| <= |old(entries)| + |old(pending)|
      ensures Processed(session, bar, prices, peak, dayStart) && AllTried(session, old(pending), raised)
      ensures session.desks[0] == old(Here()) && session.desks[|session.decisions|] == Here()
    {
      hide Balanced, Indexed, WithinLimits, OpenNet, Holdings, SaneEntries, ValidPending, Judged, AfterDecision, Raises,
        Falling, SameByScore, Fillable, Processed;
      var ordered := ByFallingScore(pending, symbols);
      assert |multiset(ordered)| == |multiset(pending)|;
      pending := [];
      session := Session(ordered, [], [Here()]);
      StartOfSession(session, bar, prices, peak, dayStart);
      for i := 0 to |ordered|
        invariant Valid() && pending == []
        invariant forall s :: s in Holdings(entries) ==> s in old(Holdings(entries)) || s in bar.candles
        invariant old(entries) <= entries && |entries| <= |old(entries)| + i
        invariant session.tried == ordered && |session.decisions| == i && |session.desks| == i + 1
        invariant Processed(session, bar, prices, peak, dayStart)
        invariant forall k :: 0 <= k < i ==> !Raises(ordered[k], session.decisions[k])
        invariant session.desks[0] == old(Here()) && session.desks[i] == Here()
      {
        ghost var decision;
        raised, decision := TryOpen(ordered[i], bar, prices);
        ghost var before := session;
        session := Session(ordered, before.decisions + [decision], before.desks + [Here()]);
        ProcessedMore(before, session, ordered[i], decision, Here(), bar, prices, peak, dayStart);
        if raised {
          return true, session;
        }
      }
      return false, session;
    }

    /** One position over one candle; `None` once it is closed and recorded. */
    method ManageEntry(e: Entry, bar: Bar, ghost openNet: real) returns (left: Option<Entry>)
      requires Indexed(symbols, books) && Balanced(books, symbols, config.initialEquity, openNet)
      requires SaneEntry(e) && e.symbol in symbols
      modifies `books
      ensures Indexed(symbols, books)
      ensures Balanced(books, symbols, config.initialEquity, openNet - Net(e) + if left.Some? then Net(left.value) else 0.0)
      ensures forall s :: s in books.ledgers && s != e.symbol ==> books.ledgers[s] == old(books).ledgers[s]
      ensures left == AfterCandle(e, bar, config.costs) && books == BookedCandle(old(books), e, bar, config.costs)
      ensures e.symbol !in bar.candles ==> books == old(books)
      ensures e.symbol in bar.candles ==>
                var r := Advanced(e, bar.candles[e.symbol], AtrOf(bar, e.symbol), RateOf(bar, e.symbol), config.costs);
                var l, l' := old(books).ledgers[e.symbol], books.ledgers[e.symbol];
                && l'.pnls == l.pnls + (if left.None? then [Net(r)] else [])
                && l'.holdingBars == l.holdingBars + (if left.None? then [e.holdingBars + 1] else [])
                && l'.slippage == l.slippage + (if left.None? then r.position.slippage else 0.0)
                && l'.fees == l.fees + (r.position.fees - e.position.fees) && l'.funding == l.funding + (r.funding - e.funding)
      ensures left.Some? ==>
                && SaneEntry(left.value) && left.value.symbol == e.symbol && left.value.initialRisk == e.initialRisk
                && left.value.position.side == e.position.side && left.value.position.remaining <= e.position.remaining
    {
      hide Balanced, Sim.Managed, Sim.FundingCost, Sim.StopTouched, SaneEntry;
      if e.symbol !in bar.candles {
        return Some(e);
      }
      var candle, atr, rate := bar.candles[e.symbol], AtrOf(bar, e.symbol), RateOf(bar, e.symbol);
      var r := Advanced(e, candle, atr, rate, config.costs);
      AdvancedShrinks(e, candle, atr, rate, config.costs);
      var pnl, fee := r.position.realized - e.position.realized, r.position.fees - e.position.fees;
      var funding := r.funding - e.funding;
      ChargedBalances(books, symbols, config.initialEquity, openNet, e.symbol, pnl, fee, funding);
      books := Charged(books, e.symbol, pnl, fee, funding);
      if Sim.Closes(e.position, candle, r.position) {
        RecordedBalances(books, symbols, config.initialEquity, openNet + pnl - fee - funding, r);
        books := Recorded(books, r);
        return None;
      }
      return Some(r);
    }

    /** Every position in turn; the closed ones are left out of the result. */
    method ManageEach(all: seq<Entry>, bar: Bar) returns (kept: seq<Entry>)
      requires Indexed(symbols, books) && Balanced(books, symbols, config.initialEquity, OpenNet(all))
      requires SaneEntries(all) && AllKnown(all, symbols)
      modifies `books
      ensures Indexed(symbols, books) && Balanced(books, symbols, config.initialEquity, OpenNet(kept))
      ensures Reduced(all, kept) && kept == AfterBar(all, bar, config.costs)
      ensures HasLedgers(old(books), all) && books == BookedBar(old(books), all, bar, config.costs)
    {
      hide Balanced, OpenNet, OpenRisk, SideCount, Holdings, SaneEntries, SaneEntry, Net, Indexed, Reduced,
        AllKnown, AfterCandle, AfterBar, HasLedgers, BookedCandle, BookedBar;
      KnownHaveLedgers(books, all, symbols);
      kept := [];
      AfterNothing(books, bar, config.costs);
      NetEnds(all);
      NetEnds(kept);
      for i := 0 to |all|
        invariant Reduced(all[..i], kept) && kept == AfterBar(all[..i], bar, config.costs)
        invariant HasLedgers(old(books), all[..i]) && books == BookedBar(old(books), all[..i], bar, config.costs)
        invariant Indexed(symbols, books)
        invariant Balanced(books, symbols, config.initialEquity, OpenNet(all) - OpenNet(all[..i]) + OpenNet(kept))
      {
        EntryAt(all, i, symbols);
        NetStep(all, i);
        var left := ManageEntry(all[i], bar, OpenNet(all) - OpenNet(all[..i]) + OpenNet(kept));
        ReducedStep(all, i, kept, left);
        AfterBarStep(all, i, bar, config.costs);
        BookedBarStep(old(books), all, i, bar, config.costs);
        kept := if left.Some? then kept + [left.value] else kept;
      }
    }

    method ManageAll(bar: Bar)
      requires Valid()
      modifies `books, `entries
      ensures Valid() && Reduced(old(entries), entries) && entries == AfterBar(old(entries), bar, config.costs)
      ensures HasLedgers(old(books), old(entries)) && books == BookedBar(old(books), old(entries), bar, config.costs)
    {
      hide Balanced, OpenNet, OpenRisk, SideCount, Holdings, SaneEntries, Indexed, ValidPending, WithinLimits, AfterBar,
        HasLedgers, BookedBar;
      var kept := ManageEach(entries, bar);
      ReducedKeepsLimits(entries, kept, config);
      entries := kept;
    }

    /** Take the closes as last prices and mark the account. */
    method MarkAccount(bar: Bar)
      modifies `lastPrices, `lastMarked, `peak, `maxDrawdown
      ensures lastPrices == old(lastPrices) + Closes(bar)
      ensures lastMarked == books.equity + Marked(entries, lastPrices)
      ensures peak == Max(old(peak), lastMarked) && maxDrawdown == Max(old(maxDrawdown), LossFrom(peak, lastMarked))
    {
      hide Marked;
      lastPrices := lastPrices + map s | s in bar.candles :: bar.candles[s].close;
      lastMarked := books.equity + Marked(entries, lastPrices);
      peak := Max(peak, lastMarked);
      var drawdown := if peak != 0.0 then (peak - lastMarked) / peak else 0.0;
      maxDrawdown := Max(maxDrawdown, drawdown);
    }

    /** The account as marked now is past a circuit breaker. */
    ghost predicate Tripped()
      reads this
    {
      Trips(lastMarked, dayStart, peak, config.limits)
    }

    method CheckBreakers() returns (tripped: bool)
      requires SaneEntries(entries) && ValidConfig(config)
      requires symbols != [] && symbols[0] in filters && Risk.ValidFilters(filters[symbols[0]])
      ensures tripped <==> Tripped()
    {
      hide SaneEntries, Holdings, ContextFor, Risk.BreakerTripped, Trips;
      ContextIsValid(lastMarked, peak, dayStart, entries, filters[symbols[0]], config, map[]);
      TripsIsBreaker(lastMarked, peak, dayStart, entries, filters[symbols[0]], config, map[]);
      var reasons := Risk.CheckCircuitBreakers(
        ContextFor(lastMarked, peak, dayStart, entries, filters[symbols[0]], config, map[]));
      return reasons != [];
    }

    /** A tripped breaker halts for good; otherwise new candidates are taken. */
    method EndOfBar(bar: Bar)
      requires Valid() && ValidBar(bar) && symbols != []
      requires forall s :: s in Holdings(entries) ==> s in lastPrices || s in bar.candles
      modifies `lastPrices, `lastMarked, `peak, `maxDrawdown, `halted, `pending
      ensures Valid() && Priced()
      ensures lastPrices == old(lastPrices) + Closes(bar) && lastMarked == books.equity + Marked(entries, lastPrices)
      ensures peak == Max(old(peak), lastMarked) && maxDrawdown == Max(old(maxDrawdown), LossFrom(peak, lastMarked))
      ensures halted <==> old(halted) || Tripped()
      ensures pending == if Tripped() then [] else Gathered(old(pending), bar.candidates, entries)
    {
      hide Balanced, Indexed, WithinLimits, OpenNet, Holdings, SaneEntries, ContextFor, ValidPending, Marked,
        Risk.BreakerTripped, Max, Trips, LossFrom, Gathered;
      MarkAccount(bar);
      var tripped := CheckBreakers();
      if tripped {
        halted := true;
        pending := [];
      } else {
        GeneratePending(bar.candidates);
      }
    }

    ghost method Remember()
      requires Valid() && SoundTrace(trace, config)
      requires trace != [] && trace[|trace| - 1].halted ==> halted && OnlyShrunk(trace[|trace| - 1].held, Holdings(entries))
      modifies `trace
      ensures SoundTrace(trace, config) && trace == old(trace) + [Now()]
    {
      hide Balanced, Indexed, WithinLimits, OpenNet, OpenRisk, SideCount, Holdings, SaneEntries, SoundTrace, SoundMoment;
      MomentIsSound(books, symbols, entries, config, halted, tradingDay, lastMarked);
      SoundTraceGrows(trace, Now(), config);
      trace := trace + [Now()];
    }

    ghost function Now(): Moment
      reads this
    {
      MomentOf(books, symbols, entries, halted, tradingDay, lastMarked)
    }

    /** Candidates without a position and not already pending wait for the next bar. */
    method GeneratePending(candidates: seq<Pending>)
      requires AllValid(pending, symbols) && AllValid(candidates, symbols)
      modifies `pending
      ensures AllValid(pending, symbols) && pending == Gathered(old(pending), candidates, entries)
    {
      hide ValidPending, Free, Queued;
      assert candidates[..|candidates|] == candidates;
      for k := 0 to |candidates|
        invariant AllValid(pending, symbols) && pending == Gathered(old(pending), candidates[..k], entries)
      {
        var x := candidates[k].signal.symbol;
        assert candidates[..k + 1][..k] == candidates[..k];
        if Free(entries, x) && !Queued(pending, x) {
          pending := pending + [candidates[k]];
        }
      }
    }

    /** Pending signals are tried at the opening prices, or dropped when the replay is halted. */
    method TakePending(bar: Bar) returns (raised: bool, ghost session: Session)
      requires Valid() && ValidBar(bar)
      modifies `books, `entries, `pending
      ensures Valid() && pending == []
      ensures forall s :: s in Holdings(entries) ==> s in old(Holdings(entries)) || s in bar.candles
      ensures Processed(session, bar, lastPrices + Opens(bar), peak, dayStart)
      ensures session.desks[0] == old(Here()) && session.desks[|session.decisions|] == Here()
      ensures if halted then session.tried == [] && !raised && Here() == old(Here())
              else AllTried(session, old(pending), raised)
    {
      hide Balanced, Indexed, WithinLimits, OpenNet, Holdings, SaneEntries, ValidPending, Processed, AllTried;
      var prices := lastPrices + map s | s in bar.candles :: bar.candles[s].open;
      assert prices == lastPrices + Opens(bar);
      raised, session := false, Session([], [], [Here()]);
      StartOfSession(session, bar, prices, peak, dayStart);
      if !halted {
        raised, session := ProcessPending(bar, prices);
      } else {
        pending := [];
      }
    }

    /**
      One bar: pending entries first (unless halted), then every position, then the account.
      The session tells how the pending signals fared.
     */
    method StepBar(bar: Bar) returns (raised: bool, ghost session: Session)
      requires Valid() && Priced() && ValidBar(bar) && symbols != [] && SoundTrace(trace, config)
      requires trace != [] ==> trace[|trace| - 1].halted == halted && trace[|trace| - 1].held == Holdings(entries)
      modifies this
      ensures Valid() && SoundTrace(trace, config)
      ensures raised ==> trace == old(trace) && seen == old(seen)
      ensures !raised ==> trace == old(trace) + [Now()] && seen == old(seen) + [bar] && Priced()
      ensures tradingDay == bar.day && dayStart == if bar.day != old(tradingDay) then old(lastMarked) else old(dayStart)
      ensures Processed(session, bar, old(lastPrices) + Opens(bar), old(peak), dayStart) && session.desks[0] == old(Here())
      ensures if old(halted) then session.tried == [] && !raised else AllTried(session, old(pending), raised)
      ensures !raised ==> StepEnds(session.desks[|session.decisions|], bar)
      ensures !raised ==>
                && lastPrices == old(lastPrices) + Closes(bar)
                && lastMarked == books.equity + Marked(entries, lastPrices)
                && peak == Max(old(peak), lastMarked) && maxDrawdown == Max(old(maxDrawdown), LossFrom(peak, lastMarked))
                && (halted <==> old(halted) || Tripped())
                && pending == if Tripped() then [] else Gathered([], bar.candidates, entries)
      ensures old(halted) ==> halted && OnlyShrunk(old(Holdings(entries)), Holdings(entries))
    {
      hide Balanced, Indexed, WithinLimits, OpenNet, OpenRisk, SideCount, Holdings, SaneEntries, SoundTrace, ValidPending,
        ValidConfig, AllKnown, AfterBar, HasLedgers, BookedBar, Trips, Gathered, Marked, LossFrom, Judged,
        AfterDecision, Max, AllTried, ValidBar, Processed, Opens, Closes;
      if bar.day != tradingDay {
        tradingDay, dayStart := bar.day, lastMarked;
      }
      raised, session := TakePending(bar);
      if raised {
        return true, session;
      }
      ManageAll(bar);
      EndOfBar(bar);
      seen := seen + [bar];
      Remember();
      return false, session;
    }

    /** Every position of the desk went through its candle. */
    ghost predicate StepEnds(desk: Desk, bar: Bar)
      reads this
    {
      && entries == AfterBar(desk.entries, bar, config.costs)
      && HasLedgers(desk.books, desk.entries) && books == BookedBar(desk.books, desk.entries, bar, config.costs)
    }

    /** Whatever is still open leaves at its last price. */
    method CloseAll(all: seq<Entry>)
      requires Indexed(symbols, books) && Balanced(books, symbols, config.initialEquity, OpenNet(all))
      requires SaneEntries(all) && AllKnown(all, symbols) && forall s :: s in Holdings(all) ==> s in lastPrices
      modifies `books
      ensures Indexed(symbols, books) && Balanced(books, symbols, config.initialEquity, 0.0)
      ensures HasLedgers(old(books), all) && HasPrices(lastPrices, all)
              && books == BookedCloses(old(books), all, lastPrices, config.costs)
    {
      hide Balanced, OpenNet, Holdings, SaneEntries, SaneEntry, Net, Indexed, AllKnown, HasLedgers, HasPrices,
        BookedCloses, BookedClose;
      KnownHaveLedgers(books, all, symbols);
      HeldHavePrices(all, lastPrices);
      NothingToClose(books, lastPrices, config.costs);
      NetEnds(all);
      for i := 0 to |all|
        invariant Indexed(symbols, books)
        invariant Balanced(books, symbols, config.initialEquity, OpenNet(all) - OpenNet(all[..i]))
        invariant HasLedgers(old(books), all[..i]) && HasPrices(lastPrices, all[..i])
        invariant books == BookedCloses(old(books), all[..i], lastPrices, config.costs)
      {
        EntryAt(all, i, symbols);
        NetStep(all, i);
        BookedCloseStep(old(books), all, i, lastPrices, config.costs);
        CloseEntry(all[i], OpenNet(all) - OpenNet(all[..i]));
      }
    }

    method CloseEntry(e: Entry, ghost openNet: real)
      requires Indexed(symbols, books) && Balanced(books, symbols, config.initialEquity, openNet)
      requires e.symbol in symbols && e.symbol in lastPrices
      modifies `books
      ensures Indexed(symbols, books) && Balanced(books, symbols, config.initialEquity, openNet - Net(e))
      ensures books == BookedClose(old(books), e, lastPrices[e.symbol], config.costs)
      ensures forall s :: s in books.ledgers && s != e.symbol ==> books.ledgers[s] == old(books).ledgers[s]
      ensures var p := Sim.Realized(e.position, lastPrices[e.symbol], e.position.remaining, config.costs);
              books.ledgers[e.symbol].pnls == old(books).ledgers[e.symbol].pnls + [Net(e.(position := p))]
    {
      hide Balanced, Sim.Realized;
      var r := e.(position := Sim.Realized(e.position, lastPrices[e.symbol], e.position.remaining, config.costs));
      var pnl, fee := r.position.realized - e.position.realized, r.position.fees - e.position.fees;
      ChargedBalances(books, symbols, config.initialEquity, openNet, e.symbol, pnl, fee, 0.0);
      books := Charged(books, e.symbol, pnl, fee, 0.0);
      RecordedBalances(books, symbols, config.initialEquity, openNet + pnl - fee - 0.0, r);
      books := Recorded(books, r);
    }

    /**
      A whole replay.  At the end of every bar cash is the initial equity plus the closed trades
      plus what is open, every limit holds, and after a halt nothing is opened or grows.  The net
      profit of a completed replay is the sum of all trade results, symbol by symbol, and is gross
      result less fees less funding, which are the sums of the ledgers.
     */
    method RunPortfolio(bars: seq<Bar>) returns (r: Option<Result>, ghost last: Desk)
      requires Valid() && Priced() && symbols != [] && trace == [] && seen == [] && !halted
      requires forall i :: 0 <= i < |bars| ==> ValidBar(bars[i])
      modifies this
      ensures SoundTrace(trace, config) && seen <= bars && |trace| == |seen|
      ensures forall i :: 0 <= i < |trace| ==> trace[i].day == bars[i].day
      ensures HaltsOnTrips(old(Memory()), trace, config.limits)
      ensures r.Some? ==> seen == bars
      ensures r.Some? ==>
                && (trace != [] ==> trace[|trace| - 1].cash == last.books.equity
                                    && trace[|trace| - 1].held == Holdings(last.entries)
                                    && trace[|trace| - 1].marked
                                       == last.books.equity + Marked(last.entries, lastPrices))
                && HasLedgers(last.books, last.entries) && HasPrices(lastPrices, last.entries)
                && books == BookedCloses(last.books, last.entries, lastPrices, config.costs)
      ensures r.Some? ==>
                exists worst :: WorstLoss(old(Memory()), trace, worst)
                                && r.value.maxDrawdown
                                   == Max(worst, LossFrom(HighMark(old(Memory()), trace, |trace|), r.value.finalEquity))
      ensures r.Some? ==>
                && r.value.finalEquity == config.initialEquity + r.value.netProfit
                && r.value.netProfit == SumOver(symbols, NetBy(books.ledgers)) == books.gross - r.value.fees - r.value.funding
                && r.value.fees == SumOver(symbols, FeesBy(books.ledgers))
                && r.value.funding == SumOver(symbols, FundingBy(books.ledgers))
                && r.value.symbols.Keys == books.ledgers.Keys
                && (forall s :: s in r.value.symbols ==>
                      && r.value.symbols[s].net == NetBy(books.ledgers)(s)
                      && r.value.symbols[s].trades == |books.ledgers[s].pnls|
                      && r.value.symbols[s].fees == FeesBy(books.ledgers)(s)
                      && r.value.symbols[s].funding == FundingBy(books.ledgers)(s))
    {
      hide WithinLimits, OpenNet, OpenRisk, SideCount, Holdings, SaneEntries, SoundTrace, ValidPending, SumOver, Total,
        HaltsOnTrips, Remembers, Trips, BookedCloses, HasLedgers, HasPrices, Marked, HighMark, DayStart, WorstLoss,
        LossFrom, ValidConfig, Indexed, ValidBar, Processed, AllTried, StepEnds, Gathered, Balanced, AllKnown;
      EmptyTrace(config);
      ghost var o := Memory();
      StartOfMemory(o, config.limits);
      for i := 0 to |bars|
        invariant Valid() && Priced() && SoundTrace(trace, config) && |trace| == i && seen == bars[..i]
        invariant trace != [] ==> trace[|trace| - 1] == Now()
        invariant trace != [] ==> lastMarked == books.equity + Marked(entries, lastPrices)
        invariant trace == [] ==> !halted
        invariant forall k :: 0 <= k < i ==> trace[k].day == bars[k].day
        invariant Remembers(o, trace, Memory()) && HaltsOnTrips(o, trace, config.limits)
      {
        ghost var before, was := Memory(), trace;
        var raised, _ := StepBar(bars[i]);
        if raised {
          return None, Here();
        }
        RemembersMore(o, was, before, Now(), Memory());
        HaltsMore(o, was, Now(), config.limits);
      }
      last := Here();
      CloseAll(entries);
      RememberedLoss(o, trace, Memory());
      var drawdown := LossFrom(peak, books.equity);
      ghost var worst := maxDrawdown;
      maxDrawdown := Max(maxDrawdown, drawdown);
      AllBooked(books, symbols, config.initialEquity);
      r := Some(Result(books.equity, books.equity - config.initialEquity, maxDrawdown, books.fees, books.funding,
                       SymbolResults(books.ledgers)));
    }
  }

  function SymbolResults(ledgers: map<string, Ledger>): map<string, SymbolResult> {
    map s | s in ledgers :: SymbolResult(Total(ledgers[s].pnls), |ledgers[s].pnls|, ledgers[s].fees, ledgers[s].funding)
  }

  ghost function MomentOf(b: Books, symbols: seq<string>, entries: seq<Entry>, halted: bool, day: int, marked: real): Moment {
    Moment(b.equity, SumOver(symbols, NetBy(b.ledgers)), OpenNet(entries), OpenRisk(entries), |entries|,
           SideCount(entries, Long), SideCount(entries, Short), halted, Holdings(entries), day, marked)
  }

  lemma MomentIsSound(b: Books, symbols: seq<string>, entries: seq<Entry>, config: Config, halted: bool, day: int,
                      marked: real)
    requires Balanced(b, symbols, config.initialEquity, OpenNet(entries))
    requires WithinLimits(entries, config.initialEquity, config.limits)
    ensures SoundMoment(MomentOf(b, symbols, entries, halted, day, marked), config)
  {
    hide SumOver, OpenNet, OpenRisk, SideCount, Holdings, Worth;
  }

  function Opens(bar: Bar): map<string, real> {
    map s | s in bar.candles :: bar.candles[s].open
  }

  function Closes(bar: Bar): map<string, real> {
    map s | s in bar.candles :: bar.candles[s].close
  }

  lemma TripsIsBreaker(
    marked: real, peak: real, dayStart: real, entries: seq<Entry>, filters: Risk.Filters, config: Config,
    correlations: map<string, real>)
    requires SaneEntries(entries) && ValidConfig(config) && Risk.ValidFilters(filters)
    ensures Trips(marked, dayStart, peak, config.limits)
            <==> Risk.BreakerTripped(ContextFor(marked, peak, dayStart, entries, filters, config, correlations))
  {
    hide MarginInUse, HeldOf, SaneEntries;
    ContextIsValid(marked, peak, dayStart, entries, filters, config, correlations);
    hide Risk.DailyLoss, Risk.Drawdown;
    Risk.BreakersMeaning(ContextFor(marked, peak, dayStart, entries, filters, config, correlations));
  }

  lemma {:induction false} KnownHaveLedgers(b: Books, entries: seq<Entry>, symbols: seq<string>)
    requires Indexed(symbols, b) && AllKnown(entries, symbols)
    ensures HasLedgers(b, entries) && HasLedgers(b, entries[..0])
  {
    forall i | 0 <= i < |entries|
      ensures entries[i].symbol in b.ledgers
    {
      HeldAt(entries, i);
    }
  }

  lemma {:induction false} HeldAt(entries: seq<Entry>, i: nat)
    requires i < |entries|
    ensures entries[i].symbol in Holdings(entries)
  {
    if i < |entries| - 1 {
      HeldAt(entries[..|entries| - 1], i);
    }
  }

  lemma HeldHavePrices(entries: seq<Entry>, prices: map<string, real>)
    requires forall s :: s in Holdings(entries) ==> s in prices
    ensures HasPrices(prices, entries) && HasPrices(prices, entries[..0])
  {
    forall i | 0 <= i < |entries|
      ensures entries[i].symbol in prices
    {
      HeldAt(entries, i);
    }
  }

  lemma NothingToClose(b: Books, prices: map<string, real>, c: Sim.Costs)
    ensures BookedCloses(b, [], prices, c) == b
  {
  }

  lemma StartOfMemory(o: Reference, l: Risk.Limits)
    ensures Remembers(o, [], o) && HaltsOnTrips(o, [], l)
  {
  }

  lemma RememberedLoss(o: Reference, trace: seq<Moment>, now: Reference)
    requires Remembers(o, trace, now)
    ensures WorstLoss(o, trace, now.drawdown) && now.peak == HighMark(o, trace, |trace|)
  {
  }

  /** With nothing open, cash is what the ledgers say. */
  lemma AllBooked(b: Books, symbols: seq<string>, initial: real)
    requires Indexed(symbols, b) && Balanced(b, symbols, initial, 0.0)
    ensures b.equity == initial + SumOver(symbols, NetBy(b.ledgers)) == initial + b.gross - b.fees - b.funding
    ensures b.fees == SumOver(symbols, FeesBy(b.ledgers)) && b.funding == SumOver(symbols, FundingBy(b.ledgers))
  {
  }

  /** Candidates without a position and not already pending join the queue. */
  function Gathered(before: seq<Pending>, candidates: seq<Pending>, entries: seq<Entry>): seq<Pending> {
    if candidates == [] then before
    else
      var front, last := Gathered(before, candidates[..|candidates| - 1], entries), candidates[|candidates| - 1];
      if Free(entries, last.signal.symbol) && !Queued(front, last.signal.symbol) then front + [last] else front
  }

  /** Candidate `k` is the first one of its symbol. */
  predicate FirstOfSymbol(candidates: seq<Pending>, k: nat)
    requires k < |candidates|
  {
    forall n :: 0 <= n < k ==> candidates[n].signal.symbol != candidates[k].signal.symbol
  }

  /** Every symbol without a position and not pending is queued with its first candidate, and nothing else is. */
  lemma {:induction false} GatheredMeaning(before: seq<Pending>, candidates: seq<Pending>, entries: seq<Entry>)
    ensures var after := Gathered(before, candidates, entries);
            && before <= after
            && (forall i :: |before| <= i < |after| ==> after[i] in candidates)
            && (forall i, j :: |before| <= i < |after| && 0 <= j < i ==> after[j].signal.symbol != after[i].signal.symbol)
            && (forall x :: Queued(after, x) <==> Queued(before, x) || (Free(entries, x) && Queued(candidates, x)))
  {
    if candidates != [] {
      var some, last := candidates[..|candidates| - 1], candidates[|candidates| - 1];
      GatheredMeaning(before, some, entries);
      assert candidates == some + [last];
      var after := Gathered(before, some, entries);
      QueuedLater(some, last);
      QueuedLater(after, last);
      assert forall j :: 0 <= j < |after| && after[j].signal.symbol == last.signal.symbol ==> Queued(after, last.signal.symbol);
      hide Queued, Free;
    }
  }

  /** A symbol's first candidate is the one that is queued for it. */
  lemma {:induction false} FirstIsGathered(before: seq<Pending>, candidates: seq<Pending>, entries: seq<Entry>, k: nat)
    requires k < |candidates| && FirstOfSymbol(candidates, k)
    requires Free(entries, candidates[k].signal.symbol) && !Queued(before, candidates[k].signal.symbol)
    ensures candidates[k] in Gathered(before, candidates, entries)
  {
    var some := candidates[..|candidates| - 1];
    GatheredMeaning(before, some, entries);
    if k < |candidates| - 1 {
      FirstIsGathered(before, some, entries, k);
    }
  }

  lemma EmptyTrace(config: Config)
    ensures SoundTrace([], config)
  {
  }

  lemma NetEnds(all: seq<Entry>)
    ensures OpenNet(all[..0]) == 0.0 && all[..|all|] == all
    ensures all == [] ==> OpenNet(all) == 0.0
    ensures Reduced(all[..0], [])
  {
  }

  lemma {:induction false} EntryAt(entries: seq<Entry>, i: nat, symbols: seq<string>)
    requires SaneEntries(entries) && AllKnown(entries, symbols) && i < |entries|
    ensures SaneEntry(entries[i]) && entries[i].symbol in Holdings(entries) && entries[i].symbol in symbols
    ensures SaneEntries(entries[..i] + [entries[i]])
  {
    if i < |entries| - 1 {
      EntryAt(entries[..|entries| - 1], i, symbols);
      assert entries[..|entries| - 1][..i] == entries[..i];
    } else {
      assert entries[..i] + [entries[i]] == entries;
    }
  }

  lemma NetStep(all: seq<Entry>, i: nat)
    requires i < |all|
    ensures OpenNet(all[..i + 1]) == OpenNet(all[..i]) + Net(all[i])
  {
    assert all[..i + 1] == all[..i] + [all[i]];
    Appended(all[..i], all[i]);
  }

  lemma ReducedStep(all: seq<Entry>, i: nat, kept: seq<Entry>, left: Option<Entry>)
    requires i < |all| && Reduced(all[..i], kept) && SaneEntries(all[..i] + [all[i]])
    requires left.Some? ==>
               && SaneEntry(left.value) && left.value.symbol == all[i].symbol && left.value.initialRisk == all[i].initialRisk
               && left.value.position.side == all[i].position.side
               && left.value.position.remaining <= all[i].position.remaining
    ensures var more := if left.Some? then kept + [left.value] else kept;
            && Reduced(all[..i + 1], more)
            && OpenNet(more) == OpenNet(kept) + if left.Some? then Net(left.value) else 0.0
  {
    hide Reduced, OpenNet, OpenRisk, SideCount, Holdings, SaneEntries, SaneEntry, Net;
    assert all[..i + 1] == all[..i] + [all[i]];
    if left.Some? {
      ReducedByKeeping(all[..i], kept, all[i], left.value);
      Appended(kept, left.value);
    } else {
      ReducedByClosing(all[..i], kept, all[i]);
    }
  }

  lemma ReducedKeepsLimits(entries: seq<Entry>, kept: seq<Entry>, config: Config)
    requires Reduced(entries, kept) && WithinLimits(entries, config.initialEquity, config.limits)
    ensures WithinLimits(kept, config.initialEquity, config.limits)
  {
    hide OpenRisk, SideCount, Holdings, SaneEntries, Worth;
  }

  /** No open position has this symbol. */
  predicate Free(entries: seq<Entry>, symbol: string) {
    forall j :: 0 <= j < |entries| ==> entries[j].symbol != symbol
  }

  predicate Queued(pending: seq<Pending>, symbol: string) {
    exists i :: 0 <= i < |pending| && pending[i].signal.symbol == symbol
  }

  lemma QueuedLater(pending: seq<Pending>, item: Pending)
    ensures forall x :: Queued(pending + [item], x) <==> Queued(pending, x) || x == item.signal.symbol
  {
    var more := pending + [item];
    assert more[|pending|] == item;
    forall x | Queued(pending, x)
      ensures Queued(more, x)
    {
      var i :| 0 <= i < |pending| && pending[i].signal.symbol == x;
      assert more[i] == pending[i];
    }
  }

  /** The items of one score, in their order. */
  function OfScore(ps: seq<Pending>, score: real): seq<Pending> {
    if ps == [] then []
    else
      var front, last := OfScore(ps[..|ps| - 1], score), ps[|ps| - 1];
      if last.score == score then front + [last] else front
  }

  lemma OfScoreAppended(ps: seq<Pending>, item: Pending, score: real)
    ensures OfScore(ps + [item], score) == if item.score == score then OfScore(ps, score) + [item] else OfScore(ps, score)
  {
    assert (ps + [item])[..|ps|] == ps;
  }

  /** An inserted item comes behind the ones of its score, and no others change places. */
  lemma {:induction false} InsertedStable(ps: seq<Pending>, item: Pending, score: real)
    requires Falling(ps)
    ensures OfScore(Inserted(ps, item), score) ==
            if item.score == score then OfScore(ps, score) + [item] else OfScore(ps, score)
  {
    if ps == [] || ps[|ps| - 1].score >= item.score {
      OfScoreAppended(ps, item, score);
    } else {
      var front, last := ps[..|ps| - 1], ps[|ps| - 1];
      InsertedStable(front, item, score);
      OfScoreAppended(Inserted(front, item), last, score);
    }
  }

  /** The two lists have the items of every score in the same order. */
  ghost predicate SameByScore(a: seq<Pending>, b: seq<Pending>) {
    forall score :: OfScore(a, score) == OfScore(b, score)
  }

  lemma InsertedSame(r: seq<Pending>, ps: seq<Pending>, item: Pending)
    requires Falling(r) && SameByScore(r, ps)
    ensures SameByScore(Inserted(r, item), ps + [item])
  {
    hide Inserted, OfScore;
    forall score
      ensures OfScore(Inserted(r, item), score) == OfScore(ps + [item], score)
    {
      InsertedStable(r, item, score);
      OfScoreAppended(ps, item, score);
    }
  }

  predicate Falling(ps: seq<Pending>) {
    forall i :: 0 < i < |ps| ==> ps[i - 1].score >= ps[i].score
  }

  /** Behind everything that scores at least as much. */
  function Inserted(ps: seq<Pending>, item: Pending): (r: seq<Pending>)
    ensures multiset(r) == multiset(ps) + multiset{item}
    ensures r != [] && (r[|r| - 1] == item || (ps != [] && r[|r| - 1] == ps[|ps| - 1]))
  {
    if ps == [] || ps[|ps| - 1].score >= item.score then ps + [item]
    else
      assert ps == ps[..|ps| - 1] + [ps[|ps| - 1]];
      Inserted(ps[..|ps| - 1], item) + [ps[|ps| - 1]]
  }

  lemma {:induction false} InsertedFalls(ps: seq<Pending>, item: Pending)
    requires Falling(ps)
    ensures Falling(Inserted(ps, item))
  {
    if ps != [] && ps[|ps| - 1].score < item.score {
      InsertedFalls(ps[..|ps| - 1], item);
    }
  }

  /** Sorted by falling score; nothing is added or lost, and equal scores stay in their order. */
  method ByFallingScore(ps: seq<Pending>, ghost symbols: seq<string>) returns (r: seq<Pending>)
    requires AllValid(ps, symbols)
    ensures multiset(r) == multiset(ps) && Falling(r)
    ensures SameByScore(r, ps)
    ensures AllValid(r, symbols)
  {
    assert Falling([]) && SameByScore([], []);
    hide ValidPending, Falling, Inserted, SameByScore;
    r := [];
    for k := 0 to |ps|
      invariant multiset(r) == multiset(ps[..k]) && Falling(r)
      invariant SameByScore(r, ps[..k])
    {
      InsertedSame(r, ps[..k], ps[k]);
      assert ps[..k + 1] == ps[..k] + [ps[k]];
      InsertedFalls(r, ps[k]);
      r := Inserted(r, ps[k]);
    }
    assert ps[..|ps|] == ps;
    forall i | 0 <= i < |r|
      ensures ValidPending(r[i], symbols)
    {
      assert r[i] in multiset(ps);
    }
  }

  lemma SaneContext(
    item: Pending, marked: real, peak: real, dayStart: real, entries: seq<Entry>, filters: Risk.Filters, config: Config,
    correlations: map<string, real>, symbols: seq<string>)
    requires ValidPending(item, symbols) && SaneEntries(entries) && ValidConfig(config) && Risk.ValidFilters(filters)
    ensures var c := ContextFor(marked, peak, dayStart, entries, filters, config, correlations);
            && Risk.Sane(item.signal, item.snapshot, c)
            && c.positions == HeldOf(entries) && c.limits == config.limits && c.filters == filters
  {
    hide Risk.ValidContext, MarginInUse, HeldOf;
    ContextIsValid(marked, peak, dayStart, entries, filters, config, correlations);
  }

  lemma EmptyLedgers(symbols: seq<string>, ledgers: map<string, Ledger>)
    requires forall s :: s in symbols ==> s in ledgers && ledgers[s] == EMPTY_LEDGER
    ensures SumOver(symbols, NetBy(ledgers)) == 0.0
    ensures SumOver(symbols, FeesBy(ledgers)) == 0.0 && SumOver(symbols, FundingBy(ledgers)) == 0.0
  {
    var zero := (s: string) => 0.0;
    SumOfZero(symbols, zero);
    SumSame(symbols, NetBy(ledgers), zero);
    SumSame(symbols, FeesBy(ledgers), zero);
    SumSame(symbols, FundingBy(ledgers), zero);
  }

  lemma {:induction false} SumOfZero(symbols: seq<string>, zero: string -> real)
    requires forall s :: zero(s) == 0.0
    ensures SumOver(symbols, zero) == 0.0
  {
    if symbols != [] {
      SumOfZero(symbols[..|symbols| - 1], zero);
    }
  }

  lemma NothingOpen(config: Config)
    requires ValidConfig(config)
    ensures WithinLimits([], config.initialEquity, config.limits)
  {
    MulMono(0.0, config.initialEquity, config.limits.portfolioRiskPct);
  }
}
