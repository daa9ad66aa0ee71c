/**
  The risk gate: the reasons an entry is refused, the size an accepted one gets, and the
  execution intent made from it.
 */
module RiskEngine {
  import opened Common
  import opened ExitPolicy

  datatype SystemMode = Testnet | LiveLocked | LiveEnabled | Paused | RiskHalted | ReconciliationRequired

  datatype SignalAction = OpenLong | OpenShort | NoTrade

  /** Entry band, stop and final target; an open signal always has them. */
  datatype Terms = Terms(entryMin: real, entryMax: real, stop: real, target: real)

  datatype Signal = Signal(
    symbol: string, action: SignalAction, confidence: real, terms: Option<Terms>,
    horizonMinutes: int, modelDisabled: bool, expiresAt: int)

  datatype Snapshot = Snapshot(
    symbol: string, timestamp: int, bestBid: real, bestAsk: real, fundingRate: real, atr: real, adx: real,
    trend1h: int, trend4h: int, breakout: int, pullback: int, trending: bool,
    volatilityMultiplier: real, factorMultiplier: Option<real>)

  datatype Account = Account(equity: real, dayStartEquity: real, highWaterMark: real, marginUsed: real)

  datatype Held = Held(symbol: string, side: PositionSide, initialRisk: real)

  datatype Filters = Filters(tick: real, step: real, minQuantity: real, minNotional: real, maxQuantity: Option<real>)

  datatype Direction = Both | LongOnly | ShortOnly

  datatype Trigger = BreakoutOrPullback | BreakoutOnly | PullbackOnly

  datatype Limits = Limits(
    capitalLimit: real, tradeRiskPct: real, portfolioRiskPct: real, dailyLossPct: real, maxDrawdownPct: real,
    maxLeverage: int, maxMarginPct: real, maxPositions: int, maxSameDirection: int, correlationLimit: real,
    minStopAtr: real, maxStopAtr: real, modelPrimary: bool, ruleBased: bool, strongTrendOverride: bool,
    strongTrendAdx: real, minConfidence: real, minNetRewardRisk: real, direction: Direction, trigger: Trigger,
    trendAdx: real)

  datatype Context = Context(
    mode: SystemMode, account: Account, positions: seq<Held>, filters: Filters, limits: Limits,
    correlations: map<string, real>, feeRate: real, slippageRate: real)

  datatype Reason =
    | DailyLossLimit | MaxDrawdown | ModeDisallowsEntries | ModelReturnedNoTrade | DirectionNotAllowed
    | SignalExpired | SymbolMismatch | LowConfidence | NotTrending | WeakTrend | TrendNotAligned | NoTrigger
    | InvalidVolatility | PositionCount | SameDirectionLimit | ExistingSymbol
    | CorrelationMissing(symbol: string) | Correlated(symbol: string)
    | AtrInvalid | StopTooClose | StopTooFar
    | RewardBelowMinimum | CapacityExhausted | QuantityBelowMinimum | NotionalBelowMinimum | RoundedStopInvalid

  datatype Decision =
    | Rejected(reasons: seq<Reason>)
    | Approved(capitalBase: real, risk: real, quantity: real, entry: real, stop: real, target: real,
               leverage: int, margin: real)

  // ----- What the domain models guarantee of their values -----

  function SideOf(action: SignalAction): PositionSide {
    if action.OpenLong? then Long else Short
  }

  predicate ValidSignal(s: Signal) {
    && s.horizonMinutes >= 15
    && (s.terms.Some? ==>
          var t := s.terms.value;
          t.entryMin > 0.0 && t.entryMax > 0.0 && t.stop > 0.0 && t.target > 0.0)
    && (!s.action.NoTrade? ==>
          && s.terms.Some?
          && var t := s.terms.value;
             var mid := (t.entryMin + t.entryMax) / 2.0;
             t.entryMin <= t.entryMax && Tighter(SideOf(s.action), mid, t.stop) && Tighter(SideOf(s.action), t.target, mid))
  }

  predicate ValidSnapshot(m: Snapshot) {
    && m.bestBid > 0.0 && m.bestAsk > 0.0 && m.atr > 0.0 && m.volatilityMultiplier > 0.0
    && (m.factorMultiplier.Some? ==> 0.0 < m.factorMultiplier.value <= 1.0)
  }

  predicate ValidFilters(f: Filters) {
    && f.tick > 0.0 && f.step > 0.0 && f.minQuantity > 0.0 && f.minNotional > 0.0
    && (f.maxQuantity.Some? ==> f.maxQuantity.value > 0.0)
  }

  predicate ValidLimits(l: Limits) {
    && l.capitalLimit > 0.0 && l.tradeRiskPct > 0.0 && l.portfolioRiskPct > 0.0 && l.dailyLossPct > 0.0
    && l.maxDrawdownPct > 0.0 && l.maxLeverage >= 1 && l.maxMarginPct > 0.0 && l.maxPositions >= 1
    && l.maxSameDirection >= 1 && 0.0 < l.minStopAtr <= l.maxStopAtr && l.minNetRewardRisk > 0.0
  }

  predicate ValidContext(c: Context) {
    && ValidFilters(c.filters) && ValidLimits(c.limits)
    && c.account.equity > 0.0 && c.account.dayStartEquity > 0.0 && c.account.highWaterMark > 0.0
    && c.account.marginUsed >= 0.0 && c.feeRate >= 0.0 && c.slippageRate >= 0.0
    && forall i :: 0 <= i < |c.positions| ==> c.positions[i].initialRisk > 0.0
  }

  // ----- Prices -----

  function MidPrice(m: Snapshot): real {
    (m.bestBid + m.bestAsk) / 2.0
  }

  /** The market's mid price if the band contains it, otherwise the middle of the band. */
  function EntryPrice(s: Signal, m: Snapshot): (r: real)
    ensures s.terms.Some? && s.terms.value.entryMin <= s.terms.value.entryMax ==>
              s.terms.value.entryMin <= r <= s.terms.value.entryMax
  {
    if s.terms.None? then MidPrice(m)
    else
      var t := s.terms.value;
      if t.entryMin <= MidPrice(m) <= t.entryMax then Min(Max(MidPrice(m), t.entryMin), t.entryMax)
      else (t.entryMin + t.entryMax) / 2.0
  }

  // ----- Circuit breakers -----

  function DailyLoss(a: Account): real
    requires a.dayStartEquity > 0.0
  {
    if a.equity >= a.dayStartEquity then 0.0 else (a.dayStartEquity - a.equity) / a.dayStartEquity
  }

  function Drawdown(a: Account): real
    requires a.highWaterMark > 0.0
  {
    if a.equity >= a.highWaterMark then 0.0 else (a.highWaterMark - a.equity) / a.highWaterMark
  }

  predicate BreakerTripped(c: Context)
    requires c.account.dayStartEquity > 0.0 && c.account.highWaterMark > 0.0
  {
    DailyLoss(c.account) >= c.limits.dailyLossPct || Drawdown(c.account) >= c.limits.maxDrawdownPct
  }

  // ----- The gates of an entry -----

  function Sign(action: SignalAction): int {
    if action.OpenLong? then 1 else -1
  }

  predicate StrongUptrend(s: Signal, m: Snapshot, l: Limits) {
    && s.action.OpenLong? && l.strongTrendOverride && m.trending
    && m.trend1h == 1 && m.trend4h == 1 && m.adx >= l.strongTrendAdx
  }

  predicate LocalContinuation(s: Signal, m: Snapshot, l: Limits) {
    && l.ruleBased && s.modelDisabled && !s.action.NoTrade? && m.trending
    && m.trend1h == m.trend4h == Sign(s.action) && m.adx >= l.trendAdx
  }

  predicate TriggerMatches(s: Signal, m: Snapshot, l: Limits) {
    match l.trigger
    case BreakoutOnly => m.breakout == Sign(s.action)
    case PullbackOnly => m.pullback == Sign(s.action)
    case BreakoutOrPullback => m.breakout == Sign(s.action) || m.pullback == Sign(s.action)
  }

  function CountSide(positions: seq<Held>, side: PositionSide): nat {
    if positions == [] then 0
    else CountSide(positions[..|positions| - 1], side) + (if positions[|positions| - 1].side == side then 1 else 0)
  }

  predicate Uncorrelated(p: Held, c: Context) {
    p.symbol in c.correlations && Abs(c.correlations[p.symbol]) <= c.limits.correlationLimit
  }

  /** `i` is the first position whose correlation is unknown or too high; later ones are not looked at. */
  predicate FirstCorrelated(c: Context, i: nat) {
    i < |c.positions| && !Uncorrelated(c.positions[i], c) && forall j :: 0 <= j < i ==> Uncorrelated(c.positions[j], c)
  }

  function StopAtr(s: Signal, m: Snapshot): real
    requires s.terms.Some? && m.atr > 0.0
  {
    Abs(EntryPrice(s, m) - s.terms.value.stop) / m.atr
  }

  /** When each reason applies. */
  ghost predicate Applies(r: Reason, s: Signal, m: Snapshot, c: Context)
    requires ValidContext(c)
  {
    var l := c.limits;
    match r
    case DailyLossLimit => DailyLoss(c.account) >= l.dailyLossPct
    case MaxDrawdown => Drawdown(c.account) >= l.maxDrawdownPct
    case ModeDisallowsEntries => !c.mode.Testnet? && !c.mode.LiveEnabled?
    case ModelReturnedNoTrade => s.action.NoTrade?
    case DirectionNotAllowed =>
      (l.direction.LongOnly? && s.action.OpenShort?) || (l.direction.ShortOnly? && s.action.OpenLong?)
    case SignalExpired => s.expiresAt <= m.timestamp
    case SymbolMismatch => s.symbol != m.symbol
    case LowConfidence => !l.modelPrimary && s.confidence < l.minConfidence && !StrongUptrend(s, m, l)
    case NotTrending => !l.modelPrimary && !m.trending
    case WeakTrend => !l.modelPrimary && m.adx < l.trendAdx
    case TrendNotAligned => !l.modelPrimary && !(m.trend1h == m.trend4h == Sign(s.action))
    case NoTrigger =>
      !l.modelPrimary && !TriggerMatches(s, m, l) && !StrongUptrend(s, m, l) && !LocalContinuation(s, m, l)
    case InvalidVolatility => m.volatilityMultiplier <= 0.0
    case PositionCount => |c.positions| >= l.maxPositions
    case SameDirectionLimit => CountSide(c.positions, SideOf(s.action)) >= l.maxSameDirection
    case ExistingSymbol => exists i :: 0 <= i < |c.positions| && c.positions[i].symbol == s.symbol
    case CorrelationMissing(x) =>
      exists i: nat :: FirstCorrelated(c, i) && c.positions[i].symbol == x && x !in c.correlations
    case Correlated(x) =>
      exists i: nat :: FirstCorrelated(c, i) && c.positions[i].symbol == x && x in c.correlations
    case AtrInvalid => s.terms.Some? && m.atr <= 0.0
    case StopTooClose => s.terms.Some? && m.atr > 0.0 && StopAtr(s, m) < l.minStopAtr
    case StopTooFar => s.terms.Some? && m.atr > 0.0 && StopAtr(s, m) > l.maxStopAtr
    case _ => false
  }

  predicate AccountReason(r: Reason) {
    || r.DailyLossLimit? || r.MaxDrawdown? || r.ModeDisallowsEntries? || r.ModelReturnedNoTrade?
    || r.DirectionNotAllowed? || r.SignalExpired? || r.SymbolMismatch?
  }

  predicate StrategyReason(r: Reason) {
    r.LowConfidence? || r.NotTrending? || r.WeakTrend? || r.TrendNotAligned? || r.NoTrigger? || r.InvalidVolatility?
  }

  predicate PortfolioReason(r: Reason) {
    r.PositionCount? || r.SameDirectionLimit? || r.ExistingSymbol? || r.CorrelationMissing? || r.Correlated?
  }

  predicate StopReason(r: Reason) {
    r.AtrInvalid? || r.StopTooClose? || r.StopTooFar?
  }

  function Noted(reasons: seq<Reason>, applies: bool, r: Reason): (rs: seq<Reason>)
    ensures forall x :: x in rs <==> x in reasons || (applies && x == r)
  {
    if applies then reasons + [r] else reasons
  }

  method CheckCircuitBreakers(c: Context) returns (reasons: seq<Reason>)
    requires ValidContext(c)
    ensures reasons == [] <==> !BreakerTripped(c)
    ensures forall r :: r in reasons <==>
                          || (r == DailyLossLimit && DailyLoss(c.account) >= c.limits.dailyLossPct)
                          || (r == MaxDrawdown && Drawdown(c.account) >= c.limits.maxDrawdownPct)
  {
    hide DailyLoss, Drawdown;
    reasons := [];
    if DailyLoss(c.account) >= c.limits.dailyLossPct {
      reasons := reasons + [DailyLossLimit];
    }
    if Drawdown(c.account) >= c.limits.maxDrawdownPct {
      reasons := reasons + [MaxDrawdown];
    }
  }

  method AccountGates(s: Signal, m: Snapshot, c: Context) returns (reasons: seq<Reason>)
    requires ValidContext(c)
    ensures forall r :: r in reasons <==> AccountReason(r) && Applies(r, s, m, c)
  {
    hide DailyLoss, Drawdown, StopAtr, CountSide, FirstCorrelated, StrongUptrend, LocalContinuation,
      TriggerMatches, SideOf, Sign, Noted;
    var l := c.limits;
    reasons := CheckCircuitBreakers(c);
    reasons := Noted(reasons, !c.mode.Testnet? && !c.mode.LiveEnabled?, ModeDisallowsEntries);
    reasons := Noted(reasons, s.action.NoTrade?, ModelReturnedNoTrade);
    reasons := Noted(reasons, (l.direction.LongOnly? && s.action.OpenShort?) || (l.direction.ShortOnly? && s.action.OpenLong?),
                     DirectionNotAllowed);
    reasons := Noted(reasons, s.expiresAt <= m.timestamp, SignalExpired);
    reasons := Noted(reasons, s.symbol != m.symbol, SymbolMismatch);
  }

  method StrategyGates(s: Signal, m: Snapshot, c: Context) returns (reasons: seq<Reason>)
    requires ValidContext(c)
    ensures forall r :: r in reasons <==> StrategyReason(r) && Applies(r, s, m, c)
  {
    hide DailyLoss, Drawdown, StopAtr, CountSide, FirstCorrelated, StrongUptrend, LocalContinuation,
      TriggerMatches, SideOf, Sign, Noted;
    reasons := [];
    var l, strong := c.limits, StrongUptrend(s, m, c.limits);
    if !l.modelPrimary {
      reasons := Noted(reasons, s.confidence < l.minConfidence && !strong, LowConfidence);
      reasons := Noted(reasons, !m.trending, NotTrending);
      reasons := Noted(reasons, m.adx < l.trendAdx, WeakTrend);
      reasons := Noted(reasons, m.trend1h != Sign(s.action) || m.trend4h != Sign(s.action), TrendNotAligned);
      reasons := Noted(reasons, !TriggerMatches(s, m, l) && !strong && !LocalContinuation(s, m, l), NoTrigger);
    }
    reasons := Noted(reasons, m.volatilityMultiplier <= 0.0, InvalidVolatility);
  }

  method SameSide(positions: seq<Held>, side: PositionSide) returns (count: nat)
    ensures count == CountSide(positions, side)
  {
    count := 0;
    for i := 0 to |positions|
      invariant count == CountSide(positions[..i], side)
    {
      assert positions[..i + 1][..i] == positions[..i];
      if positions[i].side == side {
        count := count + 1;
      }
    }
    assert positions[..|positions|] == positions;
  }

  method CorrelationGate(c: Context) returns (reasons: seq<Reason>)
    ensures if forall j :: 0 <= j < |c.positions| ==> Uncorrelated(c.positions[j], c) then reasons == []
            else exists i: nat :: FirstCorrelated(c, i) &&
                           var x := c.positions[i].symbol;
                           reasons == [if x in c.correlations then Correlated(x) else CorrelationMissing(x)]
  {
    for i := 0 to |c.positions|
      invariant forall j :: 0 <= j < i ==> Uncorrelated(c.positions[j], c)
    {
      var x := c.positions[i].symbol;
      if x !in c.correlations {
        assert FirstCorrelated(c, i);
        return [CorrelationMissing(x)];
      }
      if Abs(c.correlations[x]) > c.limits.correlationLimit {
        assert FirstCorrelated(c, i);
        return [Correlated(x)];
      }
    }
    return [];
  }

  lemma FirstCorrelatedUnique(c: Context, i: nat, j: nat)
    requires FirstCorrelated(c, i) && FirstCorrelated(c, j)
    ensures i == j
  {
  }

  method PortfolioGates(s: Signal, m: Snapshot, c: Context) returns (reasons: seq<Reason>)
    requires ValidContext(c)
    ensures forall r :: r in reasons <==> PortfolioReason(r) && Applies(r, s, m, c)
  {
    hide DailyLoss, Drawdown, StopAtr, CountSide, Uncorrelated, StrongUptrend, LocalContinuation, TriggerMatches,
      SideOf, Sign, Noted;
    var l := c.limits;
    var same := SameSide(c.positions, SideOf(s.action));
    var correlated := CorrelationGate(c);
    reasons := Noted([], |c.positions| >= l.maxPositions, PositionCount);
    reasons := Noted(reasons, same >= l.maxSameDirection, SameDirectionLimit);
    reasons := Noted(reasons, exists i :: 0 <= i < |c.positions| && c.positions[i].symbol == s.symbol, ExistingSymbol);
    forall r: Reason | r.CorrelationMissing? || r.Correlated?
      ensures r in correlated <==> Applies(r, s, m, c)
    {
      forall i: nat, j: nat | FirstCorrelated(c, i) && FirstCorrelated(c, j)
        ensures i == j
      {
        FirstCorrelatedUnique(c, i, j);
      }
    }
    reasons := reasons + correlated;
  }

  method StopGates(s: Signal, m: Snapshot, c: Context) returns (reasons: seq<Reason>)
    requires ValidContext(c)
    ensures forall r :: r in reasons <==> StopReason(r) && Applies(r, s, m, c)
  {
    hide EntryPrice, Noted;
    reasons := [];
    if s.terms.Some? {
      if m.atr <= 0.0 {
        return [AtrInvalid];
      }
      var stopAtr := Abs(EntryPrice(s, m) - s.terms.value.stop) / m.atr;
      reasons := Noted([], stopAtr < c.limits.minStopAtr, StopTooClose);
      reasons := Noted(reasons, stopAtr > c.limits.maxStopAtr, StopTooFar);
    }
  }

  /** Every reason that applies is listed, and no other. */
  method Preflight(s: Signal, m: Snapshot, c: Context) returns (reasons: seq<Reason>)
    requires ValidContext(c)
    ensures forall r :: r in reasons <==> Applies(r, s, m, c)
  {
    var account := AccountGates(s, m, c);
    var strategy := StrategyGates(s, m, c);
    var portfolio := PortfolioGates(s, m, c);
    var stops := StopGates(s, m, c);
    reasons := account + strategy + portfolio + stops;
    forall r: Reason
      ensures r in reasons <==> Applies(r, s, m, c)
    {
      assert r in reasons <==> r in account || r in strategy || r in portfolio || r in stops;
      ReasonsGrouped(r, s, m, c);
    }
  }

  lemma ReasonsGrouped(r: Reason, s: Signal, m: Snapshot, c: Context)
    requires ValidContext(c)
    ensures Applies(r, s, m, c) ==> AccountReason(r) || StrategyReason(r) || PortfolioReason(r) || StopReason(r)
  {
  }

  // ----- Sizing -----

  function CapitalBase(c: Context): real {
    Min(c.account.equity, c.limits.capitalLimit)
  }

  function InitialRisk(positions: seq<Held>): real {
    if positions == [] then 0.0 else InitialRisk(positions[..|positions| - 1]) + positions[|positions| - 1].initialRisk
  }

  function RiskMultiplier(m: Snapshot): real {
    Worth(m.volatilityMultiplier, if m.factorMultiplier.Some? then Min(m.factorMultiplier.value, 1.0) else 1.0)
  }

  function TradeRiskCap(m: Snapshot, c: Context): real {
    Worth(Worth(CapitalBase(c), c.limits.tradeRiskPct), RiskMultiplier(m))
  }

  function PortfolioRiskCap(c: Context): real {
    Worth(CapitalBase(c), c.limits.portfolioRiskPct)
  }

  /** What this entry may risk: its own share, and no more than the portfolio has left. */
  function Budget(m: Snapshot, c: Context): real {
    Min(TradeRiskCap(m, c), Max(0.0, PortfolioRiskCap(c) - InitialRisk(c.positions)))
  }

  function MarginCap(c: Context): real {
    Worth(CapitalBase(c), c.limits.maxMarginPct)
  }

  /** Notional the free margin allows. */
  function NotionalRoom(c: Context): real {
    Worth(Max(0.0, MarginCap(c) - c.account.marginUsed), c.limits.maxLeverage as real)
  }

  function RoundedEntry(s: Signal, m: Snapshot, c: Context): real
    requires c.filters.tick > 0.0
  {
    HalfUpTo(EntryPrice(s, m), c.filters.tick)
  }

  /** Stops are rounded away from the entry ... */
  function RoundedStop(s: Signal, c: Context): real
    requires s.terms.Some? && c.filters.tick > 0.0
  {
    if s.action.OpenLong? then FloorTo(s.terms.value.stop, c.filters.tick) else CeilTo(s.terms.value.stop, c.filters.tick)
  }

  /** ... and so are targets. */
  function RoundedTarget(s: Signal, c: Context): real
    requires s.terms.Some? && c.filters.tick > 0.0
  {
    if s.action.OpenLong? then CeilTo(s.terms.value.target, c.filters.tick) else FloorTo(s.terms.value.target, c.filters.tick)
  }

  /** The largest step multiple worth no more than a notional at a price. */
  function RoundedQuantity(notional: real, price: real, step: real): (r: real)
    requires price > 0.0 && step > 0.0
    ensures OnGrid(r, step)
  {
    FloorTo(Units(notional, price), step)
  }

  lemma RoundedQuantityIsLargest(notional: real, price: real, step: real, q: real)
    requires price > 0.0 && step > 0.0
    ensures q <= RoundedQuantity(notional, price, step) ==> Worth(q, price) <= notional
    ensures OnGrid(q, step) && q > RoundedQuantity(notional, price, step) ==> Worth(q, price) > notional
  {
    hide Worth, Units, FloorTo, OnGrid;
    var units := Units(notional, price);
    WorthOfUnits(notional, price);
    WorthOrdered(q, units, price);
    WorthOrdered(units, q, price);
    if OnGrid(q, step) && RoundedQuantity(notional, price, step) < q <= units {
      GridGap(RoundedQuantity(notional, price, step), q, step);
    }
  }

  function WithMaximum(quantity: real, f: Filters): real {
    if f.maxQuantity.Some? then Min(quantity, f.maxQuantity.value) else quantity
  }

  /** A quantity within every limit on size, before (and for the stop distance also after) rounding of prices. */
  ghost predicate Fits(q: real, budget: real, room: real, entry: real, distance: real, roundedDistance: real, f: Filters) {
    && Worth(q, distance) <= budget && Worth(q, roundedDistance) <= budget && Worth(q, entry) <= room
    && (f.maxQuantity.Some? ==> q <= f.maxQuantity.value)
  }

  function FirstSize(budget: real, room: real, entry: real, distance: real, f: Filters): real
    requires entry > 0.0 && distance > 0.0 && f.step > 0.0
  {
    WithMaximum(Min(RoundedQuantity(budget, distance, f.step), RoundedQuantity(room, entry, f.step)), f)
  }

  function FinalSize(first: real, budget: real, roundedDistance: real, f: Filters): real
    requires roundedDistance > 0.0 && f.step > 0.0
  {
    WithMaximum(Min(first, RoundedQuantity(budget, roundedDistance, f.step)), f)
  }

  lemma FirstSizeIsLargest(budget: real, room: real, entry: real, distance: real, roundedDistance: real, f: Filters, q: real)
    requires entry > 0.0 && distance > 0.0 && f.step > 0.0
    requires OnGrid(q, f.step) && q > FirstSize(budget, room, entry, distance, f)
    ensures !Fits(q, budget, room, entry, distance, roundedDistance, f)
  {
    hide Worth, RoundedQuantity, OnGrid;
    RoundedQuantityIsLargest(budget, distance, f.step, q);
    RoundedQuantityIsLargest(room, entry, f.step, q);
  }

  /** The size fits, and no larger step multiple does. */
  lemma FinalSizeIsLargest(budget: real, room: real, entry: real, distance: real, roundedDistance: real, f: Filters, q: real)
    requires entry > 0.0 && distance > 0.0 && roundedDistance > 0.0 && f.step > 0.0
    ensures var size := FinalSize(FirstSize(budget, room, entry, distance, f), budget, roundedDistance, f);
            && Fits(size, budget, room, entry, distance, roundedDistance, f)
            && (OnGrid(q, f.step) && q > size ==> !Fits(q, budget, room, entry, distance, roundedDistance, f))
            && (f.maxQuantity.None? || OnGrid(f.maxQuantity.value, f.step) ==> OnGrid(size, f.step))
  {
    hide Worth, RoundedQuantity, OnGrid;
    var size := FinalSize(FirstSize(budget, room, entry, distance, f), budget, roundedDistance, f);
    RoundedQuantityIsLargest(budget, distance, f.step, size);
    RoundedQuantityIsLargest(room, entry, f.step, size);
    RoundedQuantityIsLargest(budget, roundedDistance, f.step, size);
    RoundedQuantityIsLargest(budget, distance, f.step, q);
    RoundedQuantityIsLargest(room, entry, f.step, q);
    RoundedQuantityIsLargest(budget, roundedDistance, f.step, q);
  }

  // ----- Reward against risk -----

  function RoundTripCost(s: Signal, m: Snapshot, c: Context): real {
    Worth(EntryPrice(s, m), c.feeRate * 2.0 + c.slippageRate)
    + Worth(Worth(EntryPrice(s, m), Abs(m.fundingRate)), Max(1.0, s.horizonMinutes as real / 480.0))
  }

  function NetReward(s: Signal, m: Snapshot, c: Context): real
    requires s.terms.Some?
  {
    Max(0.0, Abs(s.terms.value.target - EntryPrice(s, m)) - RoundTripCost(s, m, c))
  }

  lemma CostNotNegative(s: Signal, m: Snapshot, c: Context)
    requires ValidContext(c) && EntryPrice(s, m) >= 0.0
    ensures RoundTripCost(s, m, c) >= 0.0
  {
    var e := EntryPrice(s, m);
    MulMono(0.0, e, c.feeRate * 2.0 + c.slippageRate);
    MulMono(0.0, e, Abs(m.fundingRate));
    MulMono(0.0, e * Abs(m.fundingRate), Max(1.0, s.horizonMinutes as real / 480.0));
  }

  lemma RatioAtLeast(n: real, d: real, least: real)
    requires d > 0.0
    ensures n / d >= least <==> n >= Worth(least, d)
  {
    var q := n / d;
    assert Worth(q, d) == n;
    WorthOrdered(least, q, d);
    WorthOrdered(q, least, d);
  }

  // ----- Margin -----

  function Margin(quantity: real, entry: real, leverage: int): real
    requires leverage >= 1
  {
    Worth(quantity, entry) / leverage as real
  }

  /** Rounding the entry may add half a tick per unit, and nothing more. */
  lemma MarginWithinCap(quantity: real, entry: real, rounded: real, tick: real, available: real, leverage: int)
    requires quantity > 0.0 && leverage >= 1 && rounded <= entry + tick / 2.0
    requires Worth(quantity, entry) <= Worth(available, leverage as real)
    ensures Margin(quantity, rounded, leverage) <= available + Margin(quantity, tick / 2.0, leverage)
  {
    var lev, half := leverage as real, tick / 2.0;
    MulMono(rounded, entry + half, quantity);
    assert Worth(quantity, rounded) <= Worth(quantity, entry) + Worth(quantity, half);
    DividedAdds(Worth(quantity, rounded), available, Worth(quantity, half), lev);
  }

  lemma DividedAdds(n: real, a: real, b: real, d: real)
    requires d > 0.0 && n <= Worth(a, d) + b
    ensures n / d <= a + b / d
  {
    var q := n / d;
    var r := a + b / d;
    assert q * d == n && (b / d) * d == b;
    Distribute(a, b / d, d);
    if q > r {
      MulStrict(r, q, d);
    }
  }

  // ----- The decision -----

  /** Everything the signal, the snapshot and the context must have for an entry to be sized. */
  ghost predicate Sane(s: Signal, m: Snapshot, c: Context) {
    ValidSignal(s) && ValidSnapshot(m) && ValidContext(c)
  }

  function StopDistance(s: Signal, m: Snapshot): real
    requires s.terms.Some?
  {
    Abs(EntryPrice(s, m) - s.terms.value.stop)
  }

  function RoundedStopDistance(s: Signal, m: Snapshot, c: Context): real
    requires s.terms.Some? && c.filters.tick > 0.0
  {
    Abs(RoundedEntry(s, m, c) - RoundedStop(s, c))
  }

  ghost predicate FitsAll(q: real, s: Signal, m: Snapshot, c: Context)
    requires s.terms.Some? && c.filters.tick > 0.0
  {
    Fits(q, Budget(m, c), NotionalRoom(c), EntryPrice(s, m), StopDistance(s, m), RoundedStopDistance(s, m, c), c.filters)
  }

  /** No reason applies, so the signal opens a position with an entry away from its stop. */
  lemma PassedGates(s: Signal, m: Snapshot, c: Context)
    requires Sane(s, m, c)
    requires forall r :: !Applies(r, s, m, c)
    ensures !s.action.NoTrade? && s.terms.Some? && EntryPrice(s, m) > 0.0 && StopDistance(s, m) > 0.0
    ensures |c.positions| < c.limits.maxPositions
    ensures CountSide(c.positions, SideOf(s.action)) < c.limits.maxSameDirection
    ensures forall i :: 0 <= i < |c.positions| ==> c.positions[i].symbol != s.symbol
    ensures !BreakerTripped(c)
  {
    assert !Applies(ModelReturnedNoTrade, s, m, c);
    assert !Applies(PositionCount, s, m, c) && !Applies(SameDirectionLimit, s, m, c) && !Applies(ExistingSymbol, s, m, c);
    assert !Applies(DailyLossLimit, s, m, c) && !Applies(MaxDrawdown, s, m, c);
    assert !Applies(StopTooClose, s, m, c);
    hide Applies;
    ZeroDistance(s, m);
  }

  lemma ZeroDistance(s: Signal, m: Snapshot)
    requires s.terms.Some? && m.atr > 0.0
    ensures StopDistance(s, m) == 0.0 ==> StopAtr(s, m) == 0.0
  {
  }

  /** Sizing reasons never come from the gates. */
  lemma SizeIsNoGate(r: Reason, s: Signal, m: Snapshot, c: Context)
    requires ValidContext(c)
    requires r.QuantityBelowMinimum? || r.RewardBelowMinimum? || r.CapacityExhausted? || r.RoundedStopInvalid? || r.NotionalBelowMinimum?
    ensures !Applies(r, s, m, c)
  {
  }

  /** The limits an approved decision keeps. */
  ghost predicate WithinLimits(d: Decision, s: Signal, m: Snapshot, c: Context)
    requires d.Approved? && s.terms.Some? && c.filters.tick > 0.0 && c.limits.maxLeverage >= 1
  {
    && d.capitalBase == CapitalBase(c)
    && d.entry == RoundedEntry(s, m, c) && d.stop == RoundedStop(s, c) && d.target == RoundedTarget(s, c)
    && d.entry != d.stop
    && d.risk == Worth(d.quantity, Abs(d.entry - d.stop)) && d.risk > 0.0
    && d.risk <= TradeRiskCap(m, c)
    && d.risk + InitialRisk(c.positions) <= PortfolioRiskCap(c)
    && d.quantity >= c.filters.minQuantity && Worth(d.quantity, d.entry) >= c.filters.minNotional
    && FitsAll(d.quantity, s, m, c)
    && (c.filters.maxQuantity.None? || OnGrid(c.filters.maxQuantity.value, c.filters.step) ==>
          OnGrid(d.quantity, c.filters.step))
    && d.leverage == c.limits.maxLeverage && d.margin == Margin(d.quantity, d.entry, d.leverage)
    && d.margin + c.account.marginUsed <= MarginCap(c) + Margin(d.quantity, c.filters.tick / 2.0, d.leverage)
  }

  lemma BudgetWithinCaps(risk: real, m: Snapshot, c: Context)
    requires 0.0 < risk <= Budget(m, c)
    ensures risk <= TradeRiskCap(m, c) && risk + InitialRisk(c.positions) <= PortfolioRiskCap(c)
  {
    hide TradeRiskCap, PortfolioRiskCap, InitialRisk;
  }

  lemma RoomIsFreeMargin(q: real, s: Signal, m: Snapshot, c: Context)
    requires Sane(s, m, c) && q > 0.0 && EntryPrice(s, m) > 0.0
    requires Worth(q, EntryPrice(s, m)) <= NotionalRoom(c)
    ensures Margin(q, RoundedEntry(s, m, c), c.limits.maxLeverage) + c.account.marginUsed <=
            MarginCap(c) + Margin(q, c.filters.tick / 2.0, c.limits.maxLeverage)
  {
    hide Worth, Margin, EntryPrice, MarginCap;
    var entry, lev := EntryPrice(s, m), c.limits.maxLeverage as real;
    var available := Max(0.0, MarginCap(c) - c.account.marginUsed);
    WorthAdds(0.0, 0.0, entry);
    WorthAdds(0.0, 0.0, lev);
    WorthOrdered(0.0, q, entry);
    WorthOrdered(0.0, available, lev);
    MarginWithinCap(q, entry, RoundedEntry(s, m, c), c.filters.tick, available, c.limits.maxLeverage);
  }

  /** A size that passed the minimums makes a decision within every limit. */
  lemma SizedWithinLimits(d: Decision, s: Signal, m: Snapshot, c: Context)
    requires Sane(s, m, c) && d.Approved? && s.terms.Some?
    requires EntryPrice(s, m) > 0.0 && StopDistance(s, m) > 0.0 && RoundedStopDistance(s, m, c) > 0.0
    requires d.quantity == FinalSize(FirstSize(Budget(m, c), NotionalRoom(c), EntryPrice(s, m), StopDistance(s, m), c.filters),
                                     Budget(m, c), RoundedStopDistance(s, m, c), c.filters)
    requires d.entry == RoundedEntry(s, m, c) && d.stop == RoundedStop(s, c) && d.target == RoundedTarget(s, c)
    requires d.capitalBase == CapitalBase(c) && d.risk == Worth(d.quantity, Abs(d.entry - d.stop))
    requires d.quantity >= c.filters.minQuantity && Worth(d.quantity, d.entry) >= c.filters.minNotional
    requires d.leverage == c.limits.maxLeverage && d.margin == Margin(d.quantity, d.entry, d.leverage)
    ensures WithinLimits(d, s, m, c)
  {
    hide Worth, Margin, MarginCap, EntryPrice, Budget, NotionalRoom, FinalSize, FirstSize, RoundedEntry,
      RoundedStop, RoundedTarget, OnGrid;
    FinalSizeIsLargest(Budget(m, c), NotionalRoom(c), EntryPrice(s, m), StopDistance(s, m), RoundedStopDistance(s, m, c),
                       c.filters, d.quantity);
    WorthAdds(0.0, 0.0, RoundedStopDistance(s, m, c));
    WorthOrdered(0.0, d.quantity, RoundedStopDistance(s, m, c));
    BudgetWithinCaps(d.risk, m, c);
    RoomIsFreeMargin(d.quantity, s, m, c);
  }

  predicate NotionalTooSmall(q: real, s: Signal, m: Snapshot, c: Context)
    requires c.filters.tick > 0.0
  {
    Worth(q, EntryPrice(s, m)) < c.filters.minNotional || Worth(q, RoundedEntry(s, m, c)) < c.filters.minNotional
  }

  /** If a size is worth too little at a price, so is every smaller one. */
  lemma SmallerWorthLess(q: real, size: real, price: real, least: real)
    requires 0.0 < q <= size && Worth(size, price) < least && least > 0.0
    ensures Worth(q, price) < least
  {
    if price > 0.0 {
      MulMono(q, size, price);
    } else {
      MulMono(price, 0.0, q);
    }
  }

  /** What a decision says about the signal, the snapshot and the context it was made for. */
  ghost predicate Verdict(d: Decision, s: Signal, m: Snapshot, c: Context)
    requires Sane(s, m, c)
  {
    && (d.Rejected? ==> d.reasons != [])
    && (d.Approved? ==>
          && (forall r :: !Applies(r, s, m, c))
          && !s.action.NoTrade? && s.terms.Some?
          && NetReward(s, m, c) >= Worth(c.limits.minNetRewardRisk, StopDistance(s, m) + RoundTripCost(s, m, c))
          && WithinLimits(d, s, m, c)
          && forall q :: OnGrid(q, c.filters.step) && q > d.quantity ==> !FitsAll(q, s, m, c))
    && (d == Rejected([QuantityBelowMinimum]) && s.terms.Some? ==>
          forall q :: OnGrid(q, c.filters.step) && q >= c.filters.minQuantity ==> !FitsAll(q, s, m, c))
    && (d == Rejected([RewardBelowMinimum]) && s.terms.Some? ==>
          NetReward(s, m, c) < Worth(c.limits.minNetRewardRisk, StopDistance(s, m) + RoundTripCost(s, m, c)))
    && (d == Rejected([CapacityExhausted]) ==> Budget(m, c) <= 0.0)
    && (d == Rejected([RoundedStopInvalid]) && s.terms.Some? ==> RoundedStopDistance(s, m, c) == 0.0)
    && (d == Rejected([NotionalBelowMinimum]) && s.terms.Some? ==>
          forall q :: q > 0.0 && OnGrid(q, c.filters.step) && FitsAll(q, s, m, c) ==> NotionalTooSmall(q, s, m, c))
    && (d.Rejected? && (forall r :: !Applies(r, s, m, c)) ==>
          d.reasons in [[RewardBelowMinimum], [CapacityExhausted], [QuantityBelowMinimum], [NotionalBelowMinimum],
                        [RoundedStopInvalid]])
    && ((exists r :: Applies(r, s, m, c)) ==> d.Rejected? && forall r :: r in d.reasons <==> Applies(r, s, m, c))
  }

  /**
    An entry is approved only if no gate refuses it and its reward is worth its risk; then the
    size is the largest step multiple within every limit.  A refusal for size means that no
    tradable size is within the limits.
   */
  method Evaluate(s: Signal, m: Snapshot, c: Context) returns (d: Decision)
    requires Sane(s, m, c)
    ensures Verdict(d, s, m, c)
  {
    hide Applies, Worth, EntryPrice, RoundTripCost, NetReward, Budget, NotionalRoom, FinalSize, FirstSize, Fits,
      WithinLimits, OnGrid, RoundedEntry, RoundedStop, RoundedTarget, Margin;
    var reasons := Preflight(s, m, c);
    if reasons != [] {
      assert reasons[0] in reasons;
      SizeIsNoGate(QuantityBelowMinimum, s, m, c);
      SizeIsNoGate(RewardBelowMinimum, s, m, c);
      SizeIsNoGate(CapacityExhausted, s, m, c);
      SizeIsNoGate(RoundedStopInvalid, s, m, c);
      SizeIsNoGate(NotionalBelowMinimum, s, m, c);
      return Rejected(reasons);
    }
    PassedGates(s, m, c);
    var f := c.filters;
    var entry, distance := EntryPrice(s, m), StopDistance(s, m);
    CostNotNegative(s, m, c);
    var cost := RoundTripCost(s, m, c);
    RatioAtLeast(NetReward(s, m, c), distance + cost, c.limits.minNetRewardRisk);
    if NetReward(s, m, c) / (distance + cost) < c.limits.minNetRewardRisk {
      return Rejected([RewardBelowMinimum]);
    }
    var budget, room := Budget(m, c), NotionalRoom(c);
    if budget <= 0.0 {
      return Rejected([CapacityExhausted]);
    }
    var first := FirstSize(budget, room, entry, distance, f);
    if first < f.minQuantity {
      forall q | OnGrid(q, f.step) && q >= f.minQuantity
        ensures !FitsAll(q, s, m, c)
      {
        FirstSizeIsLargest(budget, room, entry, distance, RoundedStopDistance(s, m, c), f, q);
      }
      return Rejected([QuantityBelowMinimum]);
    }
    if Worth(first, entry) < f.minNotional {
      forall q | q > 0.0 && OnGrid(q, f.step) && FitsAll(q, s, m, c)
        ensures NotionalTooSmall(q, s, m, c)
      {
        if q > first {
          FirstSizeIsLargest(budget, room, entry, distance, RoundedStopDistance(s, m, c), f, q);
        }
        SmallerWorthLess(q, first, entry, f.minNotional);
      }
      return Rejected([NotionalBelowMinimum]);
    }
    var roundedEntry, roundedStop := RoundedEntry(s, m, c), RoundedStop(s, c);
    var roundedDistance := Abs(roundedEntry - roundedStop);
    if roundedDistance <= 0.0 {
      return Rejected([RoundedStopInvalid]);
    }
    var quantity := FinalSize(first, budget, roundedDistance, f);
    forall q
      ensures OnGrid(q, f.step) && q > quantity ==> !FitsAll(q, s, m, c)
    {
      FinalSizeIsLargest(budget, room, entry, distance, roundedDistance, f, q);
    }
    if quantity < f.minQuantity {
      return Rejected([QuantityBelowMinimum]);
    }
    if Worth(quantity, roundedEntry) < f.minNotional {
      forall q | q > 0.0 && OnGrid(q, f.step) && FitsAll(q, s, m, c)
        ensures NotionalTooSmall(q, s, m, c)
      {
        SmallerWorthLess(q, quantity, roundedEntry, f.minNotional);
      }
      return Rejected([NotionalBelowMinimum]);
    }
    d := Approved(CapitalBase(c), Worth(quantity, roundedDistance), quantity, roundedEntry, roundedStop, RoundedTarget(s, c),
                  c.limits.maxLeverage, Margin(quantity, roundedEntry, c.limits.maxLeverage));
    SizedWithinLimits(d, s, m, c);
  }

  // ----- The figures in plain arithmetic -----

  /** The middle of the quotes if the band contains it, otherwise the middle of the band. */
  lemma EntryPriceMeaning(s: Signal, m: Snapshot)
    requires s.terms.Some? && s.terms.value.entryMin <= s.terms.value.entryMax
    ensures var t, mid := s.terms.value, (m.bestBid + m.bestAsk) / 2.0;
            EntryPrice(s, m) == if t.entryMin <= mid <= t.entryMax then mid else (t.entryMin + t.entryMax) / 2.0
  {
  }

  /**
    What an entry may risk is the smaller of equity and capital limit, times the share per trade, times
    the volatility multiplier, times that of an active factor; and no more than the portfolio has left.
   */
  lemma BudgetMeaning(m: Snapshot, c: Context)
    requires ValidSnapshot(m) && ValidContext(c)
    ensures var base := if c.account.equity <= c.limits.capitalLimit then c.account.equity else c.limits.capitalLimit;
            var factor := if m.factorMultiplier.Some? then m.factorMultiplier.value else 1.0;
            && TradeRiskCap(m, c) == base * c.limits.tradeRiskPct * (m.volatilityMultiplier * factor)
            && PortfolioRiskCap(c) == base * c.limits.portfolioRiskPct
            && (PortfolioRiskCap(c) >= InitialRisk(c.positions) ==>
                  && Budget(m, c) <= TradeRiskCap(m, c) && Budget(m, c) + InitialRisk(c.positions) <= PortfolioRiskCap(c)
                  && (Budget(m, c) == TradeRiskCap(m, c)
                      || Budget(m, c) + InitialRisk(c.positions) == PortfolioRiskCap(c)))
            && (PortfolioRiskCap(c) < InitialRisk(c.positions) ==> Budget(m, c) <= 0.0)
  {
  }

  /** An active factor scales what a trade may risk, and never raises it. */
  lemma FactorScalesRisk(m: Snapshot, c: Context, factor: real)
    requires ValidSnapshot(m) && ValidContext(c) && 0.0 < factor <= 1.0
    ensures var without, active := m.(factorMultiplier := None), m.(factorMultiplier := Some(factor));
            && TradeRiskCap(active, c) == factor * TradeRiskCap(without, c)
            && TradeRiskCap(active, c) <= TradeRiskCap(without, c)
  {
    var share := Worth(CapitalBase(c), c.limits.tradeRiskPct);
    ScaleWorth(share, m.volatilityMultiplier, factor);
    assert share > 0.0 by {
      MulStrict(0.0, CapitalBase(c), c.limits.tradeRiskPct);
    }
    hide Worth;
  }

  lemma ScaleWorth(share: real, volatility: real, factor: real)
    ensures Worth(share, Worth(volatility, factor)) == factor * Worth(share, Worth(volatility, 1.0))
    ensures 0.0 < factor <= 1.0 && share > 0.0 && volatility > 0.0 ==>
              Worth(share, Worth(volatility, factor)) <= Worth(share, Worth(volatility, 1.0))
  {
    var whole := share * volatility;
    ScaleProduct(share, volatility, factor);
    if 0.0 < factor <= 1.0 && share > 0.0 && volatility > 0.0 {
      MulStrict(0.0, share, volatility);
      MulMono(factor, 1.0, whole);
    }
  }

  lemma ScaleProduct(share: real, volatility: real, factor: real)
    ensures share * (volatility * factor) == factor * (share * volatility)
    ensures share * (volatility * 1.0) == share * volatility
  {
  }

  lemma InitialRiskGrows(positions: seq<Held>, p: Held)
    ensures InitialRisk(positions + [p]) == InitialRisk(positions) + p.initialRisk && InitialRisk([]) == 0.0
  {
    assert (positions + [p])[..|positions|] == positions;
  }

  lemma CountSideGrows(positions: seq<Held>, p: Held, side: PositionSide)
    ensures CountSide(positions + [p], side) == CountSide(positions, side) + (if p.side == side then 1 else 0)
    ensures CountSide([], side) == 0
  {
    assert (positions + [p])[..|positions|] == positions;
  }

  /** Leverage times what the margin cap leaves free. */
  lemma RoomMeaning(c: Context)
    requires ValidContext(c)
    ensures var base := if c.account.equity <= c.limits.capitalLimit then c.account.equity else c.limits.capitalLimit;
            var free := base * c.limits.maxMarginPct - c.account.marginUsed;
            NotionalRoom(c) == if free <= 0.0 then 0.0 else free * c.limits.maxLeverage as real
  {
  }

  /** Both fees and slippage on the entry, and funding for the horizon in stretches of eight hours, at least one. */
  lemma CostMeaning(s: Signal, m: Snapshot, c: Context)
    requires s.terms.Some?
    ensures var e, paid := EntryPrice(s, m), if m.fundingRate >= 0.0 then m.fundingRate else -m.fundingRate;
            var stretches := if s.horizonMinutes <= 480 then 1.0 else s.horizonMinutes as real / 480.0;
            && RoundTripCost(s, m, c) == e * (c.feeRate * 2.0 + c.slippageRate) + e * paid * stretches
            && var way := if s.terms.value.target >= e then s.terms.value.target - e else e - s.terms.value.target;
               NetReward(s, m, c) == if way <= RoundTripCost(s, m, c) then 0.0 else way - RoundTripCost(s, m, c)
  {
    hide EntryPrice;
  }

  /** A breaker trips exactly when equity has fallen to its limit's share of the reference. */
  lemma BreakersMeaning(c: Context)
    requires ValidContext(c)
    ensures var a, l := c.account, c.limits;
            && (DailyLoss(a) >= l.dailyLossPct <==> a.equity <= a.dayStartEquity * (1.0 - l.dailyLossPct))
            && (Drawdown(a) >= l.maxDrawdownPct <==> a.equity <= a.highWaterMark * (1.0 - l.maxDrawdownPct))
  {
    var a, l := c.account, c.limits;
    LossShare(a.dayStartEquity, a.equity, l.dailyLossPct);
    LossShare(a.highWaterMark, a.equity, l.maxDrawdownPct);
  }

  lemma LossShare(reference: real, equity: real, limit: real)
    requires reference > 0.0 && limit > 0.0
    ensures (reference - equity) / reference >= limit <==> equity <= reference * (1.0 - limit)
    ensures equity <= reference * (1.0 - limit) ==> equity < reference
  {
    RatioAtLeast(reference - equity, reference, limit);
    MulStrict(0.0, limit, reference);
    assert Worth(limit, reference) == limit * reference;
    assert reference * (1.0 - limit) == reference - limit * reference;
  }

  /** The strategy gates, condition by condition. */
  lemma StrategyGatesMeaning(s: Signal, m: Snapshot, c: Context)
    requires ValidContext(c) && !c.limits.modelPrimary
    ensures var l, way := c.limits, if s.action.OpenLong? then 1 else -1;
            var strong := s.action.OpenLong? && l.strongTrendOverride && m.trending && m.trend1h == 1 && m.trend4h == 1
                          && m.adx >= l.strongTrendAdx;
            var local := l.ruleBased && s.modelDisabled && (s.action.OpenLong? || s.action.OpenShort?) && m.trending
                         && m.trend1h == way && m.trend4h == way && m.adx >= l.trendAdx;
            var trigger := || (l.trigger != PullbackOnly && m.breakout == way)
                           || (l.trigger != BreakoutOnly && m.pullback == way);
            && (Applies(LowConfidence, s, m, c) <==> s.confidence < l.minConfidence && !strong)
            && (Applies(NotTrending, s, m, c) <==> !m.trending)
            && (Applies(WeakTrend, s, m, c) <==> m.adx < l.trendAdx)
            && (Applies(TrendNotAligned, s, m, c) <==> m.trend1h != way || m.trend4h != way)
            && (Applies(NoTrigger, s, m, c) <==> !trigger && !strong && !local)
  {
  }

  /** Room on the signal's own side, and a stop neither too near nor too far in units of volatility. */
  lemma SideAndStopGatesMeaning(s: Signal, m: Snapshot, c: Context)
    requires ValidContext(c) && ValidSnapshot(m) && s.terms.Some?
    ensures var own := if s.action.OpenLong? then Long else Short;
            var way := if EntryPrice(s, m) >= s.terms.value.stop then EntryPrice(s, m) - s.terms.value.stop
                       else s.terms.value.stop - EntryPrice(s, m);
            && (Applies(SameDirectionLimit, s, m, c) <==> CountSide(c.positions, own) >= c.limits.maxSameDirection)
            && (Applies(StopTooClose, s, m, c) <==> way < c.limits.minStopAtr * m.atr)
            && (Applies(StopTooFar, s, m, c) <==> way > c.limits.maxStopAtr * m.atr)
  {
    hide EntryPrice;
    var way := Abs(EntryPrice(s, m) - s.terms.value.stop);
    RatioAtLeast(way, m.atr, c.limits.minStopAtr);
    assert Worth(StopAtr(s, m), m.atr) == way;
    WorthOrdered(c.limits.maxStopAtr, StopAtr(s, m), m.atr);
  }

  // ----- From decision to execution intent -----

  datatype Intent = Intent(
    symbol: string, side: PositionSide, quantity: real, limitPrice: real, entryMin: real, entryMax: real,
    stop: real, tp1: real, tp2: real, leverage: int, expiresAt: int)

  datatype IntentError = NotApproved | NothingToOpen | NoFirstTarget | InvalidIntent

  /** The checks the intent's own model makes. */
  predicate AcceptedIntent(i: Intent) {
    && i.quantity > 0.0 && i.limitPrice > 0.0 && i.entryMin > 0.0 && i.entryMax > 0.0
    && i.stop > 0.0 && i.tp1 > 0.0 && i.tp2 > 0.0
    && i.entryMin <= i.limitPrice <= i.entryMax
    && Tighter(i.side, i.tp2, i.tp1)
  }

  function BuildExecutionIntent(s: Signal, d: Decision): Result<Intent, IntentError>
    requires ValidSignal(s)
  {
    if d.Rejected? then Err(NotApproved)
    else if s.action.NoTrade? then Err(NothingToOpen)
    else
      var side, t := SideOf(s.action), s.terms.value;
      var tp1 := FirstTakeProfit(d.entry, d.stop, d.target, side);
      if tp1.None? then Err(NoFirstTarget)
      else
        var i := Intent(s.symbol, side, d.quantity, d.entry, t.entryMin, t.entryMax, d.stop, tp1.value, d.target,
                        d.leverage, s.expiresAt);
        if AcceptedIntent(i) then Ok(i) else Err(InvalidIntent)
  }

  /** What a caller can check of the signal before asking for a decision. */
  predicate IntentPossible(s: Signal, m: Snapshot, c: Context)
    requires s.terms.Some? && c.filters.tick > 0.0
  {
    && s.terms.value.entryMin <= RoundedEntry(s, m, c) <= s.terms.value.entryMax
    && Tighter(SideOf(s.action), RoundedTarget(s, c), RoundedEntry(s, m, c))
    && (if s.action.OpenLong? then s.terms.value.stop else s.terms.value.target) >= c.filters.tick
  }

  lemma FloorPositive(value: real, unit: real)
    requires unit > 0.0
    ensures FloorTo(value, unit) > 0.0 <==> value >= unit
  {
    assert IsMultiple(unit, 1, unit) && IsMultiple(0.0, 0, unit);
    hide FloorTo, OnGrid;
    assert OnGrid(unit, unit) && OnGrid(0.0, unit) by {
      assert IsMultiple(unit, 1, unit) && IsMultiple(0.0, 0, unit);
      OnGridWitness(unit, 1, unit);
      OnGridWitness(0.0, 0, unit);
    }
    var r := FloorTo(value, unit);
    if value >= unit && r <= 0.0 {
      GridGap(r, 0.0, unit);
    }
    if r > 0.0 && value < unit {
      GridGap(r, unit, unit);
    }
  }

  lemma OnGridWitness(value: real, k: int, unit: real)
    requires IsMultiple(value, k, unit)
    ensures OnGrid(value, unit)
  {
  }

  /**
    An approved decision becomes an intent exactly when rounding kept the entry in its band and
    in front of the target, and left a positive stop (long) or target (short).
   */
  lemma IntentIff(s: Signal, m: Snapshot, c: Context, d: Decision)
    requires Sane(s, m, c) && !s.action.NoTrade? && d.Approved? && WithinLimits(d, s, m, c)
    ensures BuildExecutionIntent(s, d).Ok? <==> IntentPossible(s, m, c)
  {
    hide Fits, FloorTo, CeilTo, HalfUpTo, Worth, Margin, OnGrid, EntryPrice;
    var t, tick := s.terms.value, c.filters.tick;
    FloorPositive(t.stop, tick);
    FloorPositive(t.target, tick);
  }

  /** The whole band lies strictly between stop and target. */
  predicate BandInside(t: Terms, side: PositionSide) {
    && Tighter(side, t.entryMin, t.stop) && Tighter(side, t.entryMax, t.stop)
    && Tighter(side, t.target, t.entryMin) && Tighter(side, t.target, t.entryMax)
  }

  /**
    A tick-aligned band strictly between stop and target always gives an intent (unless the stop
    of a long, or the target of a short, is below one tick), and every price of the intent is in order.
   */
  lemma AlignedBandAlwaysExecutes(s: Signal, m: Snapshot, c: Context, d: Decision)
    requires Sane(s, m, c) && !s.action.NoTrade? && d.Approved? && WithinLimits(d, s, m, c)
    requires OnGrid(s.terms.value.entryMin, c.filters.tick) && OnGrid(s.terms.value.entryMax, c.filters.tick)
    requires BandInside(s.terms.value, SideOf(s.action))
    requires (if s.action.OpenLong? then s.terms.value.stop else s.terms.value.target) >= c.filters.tick
    ensures var r, side := BuildExecutionIntent(s, d), SideOf(s.action);
            && r.Ok? && r.value.quantity == d.quantity && r.value.limitPrice == d.entry
            && Tighter(side, r.value.limitPrice, r.value.stop)
            && Tighter(side, r.value.tp1, r.value.limitPrice)
            && Tighter(side, r.value.tp2, r.value.tp1)
  {
    hide Fits, FloorTo, CeilTo, HalfUpTo, Worth, Margin, OnGrid, EntryPrice;
    var t, tick := s.terms.value, c.filters.tick;
    HalfUpStaysBetween(t.entryMin, EntryPrice(s, m), t.entryMax, tick);
    IntentIff(s, m, c, d);
  }

  // ----- Why alignment matters -----

  const OFF_TICK_SIGNAL := Signal("BTCUSDT", OpenLong, 1.0, Some(Terms(100.2, 100.3, 90.0, 150.0)), 240, false, 10)
  const CALM_MARKET := Snapshot("BTCUSDT", 0, 100.2, 100.3, 0.0, 10.0, 30.0, 1, 1, 1, 0, true, 1.0, None)
  const FRESH_ACCOUNT := Context(
    Testnet, Account(1000.0, 1000.0, 1000.0, 0.0), [], Filters(1.0, 0.001, 0.001, 5.0, None),
    Limits(1000.0, 0.0025, 0.0075, 0.01, 0.05, 3, 0.2, 3, 2, 0.8, 0.8, 2.5, false, false, false,
           30.0, 0.75, 2.5, Both, BreakoutOrPullback, 20.0), map[], 0.0005, 0.0005)

  lemma OffTickPrices()
    ensures var s, m, c := OFF_TICK_SIGNAL, CALM_MARKET, FRESH_ACCOUNT;
            && EntryPrice(s, m) == 100.25 && RoundedEntry(s, m, c) == 100.0
            && RoundedStop(s, c) == 90.0 && RoundedTarget(s, c) == 150.0
  {
    OnGridWitness(100.0, 100, 1.0);
    OnGridWitness(90.0, 90, 1.0);
    OnGridWitness(150.0, 150, 1.0);
    OnGridFixed(90.0, 1.0);
    OnGridFixed(150.0, 1.0);
    GridGap(HalfUpTo(100.25, 1.0), 100.0, 1.0);
  }

  lemma OffTickPassesGates(r: Reason)
    ensures Sane(OFF_TICK_SIGNAL, CALM_MARKET, FRESH_ACCOUNT)
    ensures !Applies(r, OFF_TICK_SIGNAL, CALM_MARKET, FRESH_ACCOUNT)
  {
    assert StopAtr(OFF_TICK_SIGNAL, CALM_MARKET) == 1.025;
    hide StopAtr, EntryPrice;
  }

  lemma OffTickBudget()
    ensures Budget(CALM_MARKET, FRESH_ACCOUNT) == 2.5
    ensures TradeRiskCap(CALM_MARKET, FRESH_ACCOUNT) == 2.5
    ensures PortfolioRiskCap(FRESH_ACCOUNT) == 7.5 && InitialRisk(FRESH_ACCOUNT.positions) == 0.0
    ensures MarginCap(FRESH_ACCOUNT) == 200.0 && NotionalRoom(FRESH_ACCOUNT) == 600.0
  {
    assert RiskMultiplier(CALM_MARKET) == 1.0;
    assert CapitalBase(FRESH_ACCOUNT) == 1000.0;
    assert Worth(1000.0, 0.0025) == 2.5 && Worth(2.5, 1.0) == 2.5 && Worth(1000.0, 0.0075) == 7.5;
    assert Worth(1000.0, 0.2) == 200.0 && Worth(200.0, 3.0) == 600.0;
    hide Worth, RiskMultiplier, CapitalBase;
  }

  /** The largest size the budget of 2.5 pays for at a stop distance of 10.25. */
  const OFF_TICK_SIZE := 0.243

  lemma OffTickFits(q: real)
    ensures StopDistance(OFF_TICK_SIGNAL, CALM_MARKET) == 10.25
    ensures RoundedStopDistance(OFF_TICK_SIGNAL, CALM_MARKET, FRESH_ACCOUNT) == 10.0
    ensures FitsAll(q, OFF_TICK_SIGNAL, CALM_MARKET, FRESH_ACCOUNT) <==>
            Worth(q, 10.25) <= 2.5 && Worth(q, 10.0) <= 2.5 && Worth(q, 100.25) <= 600.0
  {
    OffTickPrices();
    OffTickBudget();
    hide Worth, EntryPrice, RoundedEntry, RoundedStop, Budget, NotionalRoom;
  }

  lemma OffTickSize()
    ensures OnGrid(OFF_TICK_SIZE, 0.001) && OnGrid(0.244, 0.001)
    ensures FitsAll(OFF_TICK_SIZE, OFF_TICK_SIGNAL, CALM_MARKET, FRESH_ACCOUNT)
    ensures !FitsAll(0.244, OFF_TICK_SIGNAL, CALM_MARKET, FRESH_ACCOUNT)
    ensures !NotionalTooSmall(OFF_TICK_SIZE, OFF_TICK_SIGNAL, CALM_MARKET, FRESH_ACCOUNT)
  {
    OnGridWitness(OFF_TICK_SIZE, 243, 0.001);
    OnGridWitness(0.244, 244, 0.001);
    OffTickFits(OFF_TICK_SIZE);
    OffTickFits(0.244);
    OffTickPrices();
    assert Worth(0.243, 10.25) == 2.49075 && Worth(0.243, 10.0) == 2.43 && Worth(0.244, 10.25) == 2.501;
    assert Worth(0.243, 100.25) == 24.36075 && Worth(0.243, 100.0) == 24.3;
    hide FitsAll, OnGrid, EntryPrice, RoundedEntry, Worth;
  }

  /** A size that fits with none above it is this one. */
  lemma OffTickLargest(q: real)
    requires OnGrid(q, 0.001) && FitsAll(q, OFF_TICK_SIGNAL, CALM_MARKET, FRESH_ACCOUNT)
    requires forall x :: OnGrid(x, 0.001) && x > q ==> !FitsAll(x, OFF_TICK_SIGNAL, CALM_MARKET, FRESH_ACCOUNT)
    ensures q == OFF_TICK_SIZE
  {
    OffTickSize();
    OffTickFits(q);
    OffTickFits(0.244);
    WorthOrdered(0.244, q, 10.25);
    hide FitsAll, OnGrid, Worth;
    GridGap(q, OFF_TICK_SIZE, 0.001);
  }

  /** The reward is worth its risk: 49.6 against two and a half times 10.4. */
  lemma OffTickReward()
    ensures var s, m, c := OFF_TICK_SIGNAL, CALM_MARKET, FRESH_ACCOUNT;
            NetReward(s, m, c) >= Worth(c.limits.minNetRewardRisk, StopDistance(s, m) + RoundTripCost(s, m, c))
  {
    var s, m, c := OFF_TICK_SIGNAL, CALM_MARKET, FRESH_ACCOUNT;
    OffTickPrices();
    assert Worth(100.25, 0.0015) == 0.150375 && Worth(100.25, 0.0) == 0.0 && Worth(0.0, 1.0) == 0.0;
    assert RoundTripCost(s, m, c) == 0.150375;
    assert Worth(2.5, 10.400375) == 26.0009375;
    hide Worth, RoundTripCost, EntryPrice;
  }

  /**
    Without alignment the decision the engine makes may be impossible to execute: this signal is
    approved, at the largest size, and rounding takes its entry out of the band.
   */
  method UnalignedBandCanFail() returns (d: Decision, r: Result<Intent, IntentError>)
    ensures d.Approved? && d.quantity == OFF_TICK_SIZE && d.entry == 100.0 && d.stop == 90.0 && d.target == 150.0
    ensures BandInside(OFF_TICK_SIGNAL.terms.value, Long) && OFF_TICK_SIGNAL.terms.value.stop >= FRESH_ACCOUNT.filters.tick
    ensures r == Err(InvalidIntent)
  {
    hide Applies, Sane, FitsAll, OnGrid, EntryPrice, RoundTripCost, NetReward, Budget, StopDistance, RoundedStopDistance,
      RoundedEntry, RoundedStop, RoundedTarget, Worth, NotionalTooSmall, Margin;
    var s, m, c := OFF_TICK_SIGNAL, CALM_MARKET, FRESH_ACCOUNT;
    OffTickPassesGates(NotTrending);
    forall reason {
      OffTickPassesGates(reason);
    }
    OffTickReward();
    OffTickBudget();
    OffTickSize();
    OffTickFits(OFF_TICK_SIZE);
    d := Evaluate(s, m, c);
    assert d.Approved?;
    OffTickPrices();
    OffTickLargest(d.quantity);
    r := BuildExecutionIntent(s, d);
  }

  const SCALED_MARKET := CALM_MARKET.(factorMultiplier := Some(0.5))

  lemma ScaledBudget()
    ensures Budget(SCALED_MARKET, FRESH_ACCOUNT) == 1.25
  {
    BudgetMeaning(SCALED_MARKET, FRESH_ACCOUNT);
    assert 1000.0 * 0.0025 * (1.0 * 0.5) == 1.25 && 1000.0 * 0.0075 == 7.5;
    InitialRiskGrows([], Held("", Long, 1.0));
    hide TradeRiskCap, PortfolioRiskCap, Budget;
  }

  lemma ScaledFits(q: real)
    ensures StopDistance(OFF_TICK_SIGNAL, SCALED_MARKET) == 10.25
    ensures RoundedStopDistance(OFF_TICK_SIGNAL, SCALED_MARKET, FRESH_ACCOUNT) == 10.0
    ensures EntryPrice(OFF_TICK_SIGNAL, SCALED_MARKET) == 100.25
    ensures RoundedEntry(OFF_TICK_SIGNAL, SCALED_MARKET, FRESH_ACCOUNT) == 100.0
    ensures FitsAll(q, OFF_TICK_SIGNAL, SCALED_MARKET, FRESH_ACCOUNT) <==>
            Worth(q, 10.25) <= 1.25 && Worth(q, 10.0) <= 1.25 && Worth(q, 100.25) <= 600.0
  {
    OffTickPrices();
    OffTickBudget();
    ScaledBudget();
    hide Worth, RoundedStop, Budget, NotionalRoom;
  }

  lemma ScaledSize()
    ensures OnGrid(0.121, 0.001) && OnGrid(0.122, 0.001)
    ensures FitsAll(0.121, OFF_TICK_SIGNAL, SCALED_MARKET, FRESH_ACCOUNT)
    ensures !FitsAll(0.122, OFF_TICK_SIGNAL, SCALED_MARKET, FRESH_ACCOUNT)
    ensures !NotionalTooSmall(0.121, OFF_TICK_SIGNAL, SCALED_MARKET, FRESH_ACCOUNT)
  {
    OnGridWitness(0.121, 121, 0.001);
    OnGridWitness(0.122, 122, 0.001);
    ScaledFits(0.121);
    ScaledFits(0.122);
    assert Worth(0.121, 10.25) == 1.24025 && Worth(0.121, 10.0) == 1.21 && Worth(0.122, 10.25) == 1.2505;
    assert Worth(0.121, 100.25) == 12.13025 && Worth(0.121, 100.0) == 12.1;
    hide FitsAll, OnGrid, EntryPrice, RoundedEntry, Worth;
  }

  lemma ScaledLargest(q: real)
    requires OnGrid(q, 0.001) && FitsAll(q, OFF_TICK_SIGNAL, SCALED_MARKET, FRESH_ACCOUNT)
    requires forall x :: OnGrid(x, 0.001) && x > q ==> !FitsAll(x, OFF_TICK_SIGNAL, SCALED_MARKET, FRESH_ACCOUNT)
    ensures q == 0.121
  {
    ScaledSize();
    ScaledFits(q);
    ScaledFits(0.122);
    WorthOrdered(0.122, q, 10.25);
    hide FitsAll, OnGrid, Worth;
    GridGap(q, 0.121, 0.001);
  }

  lemma ScaledPassesGates(r: Reason)
    ensures Sane(OFF_TICK_SIGNAL, SCALED_MARKET, FRESH_ACCOUNT)
    ensures !Applies(r, OFF_TICK_SIGNAL, SCALED_MARKET, FRESH_ACCOUNT)
  {
    assert StopAtr(OFF_TICK_SIGNAL, SCALED_MARKET) == 1.025;
    hide StopAtr, EntryPrice;
  }

  lemma ScaledReward()
    ensures var s, m, c := OFF_TICK_SIGNAL, SCALED_MARKET, FRESH_ACCOUNT;
            NetReward(s, m, c) >= Worth(c.limits.minNetRewardRisk, StopDistance(s, m) + RoundTripCost(s, m, c))
  {
    OffTickReward();
    assert EntryPrice(OFF_TICK_SIGNAL, SCALED_MARKET) == EntryPrice(OFF_TICK_SIGNAL, CALM_MARKET);
    hide EntryPrice, Worth;
  }

  /** With a factor of one half the engine approves half the risk: 0.121 units of the same signal. */
  method FactorHalvesTheSize() returns (d: Decision)
    ensures d.Approved? && d.quantity == 0.121 && d.entry == 100.0
  {
    hide Applies, Sane, FitsAll, OnGrid, EntryPrice, RoundTripCost, NetReward, Budget, StopDistance, RoundedStopDistance,
      RoundedEntry, RoundedStop, RoundedTarget, Worth, NotionalTooSmall, Margin;
    var s, m, c := OFF_TICK_SIGNAL, SCALED_MARKET, FRESH_ACCOUNT;
    ScaledPassesGates(NotTrending);
    forall reason {
      ScaledPassesGates(reason);
    }
    ScaledReward();
    ScaledBudget();
    ScaledSize();
    ScaledFits(0.121);
    d := Evaluate(s, m, c);
    assert d.Approved?;
    ScaledLargest(d.quantity);
  }
}
