/**
  The life of one simulated position: three tranches at 40/40/20 per cent, a stop that moves to
  break-even and then trails.  The reference is the list of exits at raw market prices.
 */
module SimPosition {
  import opened Common
  import opened ExitPolicy
  import opened CandleAggregation

  datatype Costs = Costs(feeRate: real, slippageRate: real, trailingAtr: real)

  predicate SaneCosts(c: Costs) {
    0.0 <= c.feeRate < 0.5 && 0.0 <= c.slippageRate < 1.0 && 0.0 <= c.trailingAtr
  }

  datatype Position = Position(
    side: PositionSide, quantity: real, entry: real, tp1: real, tp2: real,
    remaining: real, stop: real, highest: real, lowest: real,
    realized: real, fees: real, slippage: real, tp1Hit: bool, tp2Hit: bool)

  /** Part of a position leaving the market at a raw price, before slippage. */
  datatype Exit = Exit(price: real, quantity: real)

  // ----- Prices and amounts -----

  function EntryPrice(side: PositionSide, raw: real, rate: real): real {
    raw * (if side.Long? then 1.0 + rate else 1.0 - rate)
  }

  function ExitPrice(side: PositionSide, raw: real, rate: real): real {
    raw * (if side.Long? then 1.0 - rate else 1.0 + rate)
  }

  function Gain(side: PositionSide, from: real, to: real, quantity: real): real {
    (to - from) * quantity * Direction(side)
  }

  /** What the distance between two prices costs on a quantity. */
  function Slip(price: real, raw: real, quantity: real): real {
    Abs(price - raw) * quantity
  }

  function Fee(price: real, quantity: real, rate: real): real {
    price * quantity * rate
  }

  function Portion(quantity: real, fraction: real): real {
    quantity * fraction
  }

  // ----- The steps, as functions -----

  function Realized(p: Position, raw: real, asked: real, c: Costs): Position {
    var quantity := Min(asked, p.remaining);
    var price := ExitPrice(p.side, raw, c.slippageRate);
    p.(slippage := p.slippage + Slip(price, raw, quantity),
       realized := p.realized + Gain(p.side, p.entry, price, quantity),
       fees := p.fees + Fee(price, quantity, c.feeRate),
       remaining := p.remaining - quantity)
  }

  predicate StopTouched(p: Position, candle: Candle) {
    if p.side.Long? then candle.low <= p.stop else candle.high >= p.stop
  }

  predicate TargetTouched(p: Position, target: real, candle: Candle) {
    if p.side.Long? then candle.high >= target else candle.low <= target
  }

  function Observed(p: Position, candle: Candle): Position {
    p.(highest := Max(p.highest, candle.high), lowest := Min(p.lowest, candle.low))
  }

  function AfterFirstTarget(p: Position, candle: Candle, c: Costs): Position {
    if !p.tp1Hit && TargetTouched(p, p.tp1, candle) then
      Realized(p, p.tp1, Portion(p.quantity, TP1_FRACTION), c)
        .(tp1Hit := true, stop := BreakevenStop(p.entry, p.side, c.feeRate * 2.0))
    else p
  }

  function AfterSecondTarget(p: Position, candle: Candle, c: Costs): Position {
    if p.tp1Hit && !p.tp2Hit && TargetTouched(p, p.tp2, candle) then
      Realized(p, p.tp2, Min(Portion(p.quantity, TP2_FRACTION), p.remaining), c).(tp2Hit := true)
    else p
  }

  function Trailed(p: Position, atr: real, c: Costs): Position {
    if p.tp2Hit && p.remaining > 0.0 && atr > 0.0 then
      p.(stop := TrailingStop(p.stop, p.side, p.highest, p.lowest, atr, c.trailingAtr))
    else p
  }

  /** One candle: the stop is looked at first, and then the targets. */
  function Managed(p: Position, candle: Candle, atr: real, c: Costs): Position {
    var seen := Observed(p, candle);
    if StopTouched(p, candle) then Realized(seen, seen.stop, seen.remaining, c)
    else Trailed(AfterSecondTarget(AfterFirstTarget(seen, candle, c), candle, c), atr, c)
  }

  /** A touched stop ends the position, and so does having nothing left. */
  predicate Closes(before: Position, candle: Candle, after: Position) {
    StopTouched(before, candle) || after.remaining <= 0.0
  }

  /** Nothing is left exactly when the position is closed. */
  lemma ClosesIffGone(p: Position, candle: Candle, atr: real, c: Costs)
    ensures var r := Managed(p, candle, atr, c); Closes(p, candle, r) <==> r.remaining <= 0.0
  {
    hide Gain, Slip, Fee, ExitPrice, AfterFirstTarget, AfterSecondTarget, Trailed;
  }

  /** The exits one candle causes, at raw prices. */
  function ExitsOf(p: Position, candle: Candle, c: Costs): seq<Exit> {
    if StopTouched(p, candle) then [Exit(p.stop, p.remaining)]
    else
      var seen := Observed(p, candle);
      var first := AfterFirstTarget(seen, candle, c);
      var second := AfterSecondTarget(first, candle, c);
      (if first.tp1Hit && !p.tp1Hit then [Exit(p.tp1, p.remaining - first.remaining)] else [])
      + (if second.tp2Hit && !p.tp2Hit then [Exit(p.tp2, first.remaining - second.remaining)] else [])
  }

  // ----- The list of exits -----

  function Sold(exits: seq<Exit>): real {
    if exits == [] then 0.0 else Sold(exits[..|exits| - 1]) + exits[|exits| - 1].quantity
  }

  /** The gain of the exits had there been no slippage at all. */
  function RawGain(side: PositionSide, rawEntry: real, exits: seq<Exit>): real {
    if exits == [] then 0.0
    else
      var last := exits[|exits| - 1];
      RawGain(side, rawEntry, exits[..|exits| - 1]) + Gain(side, rawEntry, last.price, last.quantity)
  }

  lemma {:induction false} ExitsJoin(side: PositionSide, rawEntry: real, a: seq<Exit>, b: seq<Exit>)
    ensures Sold(a + b) == Sold(a) + Sold(b)
    ensures RawGain(side, rawEntry, a + b) == RawGain(side, rawEntry, a) + RawGain(side, rawEntry, b)
  {
    hide Gain;
    if b == [] {
      assert a + b == a;
    } else {
      assert (a + b)[..|a + b| - 1] == a + b[..|b| - 1];
      ExitsJoin(side, rawEntry, a, b[..|b| - 1]);
    }
  }

  // ----- One exit -----

  /** Slippage moves gain from the result to the slippage account, and nowhere else. */
  lemma ExitSlips(side: PositionSide, entry: real, raw: real, rate: real, quantity: real)
    requires raw >= 0.0 && rate >= 0.0
    ensures Gain(side, entry, ExitPrice(side, raw, rate), quantity) + Slip(ExitPrice(side, raw, rate), raw, quantity)
            == Gain(side, entry, raw, quantity)
  {
    var price := ExitPrice(side, raw, rate);
    var lost := raw * rate;
    assert lost >= 0.0;
    assert price == raw - Direction(side) * lost;
    assert Slip(price, raw, quantity) == lost * quantity;
    if side.Long? {
      GainSplits(entry, raw, lost, quantity);
    } else {
      GainSplits(entry, raw, -lost, quantity);
    }
  }

  lemma GainSplits(entry: real, raw: real, lost: real, quantity: real)
    ensures (raw - lost - entry) * quantity == (raw - entry) * quantity - lost * quantity
  {
  }

  lemma EntrySlips(side: PositionSide, rawEntry: real, rate: real, to: real, quantity: real)
    requires rawEntry >= 0.0 && rate >= 0.0
    ensures var entry := EntryPrice(side, rawEntry, rate);
            Gain(side, entry, to, quantity) + Slip(entry, rawEntry, quantity) == Gain(side, rawEntry, to, quantity)
  {
    var entry := EntryPrice(side, rawEntry, rate);
    var lost := rawEntry * rate;
    assert lost >= 0.0;
    assert entry == rawEntry + Direction(side) * lost;
    assert Slip(entry, rawEntry, quantity) == lost * quantity;
    if side.Long? {
      GainSplits(rawEntry, to, lost, quantity);
    } else {
      GainSplits(rawEntry, to, -lost, quantity);
    }
  }

  lemma SlipAdds(price: real, raw: real, a: real, b: real)
    ensures Slip(price, raw, a + b) == Slip(price, raw, a) + Slip(price, raw, b)
  {
  }

  lemma GainAdds(side: PositionSide, from: real, to: real, a: real, b: real)
    ensures Gain(side, from, to, a + b) == Gain(side, from, to, a) + Gain(side, from, to, b)
    ensures Gain(side, from, to, 0.0) == 0.0
  {
  }

  lemma TighterGainsMore(side: PositionSide, from: real, to: real, other: real, quantity: real)
    requires AtLeastAsTight(side, to, other) && quantity >= 0.0
    ensures Gain(side, from, to, quantity) >= Gain(side, from, other, quantity)
  {
    if side.Long? {
      MulMono(other - from, to - from, quantity);
    } else {
      MulMono(to - from, other - from, quantity);
    }
  }

  // ----- Many exits -----

  predicate NoWorseThan(exits: seq<Exit>, side: PositionSide, stop: real) {
    forall i :: 0 <= i < |exits| ==> exits[i].quantity >= 0.0 && AtLeastAsTight(side, exits[i].price, stop)
  }

  lemma {:induction false} RawGainAtLeast(side: PositionSide, from: real, exits: seq<Exit>, stop: real)
    requires NoWorseThan(exits, side, stop)
    ensures Sold(exits) >= 0.0
    ensures RawGain(side, from, exits) >= Gain(side, from, stop, Sold(exits))
  {
    hide Gain;
    GainAdds(side, from, stop, 0.0, 0.0);
    if exits != [] {
      var front, last := exits[..|exits| - 1], exits[|exits| - 1];
      RawGainAtLeast(side, from, front, stop);
      TighterGainsMore(side, from, last.price, stop, last.quantity);
      GainAdds(side, from, stop, Sold(front), last.quantity);
    }
  }

  /** Entry slippage spreads over the exits by quantity. */
  lemma {:induction false} RawGainFromRawEntry(side: PositionSide, rawEntry: real, rate: real, exits: seq<Exit>)
    requires rawEntry >= 0.0 && rate >= 0.0
    ensures var entry := EntryPrice(side, rawEntry, rate);
            RawGain(side, entry, exits) + Slip(entry, rawEntry, Sold(exits)) == RawGain(side, rawEntry, exits)
  {
    hide Gain, Slip, EntryPrice;
    var entry := EntryPrice(side, rawEntry, rate);
    SlipAdds(entry, rawEntry, 0.0, 0.0);
    if exits != [] {
      var front, last := exits[..|exits| - 1], exits[|exits| - 1];
      RawGainFromRawEntry(side, rawEntry, rate, front);
      EntrySlips(side, rawEntry, rate, last.price, last.quantity);
      SlipAdds(entry, rawEntry, Sold(front), last.quantity);
    }
  }

  // ----- One candle -----

  function Tranches(p: Position): real {
    (if p.tp1Hit then Portion(p.quantity, TP1_FRACTION) else 0.0)
    + (if p.tp2Hit then Portion(p.quantity, TP2_FRACTION) else 0.0)
  }

  /** A position in the market: prices in order, the stop never behind the initial one, tranches accounted for. */
  predicate Open(p: Position, initialStop: real) {
    && p.quantity > 0.0 && p.remaining == p.quantity - Tranches(p)
    && (p.tp2Hit ==> p.tp1Hit)
    && (!p.tp1Hit ==> p.stop == initialStop)
    && AtLeastAsTight(p.side, p.stop, initialStop)
    && Tighter(p.side, p.entry, initialStop) && Tighter(p.side, p.tp1, p.entry) && Tighter(p.side, p.tp2, p.tp1)
    && p.stop > 0.0 && p.entry > 0.0 && p.tp1 > 0.0 && p.tp2 > 0.0 && p.lowest > 0.0
  }

  lemma PortionSizes(quantity: real)
    requires quantity > 0.0
    ensures Portion(quantity, 0.4) > 0.0
    ensures quantity - Portion(quantity, 0.4) - Portion(quantity, 0.4) > 0.0
  {
  }

  /** An open position always holds something. */
  lemma OpenHolds(p: Position, initialStop: real)
    requires Open(p, initialStop)
    ensures 0.0 < p.remaining <= p.quantity
  {
    hide Portion;
    PortionSizes(p.quantity);
  }

  lemma BreakevenTightens(side: PositionSide, entry: real, rate: real)
    requires entry > 0.0 && 0.0 <= rate < 1.0
    ensures AtLeastAsTight(side, BreakevenStop(entry, side, rate), entry)
    ensures BreakevenStop(entry, side, rate) > 0.0
  {
    BreakevenAt(side, entry, rate);
    ShareOfPrice(entry, rate);
    hide BreakevenStop, Worth;
  }

  lemma BreakevenAt(side: PositionSide, entry: real, rate: real)
    ensures BreakevenStop(entry, side, rate) == if side.Long? then entry + Worth(entry, rate) else entry - Worth(entry, rate)
  {
  }

  lemma ShareOfPrice(entry: real, rate: real)
    requires entry > 0.0 && 0.0 <= rate < 1.0
    ensures 0.0 <= Worth(entry, rate) < entry
  {
    MulMono(0.0, rate, entry);
    MulStrict(rate, 1.0, entry);
  }

  /** One exit moves quantity and gain; nothing else. */
  lemma RealizedAccounts(p: Position, raw: real, asked: real, c: Costs)
    requires raw >= 0.0 && SaneCosts(c) && 0.0 <= asked <= p.remaining
    ensures var r := Realized(p, raw, asked, c);
            && r.remaining == p.remaining - asked
            && r.realized + r.slippage == p.realized + p.slippage + Gain(p.side, p.entry, raw, asked)
            && r == p.(remaining := r.remaining, realized := r.realized, slippage := r.slippage, fees := r.fees)
  {
    hide Gain, Slip, Fee, ExitPrice;
    ExitSlips(p.side, p.entry, raw, c.slippageRate, asked);
  }

  lemma OneExit(side: PositionSide, from: real, e: Exit)
    ensures Sold([e]) == e.quantity && RawGain(side, from, [e]) == Gain(side, from, e.price, e.quantity)
  {
    hide Gain;
    assert [e][..0] == [];
  }

  lemma StoppedOut(p: Position, candle: Candle, atr: real, c: Costs, initialStop: real)
    requires Open(p, initialStop) && SaneCosts(c) && StopTouched(p, candle)
    ensures var r, exits := Managed(p, candle, atr, c), ExitsOf(p, candle, c);
            && r.remaining == 0.0 && Sold(exits) == p.remaining
            && r.realized + r.slippage == p.realized + p.slippage + RawGain(p.side, p.entry, exits)
            && NoWorseThan(exits, p.side, initialStop)
            && r.tp1Hit == p.tp1Hit && r.tp2Hit == p.tp2Hit
  {
    hide Gain, Slip, Fee, ExitPrice, Portion, RawGain, Sold;
    OpenHolds(p, initialStop);
    var seen := Observed(p, candle);
    hide Realized;
    RealizedAccounts(seen, seen.stop, seen.remaining, c);
    OneExit(p.side, p.entry, Exit(p.stop, p.remaining));
  }

  /** The first tranche: 40 per cent leave at the first target and the stop goes to break-even. */
  lemma FirstTargetAccounts(p: Position, candle: Candle, c: Costs, initialStop: real)
    requires Open(p, initialStop) && SaneCosts(c)
    ensures var r := AfterFirstTarget(p, candle, c);
            && Open(r, initialStop) && AtLeastAsTight(p.side, r.stop, p.stop)
            && r.realized + r.slippage == p.realized + p.slippage + Gain(p.side, p.entry, p.tp1, p.remaining - r.remaining)
            && (r.tp1Hit <==> p.tp1Hit || TargetTouched(p, p.tp1, candle)) && r.tp2Hit == p.tp2Hit
            && r.remaining <= p.remaining
            && (r.tp1Hit == p.tp1Hit ==> r.remaining == p.remaining)
            && r.side == p.side && r.entry == p.entry && r.tp1 == p.tp1 && r.tp2 == p.tp2 && r.quantity == p.quantity
  {
    hide Gain, Slip, Fee, ExitPrice, Portion, Realized, BreakevenStop;
    PortionSizes(p.quantity);
    GainAdds(p.side, p.entry, p.tp1, 0.0, 0.0);
    if !p.tp1Hit && TargetTouched(p, p.tp1, candle) {
      RealizedAccounts(p, p.tp1, Portion(p.quantity, TP1_FRACTION), c);
      BreakevenTightens(p.side, p.entry, c.feeRate * 2.0);
    }
  }

  /** The second tranche: another 40 per cent leave at the final target. */
  lemma SecondTargetAccounts(p: Position, candle: Candle, c: Costs, initialStop: real)
    requires Open(p, initialStop) && SaneCosts(c)
    ensures var r := AfterSecondTarget(p, candle, c);
            && Open(r, initialStop) && r.stop == p.stop
            && r.realized + r.slippage == p.realized + p.slippage + Gain(p.side, p.entry, p.tp2, p.remaining - r.remaining)
            && (r.tp2Hit <==> p.tp2Hit || (p.tp1Hit && TargetTouched(p, p.tp2, candle))) && r.tp1Hit == p.tp1Hit
            && r.remaining <= p.remaining
            && (r.tp2Hit == p.tp2Hit ==> r.remaining == p.remaining)
            && r.side == p.side && r.entry == p.entry && r.tp1 == p.tp1 && r.tp2 == p.tp2 && r.quantity == p.quantity
  {
    hide Gain, Slip, Fee, ExitPrice, Portion, Realized;
    PortionSizes(p.quantity);
    GainAdds(p.side, p.entry, p.tp2, 0.0, 0.0);
    if p.tp1Hit && !p.tp2Hit && TargetTouched(p, p.tp2, candle) {
      RealizedAccounts(p, p.tp2, Min(Portion(p.quantity, TP2_FRACTION), p.remaining), c);
    }
  }

  lemma TrailingKeepsOpen(p: Position, atr: real, c: Costs, initialStop: real)
    requires Open(p, initialStop) && SaneCosts(c)
    ensures var r := Trailed(p, atr, c);
            && Open(r, initialStop) && AtLeastAsTight(p.side, r.stop, p.stop)
            && r == p.(stop := r.stop)
  {
    hide Portion;
    if atr > 0.0 {
      MulMono(0.0, c.trailingAtr, atr);
    }
  }

  /**
    A candle that does not touch the stop keeps the position open: the stop only tightens, the
    targets are taken in order, and every part that leaves is accounted for at its raw price.
   */
  lemma StaysOpen(p: Position, candle: Candle, atr: real, c: Costs, initialStop: real)
    requires Open(p, initialStop) && SaneCosts(c) && SaneCandle(candle) && !StopTouched(p, candle)
    ensures var r, exits := Managed(p, candle, atr, c), ExitsOf(p, candle, c);
            && Open(r, initialStop) && AtLeastAsTight(p.side, r.stop, p.stop)
            && r.remaining == p.remaining - Sold(exits)
            && r.realized + r.slippage == p.realized + p.slippage + RawGain(p.side, p.entry, exits)
            && NoWorseThan(exits, p.side, initialStop)
            && (r.tp1Hit <==> p.tp1Hit || TargetTouched(p, p.tp1, candle))
            && (r.tp2Hit <==> p.tp2Hit || (r.tp1Hit && TargetTouched(p, p.tp2, candle)))
            && r.side == p.side && r.entry == p.entry && r.quantity == p.quantity
  {
    hide Gain, Slip, Fee, ExitPrice, Portion, Realized, RawGain, Sold, AfterFirstTarget, AfterSecondTarget, Trailed;
    var seen := Observed(p, candle);
    assert Open(seen, initialStop);
    FirstTargetAccounts(seen, candle, c, initialStop);
    var first := AfterFirstTarget(seen, candle, c);
    SecondTargetAccounts(first, candle, c, initialStop);
    var second := AfterSecondTarget(first, candle, c);
    TrailingKeepsOpen(second, atr, c, initialStop);
    var one, two := Exit(p.tp1, p.remaining - first.remaining), Exit(p.tp2, first.remaining - second.remaining);
    TwoExits(p.side, p.entry, one, first.tp1Hit && !p.tp1Hit, two, second.tp2Hit && !p.tp2Hit);
  }

  lemma TwoExits(side: PositionSide, from: real, one: Exit, useOne: bool, two: Exit, useTwo: bool)
    requires !useOne ==> one.quantity == 0.0
    requires !useTwo ==> two.quantity == 0.0
    ensures var exits := (if useOne then [one] else []) + (if useTwo then [two] else []);
            && Sold(exits) == one.quantity + two.quantity
            && RawGain(side, from, exits) == Gain(side, from, one.price, one.quantity) + Gain(side, from, two.price, two.quantity)
  {
    hide Gain;
    var a, b := if useOne then [one] else [], if useTwo then [two] else [];
    ExitsJoin(side, from, a, b);
    OneExit(side, from, one);
    OneExit(side, from, two);
    GainAdds(side, from, one.price, 0.0, 0.0);
    GainAdds(side, from, two.price, 0.0, 0.0);
  }

  // ----- A whole life -----

  /**
    Everything that left is on the list, and the result with slippage added back is the raw gain
    of the list plus the entry slippage of the whole quantity.
   */
  ghost predicate Accounted(p: Position, rawEntry: real, initialStop: real, exits: seq<Exit>) {
    && p.quantity == Sold(exits) + p.remaining
    && p.realized + p.slippage == Slip(p.entry, rawEntry, p.quantity) + RawGain(p.side, p.entry, exits)
    && NoWorseThan(exits, p.side, initialStop)
  }

  lemma ManagedAccounts(
    p: Position, candle: Candle, atr: real, c: Costs, rawEntry: real, initialStop: real, exits: seq<Exit>)
    requires Open(p, initialStop) && Accounted(p, rawEntry, initialStop, exits)
    requires SaneCosts(c) && SaneCandle(candle)
    ensures var r := Managed(p, candle, atr, c);
            && Accounted(r, rawEntry, initialStop, exits + ExitsOf(p, candle, c))
            && (if StopTouched(p, candle) then r.remaining == 0.0 else Open(r, initialStop))
            && AtLeastAsTight(p.side, r.stop, p.stop)
            && (p.tp1Hit ==> r.tp1Hit) && (r.tp2Hit ==> r.tp1Hit)
            && r.side == p.side && r.entry == p.entry && r.quantity == p.quantity
  {
    hide Slip, RawGain, Sold, Gain, Fee, ExitPrice, Portion, ExitsOf, AfterFirstTarget, AfterSecondTarget, Trailed, Tranches;
    ExitsJoin(p.side, p.entry, exits, ExitsOf(p, candle, c));
    if StopTouched(p, candle) {
      StoppedOut(p, candle, atr, c, initialStop);
    } else {
      StaysOpen(p, candle, atr, c, initialStop);
    }
  }

  lemma ClosedAtPriceAccounts(p: Position, price: real, c: Costs, rawEntry: real, initialStop: real, exits: seq<Exit>)
    requires Open(p, initialStop) && Accounted(p, rawEntry, initialStop, exits) && SaneCosts(c)
    requires price > 0.0 && AtLeastAsTight(p.side, price, initialStop)
    ensures var r := Realized(p, price, p.remaining, c);
            r.remaining == 0.0 && Accounted(r, rawEntry, initialStop, exits + [Exit(price, p.remaining)])
  {
    hide Slip, RawGain, Sold, Gain, Fee, ExitPrice, Portion, Realized;
    OpenHolds(p, initialStop);
    RealizedAccounts(p, price, p.remaining, c);
    ExitsJoin(p.side, p.entry, exits, [Exit(price, p.remaining)]);
    OneExit(p.side, p.entry, Exit(price, p.remaining));
  }

  /**
    A closed position's result, with slippage added back, is its gain at raw prices, and no
    worse than losing the distance from the raw entry to the initial stop on the whole quantity.
   */
  lemma ClosedResult(p: Position, rawEntry: real, rate: real, initialStop: real, exits: seq<Exit>)
    requires Accounted(p, rawEntry, initialStop, exits) && p.remaining == 0.0
    requires rawEntry >= 0.0 && rate >= 0.0 && p.entry == EntryPrice(p.side, rawEntry, rate)
    ensures Sold(exits) == p.quantity && NoWorseThan(exits, p.side, initialStop)
    ensures p.realized + p.slippage == RawGain(p.side, rawEntry, exits)
    ensures p.realized + p.slippage >= Gain(p.side, rawEntry, initialStop, p.quantity)
  {
    hide Slip, RawGain, Sold, Gain, EntryPrice;
    RawGainFromRawEntry(p.side, rawEntry, rate, exits);
    RawGainAtLeast(p.side, rawEntry, exits, initialStop);
  }

  /** Open or closed, a position's result never loses more than that distance on the whole quantity. */
  lemma LossIsBounded(p: Position, rawEntry: real, rate: real, initialStop: real, exits: seq<Exit>)
    requires Accounted(p, rawEntry, initialStop, exits) && p.remaining >= 0.0 && Tighter(p.side, p.entry, initialStop)
    requires rawEntry >= 0.0 && rate >= 0.0 && p.entry == EntryPrice(p.side, rawEntry, rate)
    ensures p.realized + p.slippage >= Gain(p.side, rawEntry, initialStop, p.quantity)
  {
    hide Slip, RawGain, Sold, Gain, EntryPrice;
    RawGainAtLeast(p.side, p.entry, exits, initialStop);
    EntrySlips(p.side, rawEntry, rate, initialStop, p.quantity);
    GainAdds(p.side, p.entry, initialStop, Sold(exits), p.remaining);
    TighterGainsMore(p.side, p.entry, p.entry, initialStop, p.remaining);
    NoMoveNoGain(p.side, p.entry, p.remaining);
  }

  lemma NoMoveNoGain(side: PositionSide, price: real, quantity: real)
    ensures Gain(side, price, price, quantity) == 0.0
  {
  }

  // ----- What a life costs -----

  /** What the exits are worth at raw prices. */
  function Turnover(exits: seq<Exit>): real {
    if exits == [] then 0.0
    else Turnover(exits[..|exits| - 1]) + Worth(exits[|exits| - 1].quantity, exits[|exits| - 1].price)
  }

  /** What is paid or received for a raw value on the way out: slippage is lost on it. */
  function Slipped(side: PositionSide, value: real, rate: real): real {
    value - Direction(side) * (value * rate)
  }

  /**
    In money: fees are a share of what was paid on the way in and received on the way out,
    slippage is a share of what both are worth at raw prices, and the result is what came out less
    what the sold part cost, the other way round for a short.
   */
  ghost predicate Costed(p: Position, rawEntry: real, exits: seq<Exit>, c: Costs) {
    var received := Slipped(p.side, Turnover(exits), c.slippageRate);
    && p.fees == Worth(Worth(p.quantity, p.entry) + received, c.feeRate)
    && p.slippage == Worth(Worth(p.quantity, rawEntry) + Turnover(exits), c.slippageRate)
    && p.realized == Direction(p.side) * (received - Worth(Sold(exits), p.entry))
  }

  lemma WorthAdds(a: real, b: real, price: real)
    ensures Worth(a + b, price) == Worth(a, price) + Worth(b, price)
  {
  }

  lemma SlippedAdds(side: PositionSide, a: real, b: real, rate: real)
    ensures Slipped(side, a + b, rate) == Slipped(side, a, rate) + Slipped(side, b, rate)
  {
    WorthAdds(a, b, rate);
    assert Worth(a + b, rate) == (a + b) * rate && Worth(a, rate) == a * rate && Worth(b, rate) == b * rate;
  }

  lemma ExitCosts(p: Position, raw: real, asked: real, c: Costs)
    requires raw >= 0.0 && SaneCosts(c) && 0.0 <= asked <= p.remaining
    ensures var r, value := Realized(p, raw, asked, c), Worth(asked, raw);
            var received := Slipped(p.side, value, c.slippageRate);
            && r.fees == p.fees + Worth(received, c.feeRate)
            && r.slippage == p.slippage + Worth(value, c.slippageRate)
            && r.realized == p.realized + Direction(p.side) * (received - Worth(asked, p.entry))
  {
    var price := ExitPrice(p.side, raw, c.slippageRate);
    var lost := raw * c.slippageRate;
    MulMono(0.0, c.slippageRate, raw);
    assert price == raw - Direction(p.side) * lost;
    LostOn(asked, raw, c.slippageRate);
    assert price * asked == Slipped(p.side, Worth(asked, raw), c.slippageRate);
    assert Fee(price, asked, c.feeRate) == Worth(price * asked, c.feeRate);
    assert Slip(price, raw, asked) == lost * asked;
    assert (price - p.entry) * asked == price * asked - Worth(asked, p.entry);
  }

  lemma LostOn(quantity: real, raw: real, rate: real)
    ensures Worth(quantity, raw) * rate == (raw * rate) * quantity
  {
  }

  /** Going in costs a share of the raw value, and a fee on the slipped one. */
  lemma EntryCosted(side: PositionSide, quantity: real, raw: real, c: Costs)
    requires raw >= 0.0 && SaneCosts(c)
    ensures var e := EntryPrice(side, raw, c.slippageRate);
            && Fee(e, quantity, c.feeRate) == Worth(Worth(quantity, e), c.feeRate)
            && Slip(e, raw, quantity) == Worth(Worth(quantity, raw), c.slippageRate)
    ensures Turnover([]) == 0.0 && Sold([]) == 0.0 && Slipped(side, 0.0, c.slippageRate) == 0.0
    ensures forall price :: Worth(0.0, price) == 0.0
  {
    var e := EntryPrice(side, raw, c.slippageRate);
    MulMono(0.0, c.slippageRate, raw);
    assert e == raw + Direction(side) * (raw * c.slippageRate);
    assert Slip(e, raw, quantity) == raw * c.slippageRate * quantity;
    LostOn(quantity, raw, c.slippageRate);
  }

  /** One more exit on the list costs what it costs. */
  lemma CostedMore(p: Position, rawEntry: real, exits: seq<Exit>, raw: real, asked: real, c: Costs)
    requires Costed(p, rawEntry, exits, c) && raw >= 0.0 && SaneCosts(c) && 0.0 <= asked <= p.remaining
    ensures Costed(Realized(p, raw, asked, c), rawEntry, exits + [Exit(raw, asked)], c)
  {
    hide Worth, Slipped, Sold, Gain, Slip, Fee, ExitPrice;
    var more := exits + [Exit(raw, asked)];
    assert more[..|more| - 1] == exits;
    var value, sum := Worth(asked, raw), Turnover(exits);
    assert Turnover(more) == sum + value;
    SoldMore(exits, Exit(raw, asked));
    ExitCosts(p, raw, asked, c);
    SlippedAdds(p.side, sum, value, c.slippageRate);
    WorthAdds(Worth(p.quantity, p.entry) + Slipped(p.side, sum, c.slippageRate), Slipped(p.side, value, c.slippageRate),
              c.feeRate);
    WorthAdds(Worth(p.quantity, rawEntry) + sum, value, c.slippageRate);
    WorthAdds(Sold(exits), asked, p.entry);
  }

  lemma SoldMore(exits: seq<Exit>, e: Exit)
    ensures Sold(exits + [e]) == Sold(exits) + e.quantity
  {
    assert (exits + [e])[..|exits|] == exits;
  }

  /** One candle keeps the costs in line with the list of exits. */
  lemma ManagedCosts(p: Position, candle: Candle, atr: real, c: Costs, rawEntry: real, initialStop: real, exits: seq<Exit>)
    requires Open(p, initialStop) && Costed(p, rawEntry, exits, c) && SaneCosts(c) && SaneCandle(candle)
    ensures Costed(Managed(p, candle, atr, c), rawEntry, exits + ExitsOf(p, candle, c), c)
  {
    hide Costed, Realized, Portion, BreakevenStop, TrailingStop, Tranches;
    OpenHolds(p, initialStop);
    PortionSizes(p.quantity);
    var seen := Observed(p, candle);
    CostedIgnores(p, seen, rawEntry, exits, c);
    if StopTouched(p, candle) {
      CostedMore(seen, rawEntry, exits, seen.stop, seen.remaining, c);
    } else {
      TargetsCost(p, candle, atr, c, rawEntry, initialStop, exits);
    }
  }

  lemma CostedIgnores(p: Position, q: Position, rawEntry: real, exits: seq<Exit>, c: Costs)
    requires Costed(p, rawEntry, exits, c)
    requires q.side == p.side && q.quantity == p.quantity && q.entry == p.entry
    requires q.fees == p.fees && q.slippage == p.slippage && q.realized == p.realized
    ensures Costed(q, rawEntry, exits, c)
  {
  }

  lemma RealizedParts(p: Position, raw: real, asked: real, c: Costs)
    requires 0.0 <= asked <= p.remaining
    ensures var r := Realized(p, raw, asked, c);
            && r.remaining == p.remaining - asked
            && r.side == p.side && r.quantity == p.quantity && r.entry == p.entry
            && r.tp2 == p.tp2 && r.tp2Hit == p.tp2Hit
  {
  }

  lemma FirstCosts(p: Position, candle: Candle, c: Costs, rawEntry: real, initialStop: real, exits: seq<Exit>)
    requires Open(p, initialStop) && Costed(p, rawEntry, exits, c) && SaneCosts(c)
    ensures var r := AfterFirstTarget(p, candle, c);
            Costed(r, rawEntry, if r.tp1Hit && !p.tp1Hit then exits + [Exit(p.tp1, p.remaining - r.remaining)] else exits, c)
  {
    hide Costed, Realized, Portion, BreakevenStop;
    if !p.tp1Hit && TargetTouched(p, p.tp1, candle) {
      PortionSizes(p.quantity);
      var part := Portion(p.quantity, TP1_FRACTION);
      CostedMore(p, rawEntry, exits, p.tp1, part, c);
      RealizedParts(p, p.tp1, part, c);
      var r := Realized(p, p.tp1, part, c);
      CostedIgnores(r, AfterFirstTarget(p, candle, c), rawEntry, exits + [Exit(p.tp1, part)], c);
    }
  }

  lemma SecondCosts(p: Position, candle: Candle, c: Costs, rawEntry: real, initialStop: real, exits: seq<Exit>)
    requires Open(p, initialStop) && Costed(p, rawEntry, exits, c) && SaneCosts(c)
    ensures var r := AfterSecondTarget(p, candle, c);
            Costed(r, rawEntry, if r.tp2Hit && !p.tp2Hit then exits + [Exit(p.tp2, p.remaining - r.remaining)] else exits, c)
  {
    hide Costed, Realized, Portion;
    if p.tp1Hit && !p.tp2Hit && TargetTouched(p, p.tp2, candle) {
      PortionSizes(p.quantity);
      OpenHolds(p, initialStop);
      var part := Min(Portion(p.quantity, TP2_FRACTION), p.remaining);
      CostedMore(p, rawEntry, exits, p.tp2, part, c);
      RealizedParts(p, p.tp2, part, c);
      var r := Realized(p, p.tp2, part, c);
      CostedIgnores(r, AfterSecondTarget(p, candle, c), rawEntry, exits + [Exit(p.tp2, part)], c);
    }
  }

  lemma SeenOpen(p: Position, candle: Candle, initialStop: real)
    requires Open(p, initialStop) && SaneCandle(candle)
    ensures Open(Observed(p, candle), initialStop)
  {
    hide Portion;
  }

  lemma TargetsCost(p: Position, candle: Candle, atr: real, c: Costs, rawEntry: real, initialStop: real, exits: seq<Exit>)
    requires Open(p, initialStop) && Costed(p, rawEntry, exits, c) && SaneCosts(c) && SaneCandle(candle)
    requires !StopTouched(p, candle)
    ensures Costed(Managed(p, candle, atr, c), rawEntry, exits + ExitsOf(p, candle, c), c)
  {
    hide Costed, Realized, Portion, BreakevenStop, TrailingStop, AfterFirstTarget, AfterSecondTarget, Tranches;
    var seen := Observed(p, candle);
    CostedIgnores(p, seen, rawEntry, exits, c);
    SeenOpen(p, candle, initialStop);
    FirstCosts(seen, candle, c, rawEntry, initialStop, exits);
    FirstTargetAccounts(seen, candle, c, initialStop);
    var first := AfterFirstTarget(seen, candle, c);
    var one := if first.tp1Hit && !p.tp1Hit then [Exit(p.tp1, p.remaining - first.remaining)] else [];
    assert exits + [] == exits;
    SecondCosts(first, candle, c, rawEntry, initialStop, exits + one);
    var second := AfterSecondTarget(first, candle, c);
    var two := if second.tp2Hit && !p.tp2Hit then [Exit(p.tp2, first.remaining - second.remaining)] else [];
    assert exits + (one + two) == exits + one + two;
    assert exits + one + [] == exits + one;
    CostedIgnores(second, Trailed(second, atr, c), rawEntry, exits + one + two, c);
  }

  class SimPosition {
    const side: PositionSide
    const quantity: real
    const entry: real
    const tp1: real
    const tp2: real
    var remaining: real
    var stop: real
    var highest: real
    var lowest: real
    var realized: real
    var fees: real
    var slippage: real
    var funding: real
    var tp1Hit: bool
    var tp2Hit: bool
    ghost const initialStop: real
    ghost const rawEntry: real
    ghost var exits: seq<Exit>

    constructor (side: PositionSide, quantity: real, rawEntry: real, stop: real, tp1: real, tp2: real, c: Costs)
      ensures var e := EntryPrice(side, rawEntry, c.slippageRate);
              && Value() == Position(side, quantity, e, tp1, tp2, quantity, stop, e, e, 0.0,
                                     Fee(e, quantity, c.feeRate), Slip(e, rawEntry, quantity), false, false)
      ensures this.rawEntry == rawEntry && initialStop == stop && exits == [] && funding == 0.0
    {
      var price := EntryPrice(side, rawEntry, c.slippageRate);
      this.side, this.quantity, this.entry, this.tp1, this.tp2 := side, quantity, price, tp1, tp2;
      remaining, this.stop, highest, lowest := quantity, stop, price, price;
      realized, fees, slippage, funding := 0.0, Fee(price, quantity, c.feeRate), Slip(price, rawEntry, quantity), 0.0;
      tp1Hit, tp2Hit := false, false;
      initialStop, this.rawEntry, exits := stop, rawEntry, [];
    }

    function Value(): Position
      reads this
    {
      Position(side, quantity, entry, tp1, tp2, remaining, stop, highest, lowest, realized, fees, slippage, tp1Hit, tp2Hit)
    }

    ghost predicate Live()
      reads this
    {
      Open(Value(), initialStop) && Accounted(Value(), rawEntry, initialStop, exits)
    }

    ghost predicate Closed()
      reads this
    {
      remaining == 0.0 && Accounted(Value(), rawEntry, initialStop, exits)
    }

    method Realize(raw: real, asked: real, c: Costs) returns (pnl: real, fee: real)
      modifies `remaining, `realized, `fees, `slippage
      ensures Value() == Realized(old(Value()), raw, asked, c)
      ensures realized == old(realized) + pnl && fees == old(fees) + fee
    {
      hide Slip, Fee, ExitPrice, Gain;
      var part := Min(asked, remaining);
      var price := ExitPrice(side, raw, c.slippageRate);
      pnl := Gain(side, entry, price, part);
      fee := Fee(price, part, c.feeRate);
      slippage := slippage + Slip(price, raw, part);
      realized := realized + pnl;
      fees := fees + fee;
      remaining := remaining - part;
    }

    /** The targets a candle reaches, and then the trailing stop. */
    method TakeTargets(candle: Candle, atr: real, c: Costs) returns (pnl: real, fee: real)
      modifies `remaining, `stop, `realized, `fees, `slippage, `tp1Hit, `tp2Hit
      ensures Value() == Trailed(AfterSecondTarget(AfterFirstTarget(old(Value()), candle, c), candle, c), atr, c)
      ensures realized == old(realized) + pnl && fees == old(fees) + fee
    {
      hide Realized, Portion, BreakevenStop, TrailingStop;
      ghost var before := Value();
      pnl, fee := 0.0, 0.0;
      if !tp1Hit {
        if if side.Long? then candle.high >= tp1 else candle.low <= tp1 {
          var p, f := Realize(tp1, Portion(quantity, TP1_FRACTION), c);
          pnl, fee := pnl + p, fee + f;
          tp1Hit := true;
          stop := BreakevenStop(entry, side, c.feeRate * 2.0);
        }
      }
      assert Value() == AfterFirstTarget(before, candle, c);
      if tp1Hit && !tp2Hit {
        if if side.Long? then candle.high >= tp2 else candle.low <= tp2 {
          var p, f := Realize(tp2, Min(Portion(quantity, TP2_FRACTION), remaining), c);
          pnl, fee := pnl + p, fee + f;
          tp2Hit := true;
        }
      }
      assert Value() == AfterSecondTarget(AfterFirstTarget(before, candle, c), candle, c);
      if tp2Hit && remaining > 0.0 && atr > 0.0 {
        stop := TrailingStop(stop, side, highest, lowest, atr, c.trailingAtr);
      }
    }

    /** One candle.  The returned profit and fee are exactly what was added to the running totals. */
    method Manage(candle: Candle, atr: real, c: Costs) returns (pnl: real, closed: bool, fee: real)
      modifies `remaining, `stop, `highest, `lowest, `realized, `fees, `slippage, `tp1Hit, `tp2Hit, `exits
      ensures Value() == Managed(old(Value()), candle, atr, c)
      ensures exits == old(exits) + ExitsOf(old(Value()), candle, c)
      ensures realized == old(realized) + pnl && fees == old(fees) + fee
      ensures closed <==> Closes(old(Value()), candle, Value())
      ensures old(Live()) && SaneCosts(c) && SaneCandle(candle) ==>
                && (closed <==> StopTouched(old(Value()), candle))
                && (if closed then Closed() else Live())
                && AtLeastAsTight(side, stop, old(stop))
    {
      hide Realized, Portion, Accounted, Open, ExitsOf, AfterFirstTarget, AfterSecondTarget, Trailed, SaneCandle, SaneCosts;
      ghost var before, sane := Value(), Live() && SaneCosts(c) && SaneCandle(candle);
      ClosesIffGone(before, candle, atr, c);
      if sane {
        ManagedAccounts(before, candle, atr, c, rawEntry, initialStop, exits);
        if !StopTouched(before, candle) {
          OpenHolds(Managed(before, candle, atr, c), initialStop);
        }
      }
      exits := exits + ExitsOf(before, candle, c);
      highest, lowest := Max(highest, candle.high), Min(lowest, candle.low);
      if (if side.Long? then candle.low <= stop else candle.high >= stop) {
        pnl, fee := Realize(stop, remaining, c);
        closed := true;
      } else {
        pnl, fee := TakeTargets(candle, atr, c);
        closed := remaining <= 0.0;
      }
    }

    method CloseRemaining(price: real, c: Costs) returns (net: real)
      modifies `remaining, `realized, `fees, `slippage, `exits
      ensures Value() == Realized(old(Value()), price, old(remaining), c) && remaining == 0.0
      ensures old(Live()) && SaneCosts(c) && price > 0.0 && AtLeastAsTight(side, price, initialStop) ==> Closed()
      ensures net == (realized - old(realized)) - (fees - old(fees))
      ensures exits == old(exits) + [Exit(price, old(remaining))]
    {
      hide Accounted, Open, Slip, Gain, Fee, ExitPrice;
      if Live() && SaneCosts(c) && price > 0.0 && AtLeastAsTight(side, price, initialStop) {
        ClosedAtPriceAccounts(Value(), price, c, rawEntry, initialStop, exits);
      }
      exits := exits + [Exit(price, remaining)];
      var pnl, fee := Realize(price, remaining, c);
      return pnl - fee;
    }
  }

  // ----- Replaying one planned action -----

  datatype PlannedAction = PlannedAction(
    side: PositionSide, quantity: real, entryMin: real, entryMax: real, stop: real, target: real)

  /** The whole entry band lies between stop and target. */
  predicate SaneAction(a: PlannedAction) {
    && a.quantity > 0.0 && a.stop > 0.0 && a.target > 0.0 && 0.0 < a.entryMin <= a.entryMax
    && Tighter(a.side, a.entryMin, a.stop) && Tighter(a.side, a.entryMax, a.stop)
    && Tighter(a.side, a.target, a.entryMin) && Tighter(a.side, a.target, a.entryMax)
  }

  /** A candle with the volatility and funding rate known for it; `None` where funding is not settled. */
  datatype Bar = Bar(candle: Candle, atr: real, fundingRate: Option<real>)

  predicate Reaches(a: PlannedAction, bar: Bar, decisionTime: int) {
    bar.candle.openTime >= decisionTime && bar.candle.low <= a.entryMax && bar.candle.high >= a.entryMin
  }

  function FillPrice(a: PlannedAction, candle: Candle): real {
    Min(Max(candle.open, a.entryMin), a.entryMax)
  }

  function FundingCost(p: Position, rate: Option<real>): real {
    if rate.None? then 0.0 else p.entry * p.remaining * rate.value * Direction(p.side)
  }

  /** A position over its remaining candles, until one closes it: position, funding paid, closed. */
  function LiveThrough(p: Position, funding: real, bars: seq<Bar>, c: Costs): (Position, real, bool)
    decreases |bars|
  {
    if bars == [] then (p, funding, false)
    else
      var paid := funding + FundingCost(p, bars[0].fundingRate);
      var r := Managed(p, bars[0].candle, bars[0].atr, c);
      if Closes(p, bars[0].candle, r) then (r, paid, true) else LiveThrough(r, paid, bars[1..], c)
  }

  /** The exits of a position over its remaining candles, in order; what is left leaves at the last close. */
  function ExitsThrough(p: Position, bars: seq<Bar>, c: Costs): seq<Exit>
    requires bars != []
    decreases |bars|
  {
    var now := ExitsOf(p, bars[0].candle, c);
    var r := Managed(p, bars[0].candle, bars[0].atr, c);
    if Closes(p, bars[0].candle, r) then now
    else if |bars| == 1 then now + [Exit(bars[0].candle.close, r.remaining)]
    else now + ExitsThrough(r, bars[1..], c)
  }

  /** Funding on what is held over each candle, at the candle's own rate. */
  function Charges(p: Position, bars: seq<Bar>, c: Costs): seq<(real, real)>
    decreases |bars|
  {
    if bars == [] then []
    else
      var r := Managed(p, bars[0].candle, bars[0].atr, c);
      [(if bars[0].fundingRate.Some? then bars[0].fundingRate.value else 0.0, p.remaining)]
      + (if Closes(p, bars[0].candle, r) then [] else Charges(r, bars[1..], c))
  }

  /** Value carried, weighted with the rates. */
  function Weighted(charges: seq<(real, real)>, entry: real): real {
    if charges == [] then 0.0 else Worth(charges[0].1, entry) * charges[0].0 + Weighted(charges[1..], entry)
  }

  /** Longs pay what shorts receive, on what is still held. */
  lemma {:induction false} FundingPaid(p: Position, funding: real, bars: seq<Bar>, c: Costs)
    ensures LiveThrough(p, funding, bars, c).1 == funding + Direction(p.side) * Weighted(Charges(p, bars, c), p.entry)
    decreases |bars|
  {
    hide Managed, Closes;
    if bars != [] {
      var r := Managed(p, bars[0].candle, bars[0].atr, c);
      ManagedKeeps(p, bars[0].candle, bars[0].atr, c);
      var rate := if bars[0].fundingRate.Some? then bars[0].fundingRate.value else 0.0;
      assert FundingCost(p, bars[0].fundingRate) == Direction(p.side) * (Worth(p.remaining, p.entry) * rate);
      hide FundingCost, Worth;
      var later := if Closes(p, bars[0].candle, r) then [] else Charges(r, bars[1..], c);
      assert Charges(p, bars, c) == [(rate, p.remaining)] + later;
      assert ([(rate, p.remaining)] + later)[1..] == later;
      if !Closes(p, bars[0].candle, r) {
        FundingPaid(r, funding + FundingCost(p, bars[0].fundingRate), bars[1..], c);
      }
    }
  }

  lemma ManagedKeeps(p: Position, candle: Candle, atr: real, c: Costs)
    ensures var r := Managed(p, candle, atr, c); r.side == p.side && r.entry == p.entry && r.quantity == p.quantity
  {
    hide Gain, Slip, Fee, ExitPrice, Portion, BreakevenStop, TrailingStop;
  }

  predicate SaneBars(bars: seq<Bar>) {
    forall i :: 0 <= i < |bars| ==> SaneCandle(bars[i].candle)
  }

  lemma LastExit(r: Position, price: real, c: Costs, rawEntry: real, initialStop: real, exits: seq<Exit>)
    requires Open(r, initialStop) && Accounted(r, rawEntry, initialStop, exits) && Costed(r, rawEntry, exits, c)
    requires SaneCosts(c) && price > 0.0 && AtLeastAsTight(r.side, price, initialStop)
    ensures var final, all := Realized(r, price, r.remaining, c), exits + [Exit(price, r.remaining)];
            && final.remaining == 0.0 && Accounted(final, rawEntry, initialStop, all) && Costed(final, rawEntry, all, c)
            && final.side == r.side && final.entry == r.entry && final.quantity == r.quantity
  {
    hide Accounted, Costed, Open;
    OpenHolds(r, initialStop);
    ClosedAtPriceAccounts(r, price, c, rawEntry, initialStop, exits);
    CostedMore(r, rawEntry, exits, price, r.remaining, c);
    RealizedParts(r, price, r.remaining, c);
  }

  /** From entry to the last exit: everything that left is on the list, and it cost what the list says. */
  lemma {:induction false} LifeCosts(
    p: Position, funding: real, bars: seq<Bar>, c: Costs, rawEntry: real, initialStop: real, exits: seq<Exit>)
    requires Open(p, initialStop) && Accounted(p, rawEntry, initialStop, exits) && Costed(p, rawEntry, exits, c)
    requires SaneCosts(c) && SaneBars(bars) && bars != []
    ensures var (end, _, stopped) := LiveThrough(p, funding, bars, c);
            var final := if stopped then end else Realized(end, bars[|bars| - 1].candle.close, end.remaining, c);
            var all := exits + ExitsThrough(p, bars, c);
            final.remaining == 0.0 && Accounted(final, rawEntry, initialStop, all) && Costed(final, rawEntry, all, c)
            && final.side == p.side && final.entry == p.entry && final.quantity == p.quantity
    decreases |bars|
  {
    hide Managed, ExitsOf, Accounted, Costed, Open, StopTouched, Realized, FundingCost;
    var bar := bars[0];
    var now, r := ExitsOf(p, bar.candle, c), Managed(p, bar.candle, bar.atr, c);
    ManagedAccounts(p, bar.candle, bar.atr, c, rawEntry, initialStop, exits);
    ManagedCosts(p, bar.candle, bar.atr, c, rawEntry, initialStop, exits);
    ClosesIffGone(p, bar.candle, bar.atr, c);
    if !StopTouched(p, bar.candle) {
      OpenHolds(r, initialStop);
    }
    LiveStep(p, funding, bars, c);
    var paid := funding + FundingCost(p, bar.fundingRate);
    if !Closes(p, bar.candle, r) {
      if |bars| == 1 {
        LiveEnd(r, paid, c);
        OpenHolds(r, initialStop);
        CloseNoWorse(p, bar.candle, initialStop);
        LastExit(r, bar.candle.close, c, rawEntry, initialStop, exits + now);
        assert exits + (now + [Exit(bar.candle.close, r.remaining)]) == exits + now + [Exit(bar.candle.close, r.remaining)];
      } else {
        LifeCosts(r, paid, bars[1..], c, rawEntry, initialStop, exits + now);
        assert exits + (now + ExitsThrough(r, bars[1..], c)) == exits + now + ExitsThrough(r, bars[1..], c);
      }
    }
  }

  /** What is left at the end of the candles leaves at the last close. */
  function Settlement(p: Position, bars: seq<Bar>, c: Costs): PaperResult
    requires bars != []
  {
    var (end, funding, stopped) := LiveThrough(p, 0.0, bars, c);
    var final := if stopped then end else Realized(end, bars[|bars| - 1].candle.close, end.remaining, c);
    Settled(final, funding, final.realized - final.fees - funding, stopped)
  }

  datatype PaperResult =
    | NotFilled
    | InvalidGeometry
    | Settled(final: Position, funding: real, net: real, byPolicy: bool)

  /** The position an action opens at a raw price. */
  function Filled(a: PlannedAction, raw: real, c: Costs): Position {
    var e := EntryPrice(a.side, raw, c.slippageRate);
    var tp1 := FirstTakeProfit(e, a.stop, a.target, a.side);
    Position(a.side, a.quantity, e, if tp1.Some? then tp1.value else a.target, a.target, a.quantity, a.stop, e, e, 0.0,
             Fee(e, a.quantity, c.feeRate), Slip(e, raw, a.quantity), false, false)
  }

  lemma EntryKeepsSide(a: PlannedAction, raw: real, c: Costs)
    requires SaneAction(a) && SaneCosts(c) && a.entryMin <= raw <= a.entryMax
    ensures var e := EntryPrice(a.side, raw, c.slippageRate);
            && e > 0.0 && Tighter(a.side, e, a.stop)
            && (Tighter(a.side, a.target, e) ==>
                  var t := FirstTakeProfit(e, a.stop, a.target, a.side);
                  t.Some? && t.value > 0.0)
  {
    assert raw * c.slippageRate >= 0.0;
    MulStrict(c.slippageRate, 1.0, raw);
    assert EntryPrice(a.side, raw, c.slippageRate) == raw + Direction(a.side) * (raw * c.slippageRate);
  }

  lemma EntryCosts(a: PlannedAction, raw: real, c: Costs)
    requires raw >= 0.0 && SaneCosts(c)
    ensures Costed(Filled(a, raw, c), raw, [], c)
  {
    EntryCosted(a.side, a.quantity, raw, c);
    hide EntryPrice, Slip, Fee, Worth;
  }

  /** The result of a replayed action is what its exits and its carried value come to, in money. */
  lemma PaperCosts(a: PlannedAction, raw: real, bars: seq<Bar>, c: Costs)
    requires SaneAction(a) && SaneCosts(c) && SaneBars(bars) && bars != []
    requires a.entryMin <= raw <= a.entryMax && Tradable(a, raw, c)
    ensures var p, r := Filled(a, raw, c), Settlement(Filled(a, raw, c), bars, c);
            var exits := ExitsThrough(p, bars, c);
            && Sold(exits) == a.quantity && Costed(r.final, raw, exits, c)
            && r.funding == Direction(a.side) * Weighted(Charges(p, bars, c), p.entry)
            && r.net == r.final.realized - r.final.fees - r.funding
  {
    hide Costed, LiveThrough, ExitsThrough, Realized, EntryPrice, Slip, Fee, Gain;
    EntryKeepsSide(a, raw, c);
    EntryCosts(a, raw, c);
    var p := Filled(a, raw, c);
    assert Accounted(p, raw, a.stop, []);
    LifeCosts(p, 0.0, bars, c, raw, a.stop, []);
    assert [] + ExitsThrough(p, bars, c) == ExitsThrough(p, bars, c);
    FundingPaid(p, 0.0, bars, c);
  }

  /** The raw price an action fills at, if the bar at `i` is the first to reach its band. */
  ghost predicate FillsAt(a: PlannedAction, bars: seq<Bar>, decisionTime: int, i: nat, raw: real) {
    && i < |bars| && Reaches(a, bars[i], decisionTime) && raw == FillPrice(a, bars[i].candle)
    && forall j :: 0 <= j < i ==> !Reaches(a, bars[j], decisionTime)
  }

  /** What a settled result says about the trade that was made. */
  ghost predicate SettledResult(r: PaperResult, a: PlannedAction, c: Costs, raw: real, exits: seq<Exit>) {
    r.Settled? ==>
      && r.final.side == a.side && r.final.quantity == a.quantity && r.final.remaining == 0.0
      && Sold(exits) == a.quantity && NoWorseThan(exits, a.side, a.stop)
      && r.final.realized + r.final.slippage == RawGain(a.side, raw, exits)
      && r.final.realized + r.final.slippage >= Gain(a.side, raw, a.stop, a.quantity)
      && r.net == r.final.realized - r.final.fees - r.funding
  }

  /** An action, costs and candles that a plan and a market can produce. */
  ghost predicate SaneInputs(a: PlannedAction, bars: seq<Bar>, c: Costs) {
    SaneAction(a) && SaneCosts(c) && forall i :: 0 <= i < |bars| ==> SaneCandle(bars[i].candle)
  }

  /** There is room for a first target between the slipped entry and the target. */
  predicate Tradable(a: PlannedAction, raw: real, c: Costs) {
    var entry := EntryPrice(a.side, raw, c.slippageRate);
    entry != a.stop && Tighter(a.side, a.target, entry)
  }

  method OpenPaper(a: PlannedAction, candle: Candle, c: Costs) returns (position: SimPosition?)
    ensures var raw := FillPrice(a, candle);
            && (position == null <==> !Tradable(a, raw, c))
            && (position != null ==>
                  && fresh(position) && position.rawEntry == raw && position.initialStop == a.stop
                  && position.side == a.side && position.quantity == a.quantity && position.funding == 0.0
                  && position.exits == [] && position.Value() == Filled(a, raw, c)
                  && position.entry == EntryPrice(a.side, raw, c.slippageRate)
                  && (SaneAction(a) && SaneCosts(c) ==> position.Live()))
  {
    hide Slip, Fee, EntryPrice, Gain;
    var raw := FillPrice(a, candle);
    var entry := EntryPrice(a.side, raw, c.slippageRate);
    if SaneAction(a) && SaneCosts(c) {
      EntryKeepsSide(a, raw, c);
    }
    var tp1 := FirstTakeProfit(entry, a.stop, a.target, a.side);
    if tp1.None? {
      return null;
    }
    position := new SimPosition(a.side, a.quantity, raw, a.stop, tp1.value, a.target, c);
  }

  method SettlePaper(position: SimPosition, byPolicy: bool, lastClose: real, c: Costs) returns (r: PaperResult)
    requires byPolicy <==> position.remaining <= 0.0
    modifies position
    ensures position.Value() == if byPolicy then old(position.Value())
                                else Realized(old(position.Value()), lastClose, old(position.remaining), c)
    ensures position.funding == old(position.funding)
    ensures r == Settled(position.Value(), position.funding, position.realized - position.fees - position.funding, byPolicy)
    ensures SaneCosts(c) && position.rawEntry >= 0.0
            && position.entry == EntryPrice(position.side, position.rawEntry, c.slippageRate)
            && (if byPolicy then old(position.Closed())
                else old(position.Live()) && lastClose > 0.0
                     && AtLeastAsTight(position.side, lastClose, position.initialStop)) ==>
              && position.Closed()
              && Sold(position.exits) == position.quantity
              && NoWorseThan(position.exits, position.side, position.initialStop)
              && position.realized + position.slippage == RawGain(position.side, position.rawEntry, position.exits)
              && position.realized + position.slippage >=
                 Gain(position.side, position.rawEntry, position.initialStop, position.quantity)
  {
    hide Slip, Fee, EntryPrice, Gain, Open, RawGain, Sold, Realized;
    if position.remaining > 0.0 {
      var _ := position.CloseRemaining(lastClose, c);
    }
    if SaneCosts(c) && position.rawEntry >= 0.0 && position.Closed()
       && position.entry == EntryPrice(position.side, position.rawEntry, c.slippageRate) {
      ClosedResult(position.Value(), position.rawEntry, c.slippageRate, position.initialStop, position.exits);
    }
    return Settled(position.Value(), position.funding, position.realized - position.fees - position.funding, byPolicy);
  }

  /**
    Replay one action over the candles from its decision on.  It fills at the first candle that
    reaches the entry band, at the open clamped to the band, and a filled action is always settled
    in full.  If the action lies between its stop and target, its result with slippage added back is
    its gain at raw prices, and it loses no more than the distance to the initial stop.
   */
  method SimulatePaperAction(a: PlannedAction, bars: seq<Bar>, decisionTime: int, c: Costs)
    returns (r: PaperResult, ghost filledAt: nat, ghost raw: real, ghost exits: seq<Exit>)
    requires forall i, j :: 0 <= i <= j < |bars| ==> bars[i].candle.openTime <= bars[j].candle.openTime
    ensures r.NotFilled? <==> forall i :: 0 <= i < |bars| ==> !Reaches(a, bars[i], decisionTime)
    ensures !r.NotFilled? ==> FillsAt(a, bars, decisionTime, filledAt, raw)
    ensures r.InvalidGeometry? <==> !r.NotFilled? && !Tradable(a, raw, c)
    ensures r.Settled? ==> r == Settlement(Filled(a, raw, c), bars[filledAt..], c)
    ensures SaneInputs(a, bars, c) ==> SettledResult(r, a, c, raw, exits)
  {
    hide Slip, Fee, EntryPrice, Gain, Open, Accounted, RawGain, Sold, FundingCost, Managed, ExitsOf, StopTouched,
      Realized, Filled, LiveThrough, SaneInputs;
    var position: SimPosition? := null;
    var lastClose, byPolicy := 0.0, false;
    filledAt, raw, exits := 0, 0.0, [];
    var i := 0;
    while i < |bars| && !byPolicy
      invariant i <= |bars|
      invariant position == null ==> forall j :: 0 <= j < i ==> !Reaches(a, bars[j], decisionTime)
      invariant position == null ==> !byPolicy
      invariant position != null ==>
                  && fresh(position) && FillsAt(a, bars, decisionTime, filledAt, raw) && Tradable(a, raw, c)
                  && position.rawEntry == raw && position.initialStop == a.stop
                  && position.side == a.side && position.quantity == a.quantity
                  && position.entry == EntryPrice(a.side, raw, c.slippageRate)
                  && (byPolicy <==> position.remaining <= 0.0)
                  && filledAt < i && lastClose == bars[i - 1].candle.close
                  && LiveThrough(Filled(a, raw, c), 0.0, bars[filledAt..], c) ==
                     (if byPolicy then (position.Value(), position.funding, true)
                      else LiveThrough(position.Value(), position.funding, bars[i..], c))
      invariant position != null && SaneInputs(a, bars, c) ==>
                  && (if byPolicy then position.Closed() else position.Live())
                  && (!byPolicy ==> lastClose > 0.0 && AtLeastAsTight(a.side, lastClose, a.stop))
    {
      var bar := bars[i];
      SanePart(a, bars, c, i);
      if bar.candle.openTime >= decisionTime {
        if position == null && Reaches(a, bar, decisionTime) {
          position := OpenPaper(a, bar.candle, c);
          filledAt, raw := i, FillPrice(a, bar.candle);
          if position == null {
            return InvalidGeometry, filledAt, raw, exits;
          }
        }
        if position != null {
          LiveStep(position.Value(), position.funding, bars[i..], c);
          assert bars[i..][0] == bars[i] && bars[i..][1..] == bars[i + 1..];
          byPolicy := LiveOn(position, bar, c);
          lastClose := bar.candle.close;
        }
      }
      i := i + 1;
    }
    if position == null {
      return NotFilled, filledAt, raw, exits;
    }
    assert !byPolicy ==> bars[i..] == [];
    LiveEnd(position.Value(), position.funding, c);
    RawNotNegative(a, bars, c, decisionTime, filledAt, raw);
    r := SettlePaper(position, byPolicy, lastClose, c);
    exits := position.exits;
  }

  lemma SanePart(a: PlannedAction, bars: seq<Bar>, c: Costs, i: nat)
    requires i < |bars|
    ensures SaneInputs(a, bars, c) ==> SaneAction(a) && SaneCosts(c) && SaneCandle(bars[i].candle)
  {
  }

  lemma RawNotNegative(a: PlannedAction, bars: seq<Bar>, c: Costs, decisionTime: int, i: nat, raw: real)
    requires FillsAt(a, bars, decisionTime, i, raw)
    ensures SaneInputs(a, bars, c) ==> SaneCosts(c) && raw >= 0.0
  {
  }

  lemma LiveEnd(p: Position, funding: real, c: Costs)
    ensures LiveThrough(p, funding, [], c) == (p, funding, false)
  {
  }

  lemma LiveStep(p: Position, funding: real, bars: seq<Bar>, c: Costs)
    requires bars != []
    ensures var paid, r := funding + FundingCost(p, bars[0].fundingRate), Managed(p, bars[0].candle, bars[0].atr, c);
            LiveThrough(p, funding, bars, c) ==
            if Closes(p, bars[0].candle, r) then (r, paid, true) else LiveThrough(r, paid, bars[1..], c)
  {
  }

  /** One candle of a filled action: funding first, then the exits. */
  method LiveOn(position: SimPosition, bar: Bar, c: Costs) returns (closed: bool)
    modifies position
    ensures position.Value() == Managed(old(position.Value()), bar.candle, bar.atr, c)
    ensures position.funding == old(position.funding) + FundingCost(old(position.Value()), bar.fundingRate)
    ensures closed <==> Closes(old(position.Value()), bar.candle, position.Value())
    ensures closed <==> position.remaining <= 0.0
    ensures old(position.Live()) && SaneCosts(c) && SaneCandle(bar.candle) ==>
              && (if closed then position.Closed() else position.Live())
              && (!closed ==> bar.candle.close > 0.0 && AtLeastAsTight(position.side, bar.candle.close, position.initialStop))
  {
    hide Open, Accounted, Managed, ExitsOf, FundingCost, StopTouched, Closes;
    if SaneCandle(bar.candle) {
      CloseNoWorse(position.Value(), bar.candle, position.initialStop);
    }
    ClosesIffGone(position.Value(), bar.candle, bar.atr, c);
    position.funding := position.funding + FundingCost(position.Value(), bar.fundingRate);
    var _, stopped, _ := position.Manage(bar.candle, bar.atr, c);
    return stopped;
  }

  lemma CloseNoWorse(p: Position, candle: Candle, initialStop: real)
    requires SaneCandle(candle)
    ensures Open(p, initialStop) && !StopTouched(p, candle) ==>
              candle.close > 0.0 && AtLeastAsTight(p.side, candle.close, initialStop)
  {
  }
}
