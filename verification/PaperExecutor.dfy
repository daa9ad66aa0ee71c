/**
  Paper execution with average-cost accounting over several symbols.  The reference is the
  plain list of trades: what was paid, what was received, what is held.
 */
module PaperExecutor {
  import opened Common

  datatype Action = Buy | Sell | Hold

  /** Inventory of one symbol: signed quantity and average entry price. */
  datatype Lot = Lot(quantity: real, averageEntry: real)

  const FLAT := Lot(0.0, 0.0)

  datatype Fill = Fill(
    symbol: string, action: Action, quantity: real, price: real, fee: real,
    closed: real, gross: real, net: real, inventoryBefore: real, inventoryAfter: real, averageAfter: real)

  datatype Snapshot = Snapshot(
    inventory: real, inventoryNotional: real, realized: real, unrealized: real, fees: real, total: real, fills: nat)

  function Signed(action: Action, quantity: real): real {
    if action.Buy? then quantity else -quantity
  }

  // ----- Average cost, one lot -----

  predicate SameDirection(a: real, b: real) {
    (a > 0.0 && b > 0.0) || (a < 0.0 && b < 0.0)
  }

  predicate Opposite(a: real, b: real) {
    (a > 0.0 && b < 0.0) || (a < 0.0 && b > 0.0)
  }

  function ClosedQuantity(lot: Lot, signed: real): real {
    if Opposite(lot.quantity, signed) then Min(Abs(lot.quantity), Abs(signed)) else 0.0
  }

  function GrossRealized(lot: Lot, signed: real, price: real): real {
    if !Opposite(lot.quantity, signed) then 0.0
    else if lot.quantity > 0.0 then (price - lot.averageEntry) * ClosedQuantity(lot, signed)
    else (lot.averageEntry - price) * ClosedQuantity(lot, signed)
  }

  /** Quantity-weighted average price. */
  function Average(a: real, x: real, b: real, y: real): real
    requires a >= 0.0 && b > 0.0
  {
    (a * x + b * y) / (a + b)
  }

  function Filled(lot: Lot, signed: real, price: real): Lot
    requires signed != 0.0
  {
    var after := lot.quantity + signed;
    var average :=
      if lot.quantity == 0.0 || SameDirection(lot.quantity, signed) then
        Average(Abs(lot.quantity), lot.averageEntry, Abs(signed), price)
      else if after == 0.0 then 0.0
      else if Opposite(after, lot.quantity) then price
      else lot.averageEntry;
    Lot(after, average)
  }

  /** A lot has an entry price exactly when it holds something. */
  predicate ValidLot(lot: Lot) {
    && lot.averageEntry >= 0.0
    && (lot.averageEntry == 0.0 <==> lot.quantity == 0.0)
  }

  function Basis(lot: Lot): real {
    lot.quantity * lot.averageEntry
  }

  lemma QuotientPositive(n: real, d: real)
    requires n > 0.0 && d > 0.0
    ensures n / d > 0.0
  {
    if n / d <= 0.0 {
      MulMono(n / d, 0.0, d);
    }
  }

  lemma Weighted(a: real, x: real, b: real, y: real)
    requires a >= 0.0 && b > 0.0 && x >= 0.0 && y > 0.0
    ensures Average(a, x, b, y) * (a + b) == a * x + b * y
    ensures Average(a, x, b, y) > 0.0
  {
    assert a * x >= 0.0 && b * y > 0.0;
    QuotientPositive(a * x + b * y, a + b);
  }

  /** Realized profit is exactly the cash received plus the change in cost basis. */
  lemma FillBalances(lot: Lot, signed: real, price: real)
    requires ValidLot(lot) && signed != 0.0 && price > 0.0
    ensures ValidLot(Filled(lot, signed, price)) && Filled(lot, signed, price).quantity == lot.quantity + signed
    ensures GrossRealized(lot, signed, price) == -(signed * price) + Basis(Filled(lot, signed, price)) - Basis(lot)
  {
    var q, avg := lot.quantity, lot.averageEntry;
    if Opposite(q, signed) {
      CloseBalances(lot, signed, price);
    } else {
      var after := Filled(lot, signed, price);
      Weighted(Abs(q), avg, Abs(signed), price);
      if signed > 0.0 {
        Commute(after.averageEntry, after.quantity);
      } else {
        Commute(after.averageEntry, -after.quantity);
        Negate(after.quantity, after.averageEntry);
        Negate(q, avg);
        Negate(signed, price);
      }
    }
  }

  lemma Commute(a: real, b: real)
    ensures a * b == b * a
  {
  }

  lemma Negate(a: real, b: real)
    ensures (-a) * b == -(a * b)
  {
  }

  lemma CloseBalances(lot: Lot, signed: real, price: real)
    requires ValidLot(lot) && price > 0.0 && Opposite(lot.quantity, signed)
    ensures ValidLot(Filled(lot, signed, price))
    ensures GrossRealized(lot, signed, price) == -(signed * price) + Basis(Filled(lot, signed, price)) - Basis(lot)
  {
    CloseKeepsValid(lot, signed, price);
    if Abs(signed) > Abs(lot.quantity) {
      FlipBalances(lot, signed, price);
    } else if signed == -lot.quantity {
      ExactCloseBalances(lot, signed, price);
    } else if lot.quantity > 0.0 {
      LongReductionBalances(lot, signed, price);
    } else {
      ShortReductionBalances(lot, signed, price);
    }
  }

  lemma CloseKeepsValid(lot: Lot, signed: real, price: real)
    requires ValidLot(lot) && price > 0.0 && Opposite(lot.quantity, signed)
    ensures ValidLot(Filled(lot, signed, price))
  {
  }

  lemma LongReductionBalances(lot: Lot, signed: real, price: real)
    requires lot.quantity > 0.0 && signed < 0.0 && -signed < lot.quantity
    ensures GrossRealized(lot, signed, price) == -(signed * price) + Basis(Filled(lot, signed, price)) - Basis(lot)
  {
    assert ClosedQuantity(lot, signed) == -signed;
  }

  lemma ShortReductionBalances(lot: Lot, signed: real, price: real)
    requires lot.quantity < 0.0 && signed > 0.0 && signed < -lot.quantity
    ensures GrossRealized(lot, signed, price) == -(signed * price) + Basis(Filled(lot, signed, price)) - Basis(lot)
  {
    assert ClosedQuantity(lot, signed) == signed;
  }

  lemma ExactCloseBalances(lot: Lot, signed: real, price: real)
    requires lot.quantity != 0.0 && signed == -lot.quantity
    ensures GrossRealized(lot, signed, price) == -(signed * price) + Basis(Filled(lot, signed, price)) - Basis(lot)
  {
    assert Filled(lot, signed, price) == FLAT;
    assert ClosedQuantity(lot, signed) == Abs(lot.quantity);
  }

  lemma FlipBalances(lot: Lot, signed: real, price: real)
    requires Opposite(lot.quantity, signed) && Abs(signed) > Abs(lot.quantity)
    ensures GrossRealized(lot, signed, price) == -(signed * price) + Basis(Filled(lot, signed, price)) - Basis(lot)
  {
    assert ClosedQuantity(lot, signed) == Abs(lot.quantity);
  }

  // ----- The list of trades -----

  datatype Trade = Trade(symbol: string, signed: real, price: real)

  function Inventory(log: seq<Trade>, symbol: string): real {
    if log == [] then 0.0
    else
      var last := log[|log| - 1];
      Inventory(log[..|log| - 1], symbol) + (if last.symbol == symbol then last.signed else 0.0)
  }

  /** Money received for what was sold, less money paid for what was bought. */
  function CashFlow(log: seq<Trade>): real {
    if log == [] then 0.0
    else CashFlow(log[..|log| - 1]) - log[|log| - 1].signed * log[|log| - 1].price
  }

  function Fee(quantity: real, price: real, rate: real): real {
    Abs(price * quantity) * rate
  }

  lemma FeeOfFill(quantity: real, price: real, rate: real)
    requires quantity > 0.0 && price > 0.0
    ensures Fee(quantity, price, rate) == quantity * price * rate
  {
    MulStrict(0.0, quantity, price);
  }

  function Fees(log: seq<Trade>, rate: real): real {
    if log == [] then 0.0
    else Fees(log[..|log| - 1], rate) + Fee(log[|log| - 1].signed, log[|log| - 1].price, rate)
  }

  // ----- Valuation -----

  function Unrealized(lot: Lot, mark: real): real {
    if lot.quantity > 0.0 then (mark - lot.averageEntry) * lot.quantity
    else if lot.quantity < 0.0 then (lot.averageEntry - mark) * Abs(lot.quantity)
    else 0.0
  }

  lemma UnrealizedMeaning(lot: Lot, mark: real)
    ensures Unrealized(lot, mark) == lot.quantity * mark - Basis(lot)
  {
    if lot.quantity < 0.0 {
      Commute(lot.averageEntry - mark, -lot.quantity);
    }
  }

  function BasisBy(lots: map<string, Lot>): string -> real {
    s => if s in lots then Basis(lots[s]) else 0.0
  }

  function UnrealizedBy(lots: map<string, Lot>, marks: map<string, real>): string -> real {
    s => if s in lots && s in marks then Unrealized(lots[s], marks[s]) else 0.0
  }

  function Notional(lot: Lot, mark: real): real {
    Abs(lot.quantity * mark)
  }

  function NotionalBy(lots: map<string, Lot>, marks: map<string, real>): string -> real {
    s => if s in lots && s in marks then Notional(lots[s], marks[s]) else 0.0
  }

  function QuantityBy(lots: map<string, Lot>, marks: map<string, real>): string -> real {
    s => if s in lots && s in marks then lots[s].quantity else 0.0
  }

  lemma NotionalMeaning(lot: Lot, mark: real)
    ensures Notional(lot, mark) == if lot.quantity * mark >= 0.0 then lot.quantity * mark else -(lot.quantity * mark)
  {
  }

  /** What one symbol adds to the totals: what the trades left of it, at its mark, and nothing without one. */
  lemma MarkedMeaning(lots: map<string, Lot>, log: seq<Trade>, marks: map<string, real>, s: string)
    requires LotsAgree(lots, log) && s in lots
    ensures var held := Inventory(log, s);
            if s !in marks then
              QuantityBy(lots, marks)(s) == NotionalBy(lots, marks)(s) == UnrealizedBy(lots, marks)(s) == 0.0
            else
              && QuantityBy(lots, marks)(s) == held
              && NotionalBy(lots, marks)(s) == (if held * marks[s] >= 0.0 then held * marks[s] else -(held * marks[s]))
              && UnrealizedBy(lots, marks)(s) == held * marks[s] - Basis(lots[s])
  {
    hide Inventory, Unrealized, Basis;
    if s in marks {
      UnrealizedMeaning(lots[s], marks[s]);
      NotionalMeaning(lots[s], marks[s]);
      hide Notional;
    }
  }

  /** Worth of what the trades left behind in each symbol, at the given marks. */
  function WorthBy(log: seq<Trade>, marks: map<string, real>): string -> real {
    s => if s in marks then Inventory(log, s) * marks[s] else 0.0
  }

  // ----- Books that agree with the trades -----

  ghost predicate LotsAgree(lots: map<string, Lot>, log: seq<Trade>) {
    && (forall s :: s in lots ==> ValidLot(lots[s]) && lots[s].quantity == Inventory(log, s))
    && (forall s :: s !in lots ==> Inventory(log, s) == 0.0)
  }

  predicate Indexed(symbols: seq<string>, lots: map<string, Lot>) {
    Distinct(symbols) && (forall s :: s in symbols ==> s in lots) && (forall s :: s in lots ==> s in symbols)
  }

  ghost predicate MoneyAgrees(
    symbols: seq<string>, lots: map<string, Lot>, realized: real, fees: real, feeRate: real, log: seq<Trade>) {
    && fees == Fees(log, feeRate)
    && realized + fees == CashFlow(log) + SumOver(symbols, BasisBy(lots))
  }

  lemma OpeningKeepsMoney(
    symbols: seq<string>, lots: map<string, Lot>, realized: real, fees: real, feeRate: real, log: seq<Trade>, symbol: string)
    requires Indexed(symbols, lots) && symbol !in lots
    requires MoneyAgrees(symbols, lots, realized, fees, feeRate, log)
    ensures Indexed(symbols + [symbol], lots[symbol := FLAT])
    ensures MoneyAgrees(symbols + [symbol], lots[symbol := FLAT], realized, fees, feeRate, log)
  {
    var more := symbols + [symbol];
    assert more[..|more| - 1] == symbols;
    SumSame(symbols, BasisBy(lots), BasisBy(lots[symbol := FLAT]));
  }

  lemma TradeKeepsMoney(
    symbols: seq<string>, lots: map<string, Lot>, realized: real, fees: real, feeRate: real, log: seq<Trade>,
    trade: Trade, lot: Lot, gross: real, fee: real)
    requires Indexed(symbols, lots) && trade.symbol in lots
    requires MoneyAgrees(symbols, lots, realized, fees, feeRate, log)
    requires gross == -(trade.signed * trade.price) + Basis(lot) - Basis(lots[trade.symbol])
    requires fee == Fee(trade.signed, trade.price, feeRate)
    ensures Indexed(symbols, lots[trade.symbol := lot])
    ensures MoneyAgrees(symbols, lots[trade.symbol := lot], realized + (gross - fee), fees + fee, feeRate, log + [trade])
  {
    assert (log + [trade])[..|log|] == log;
    SumUpdated(symbols, BasisBy(lots), BasisBy(lots[trade.symbol := lot]), trade.symbol);
    hide Basis, Fee;
  }

  lemma TradeKeepsLots(lots: map<string, Lot>, log: seq<Trade>, trade: Trade, lot: Lot)
    requires LotsAgree(lots, log) && trade.symbol in lots
    requires ValidLot(lot) && lot.quantity == lots[trade.symbol].quantity + trade.signed
    ensures LotsAgree(lots[trade.symbol := lot], log + [trade])
    ensures forall s :: Inventory(log + [trade], s) == Inventory(log, s) + (if s == trade.symbol then trade.signed else 0.0)
  {
    assert (log + [trade])[..|log|] == log;
  }

  lemma LotUnrealized(lots: map<string, Lot>, log: seq<Trade>, marks: map<string, real>, s: string)
    requires s in lots && s in marks && lots[s].quantity == Inventory(log, s)
    ensures UnrealizedBy(lots, marks)(s) == WorthBy(log, marks)(s) - BasisBy(lots)(s)
  {
    UnrealizedMeaning(lots[s], marks[s]);
    assert UnrealizedBy(lots, marks)(s) == Unrealized(lots[s], marks[s]);
    assert WorthBy(log, marks)(s) == lots[s].quantity * marks[s];
    assert BasisBy(lots)(s) == Basis(lots[s]);
  }

  /** With every mark given, unrealized profit is market value less cost basis. */
  lemma UnrealizedIsWorthLessBasis(symbols: seq<string>, lots: map<string, Lot>, log: seq<Trade>, marks: map<string, real>)
    requires Indexed(symbols, lots) && LotsAgree(lots, log)
    requires forall s :: s in symbols ==> s in marks
    ensures SumOver(symbols, UnrealizedBy(lots, marks)) == SumOver(symbols, WorthBy(log, marks)) - SumOver(symbols, BasisBy(lots))
  {
    forall s | s in symbols
      ensures UnrealizedBy(lots, marks)(s) == WorthBy(log, marks)(s) - BasisBy(lots)(s)
    {
      LotUnrealized(lots, log, marks, s);
    }
    hide UnrealizedBy, WorthBy, BasisBy;
    SumDifference(symbols, UnrealizedBy(lots, marks), WorthBy(log, marks), BasisBy(lots));
  }

  /** One fill, with every amount an `HftFill` reports of it. */
  function FillOf(lot: Lot, symbol: string, action: Action, price: real, quantity: real, feeRate: real): Fill
    requires !action.Hold? && quantity > 0.0
  {
    var signed := Signed(action, quantity);
    var gross := GrossRealized(lot, signed, price);
    var fee := Fee(quantity, price, feeRate);
    var after := Filled(lot, signed, price);
    Fill(symbol, action, quantity, price, fee, ClosedQuantity(lot, signed), gross, gross - fee,
         lot.quantity, after.quantity, after.averageEntry)
  }

  ghost predicate Consistent(
    symbols: seq<string>, lots: map<string, Lot>, realized: real, fees: real, feeRate: real, log: seq<Trade>) {
    && Indexed(symbols, lots)
    && LotsAgree(lots, log)
    && MoneyAgrees(symbols, lots, realized, fees, feeRate, log)
  }

  /** What a fill means for the books: inventory moves by the trade, profit is cash plus change of basis. */
  ghost predicate FillMeans(f: Fill, lot: Lot, trade: Trade, feeRate: real) {
    && f.symbol == trade.symbol
    && ValidLot(Lot(f.inventoryAfter, f.averageAfter))
    && f.inventoryBefore == lot.quantity && f.inventoryAfter == lot.quantity + trade.signed
    && f.gross == -(trade.signed * trade.price) + Basis(Lot(f.inventoryAfter, f.averageAfter)) - Basis(lot)
    && f.fee == Fee(trade.signed, trade.price, feeRate)
    && f.net == f.gross - f.fee
  }

  lemma FillOfMeaning(lot: Lot, symbol: string, action: Action, price: real, quantity: real, feeRate: real)
    requires ValidLot(lot) && !action.Hold? && quantity > 0.0 && price > 0.0
    ensures FillMeans(FillOf(lot, symbol, action, price, quantity, feeRate), lot,
                      Trade(symbol, Signed(action, quantity), price), feeRate)
  {
    var signed := Signed(action, quantity);
    FillBalances(lot, signed, price);
    FeeOfSigned(action, quantity, price, feeRate);
    hide Filled, GrossRealized, ClosedQuantity, Basis, Fee;
  }

  lemma FillInPlain(lot: Lot, symbol: string, action: Action, price: real, quantity: real, feeRate: real)
    requires ValidLot(lot) && !action.Hold? && quantity > 0.0 && price > 0.0
    ensures var f := FillOf(lot, symbol, action, price, quantity, feeRate);
            && f.symbol == symbol && f.quantity == quantity && f.price == price
            && f.inventoryAfter == lot.quantity + Signed(action, quantity)
            && f.inventoryAfter == (if action.Buy? then lot.quantity + quantity else lot.quantity - quantity)
            && f.inventoryBefore == lot.quantity
            && f.fee == quantity * price * feeRate
  {
    FillOfMeaning(lot, symbol, action, price, quantity, feeRate);
    FeeOfFill(quantity, price, feeRate);
    hide Filled, GrossRealized, ClosedQuantity, Basis, Fee;
  }

  /** Booking a fill keeps lots, money and fees in step with the list of trades. */
  lemma FillKeepsBooks(
    symbols: seq<string>, lots: map<string, Lot>, realized: real, fees: real, feeRate: real, log: seq<Trade>,
    trade: Trade, f: Fill)
    requires Consistent(symbols, lots, realized, fees, feeRate, log) && trade.symbol in lots
    requires FillMeans(f, lots[trade.symbol], trade, feeRate)
    ensures Consistent(symbols, lots[f.symbol := Lot(f.inventoryAfter, f.averageAfter)],
                       realized + f.net, fees + f.fee, feeRate, log + [trade])
    ensures f.inventoryBefore == Inventory(log, trade.symbol)
    ensures f.inventoryAfter == Inventory(log + [trade], trade.symbol)
  {
    var lot := Lot(f.inventoryAfter, f.averageAfter);
    TradeKeepsMoney(symbols, lots, realized, fees, feeRate, log, trade, lot, f.gross, f.fee);
    TradeKeepsLots(lots, log, trade, lot);
  }

  lemma OpeningKeepsBooks(
    symbols: seq<string>, lots: map<string, Lot>, realized: real, fees: real, feeRate: real, log: seq<Trade>, symbol: string)
    requires Consistent(symbols, lots, realized, fees, feeRate, log) && symbol !in lots
    ensures Consistent(symbols + [symbol], lots[symbol := FLAT], realized, fees, feeRate, log)
  {
    hide CashFlow, Fees, SumOver, Basis;
    OpeningKeepsMoney(symbols, lots, realized, fees, feeRate, log, symbol);
  }

  /** Realized plus unrealized profit, told by the trades alone. */
  lemma TotalIsCashPlusWorth(
    symbols: seq<string>, lots: map<string, Lot>, realized: real, fees: real, feeRate: real, log: seq<Trade>,
    marks: map<string, real>)
    requires Consistent(symbols, lots, realized, fees, feeRate, log)
    requires forall s :: s in symbols ==> s in marks
    ensures realized + SumOver(symbols, UnrealizedBy(lots, marks)) ==
            CashFlow(log) + SumOver(symbols, WorthBy(log, marks)) - Fees(log, feeRate)
  {
    hide CashFlow, Fees, SumOver, Inventory;
    UnrealizedIsWorthLessBasis(symbols, lots, log, marks);
  }

  lemma FeeOfSigned(action: Action, quantity: real, price: real, rate: real)
    ensures Fee(quantity, price, rate) == Fee(Signed(action, quantity), price, rate)
  {
    assert Abs(price * quantity) == Abs(price * -quantity);
  }

  // ----- The executor -----

  datatype ExecutionError = NotActionable | NonPositiveQuantity

  class HftPaperExecutor {
    const feeRate: real
    /** Symbols in the order they were first traded, as a Python dictionary keeps them. */
    var symbols: seq<string>
    var positions: map<string, Lot>
    var realized: real
    var fees: real
    var fillCount: nat
    ghost var log: seq<Trade>

    constructor (feeRate: real)
      requires feeRate >= 0.0
      ensures Valid() && this.feeRate == feeRate && log == []
    {
      this.feeRate := feeRate;
      symbols, positions, realized, fees, fillCount, log := [], map[], 0.0, 0.0, 0, [];
    }

    ghost predicate Valid()
      reads this
    {
      && feeRate >= 0.0
      && Consistent(symbols, positions, realized, fees, feeRate, log)
      && fillCount == |log|
    }

    function PositionOf(symbol: string): (lot: Lot)
      reads this
    {
      if symbol in positions then positions[symbol] else FLAT
    }

    method InventoryOf(symbol: string) returns (quantity: real)
      requires Valid()
      ensures quantity == Inventory(log, symbol)
    {
      return PositionOf(symbol).quantity;
    }

    /** `setdefault`: an unknown symbol gets a flat lot. */
    method Locate(symbol: string)
      requires Valid()
      modifies `symbols, `positions
      ensures Valid() && symbol in positions && PositionOf(symbol) == old(PositionOf(symbol))
      ensures forall s :: PositionOf(s) == old(PositionOf(s))
    {
      hide CashFlow, Fees, SumOver, Basis;
      if symbol !in positions {
        OpeningKeepsBooks(symbols, positions, realized, fees, feeRate, log, symbol);
        symbols := symbols + [symbol];
        positions := positions[symbol := FLAT];
      }
    }

    method Book(fill: Fill, ghost trade: Trade)
      requires Valid() && trade.symbol in positions
      requires FillMeans(fill, positions[trade.symbol], trade, feeRate)
      modifies this
      ensures Valid() && log == old(log) + [trade]
      ensures fill.inventoryBefore == Inventory(old(log), fill.symbol)
      ensures fill.inventoryAfter == Inventory(log, fill.symbol)
      ensures realized == old(realized) + fill.net && fees == old(fees) + fill.fee
      ensures PositionOf(fill.symbol) == Lot(fill.inventoryAfter, fill.averageAfter)
      ensures forall s :: s != fill.symbol ==> PositionOf(s) == old(PositionOf(s))
    {
      hide CashFlow, Fees, SumOver, Basis;
      FillKeepsBooks(symbols, positions, realized, fees, feeRate, log, trade, fill);
      positions := positions[fill.symbol := Lot(fill.inventoryAfter, fill.averageAfter)];
      realized, fees, fillCount := realized + fill.net, fees + fill.fee, fillCount + 1;
      log := log + [trade];
    }

    /** A buy fills at the best ask, a sell at the best bid; a refused order changes nothing. */
    method Execute(symbol: string, action: Action, bestBid: real, bestAsk: real, quantity: real)
      returns (r: Result<Fill, ExecutionError>)
      requires Valid() && bestBid > 0.0 && bestAsk > 0.0
      modifies this
      ensures Valid()
      ensures r == Err(NotActionable) <==> action.Hold?
      ensures r == Err(NonPositiveQuantity) <==> !action.Hold? && quantity <= 0.0
      ensures r.Err? <==> action.Hold? || quantity <= 0.0
      ensures r.Err? ==> unchanged(this)
      ensures r.Ok? ==>
                var price := if action.Buy? then bestAsk else bestBid;
                && r.value == FillOf(old(PositionOf(symbol)), symbol, action, price, quantity, feeRate)
                && log == old(log) + [Trade(symbol, Signed(action, quantity), price)]
                && r.value.inventoryBefore == Inventory(old(log), symbol)
                && r.value.inventoryAfter == Inventory(log, symbol)
                && r.value.quantity == quantity && r.value.price == price
                && r.value.inventoryAfter == r.value.inventoryBefore + Signed(action, quantity)
                && r.value.inventoryAfter == (if action.Buy? then r.value.inventoryBefore + quantity
                                              else r.value.inventoryBefore - quantity)
                && r.value.fee == quantity * price * feeRate
                && realized == old(realized) + r.value.net && fees == old(fees) + r.value.fee
    {
      hide FillOf, FillMeans, MoneyAgrees, Inventory, Signed;
      if action.Hold? {
        return Err(NotActionable);
      }
      if quantity <= 0.0 {
        return Err(NonPositiveQuantity);
      }
      Locate(symbol);
      var price := if action.Buy? then bestAsk else bestBid;
      var fill := FillOf(positions[symbol], symbol, action, price, quantity, feeRate);
      FillOfMeaning(positions[symbol], symbol, action, price, quantity, feeRate);
      FillInPlain(positions[symbol], symbol, action, price, quantity, feeRate);
      Book(fill, Trade(symbol, Signed(action, quantity), price));
      return Ok(fill);
    }

    /** Totals over the symbols that have a mark; the others are passed over. */
    method SumMarked(marks: map<string, real>) returns (unrealized: real, notional: real, inventory: real)
      requires Indexed(symbols, positions)
      ensures unrealized == SumOver(symbols, UnrealizedBy(positions, marks))
      ensures notional == SumOver(symbols, NotionalBy(positions, marks))
      ensures inventory == SumOver(symbols, QuantityBy(positions, marks))
    {
      unrealized, notional, inventory := 0.0, 0.0, 0.0;
      for i := 0 to |symbols|
        invariant unrealized == SumOver(symbols[..i], UnrealizedBy(positions, marks))
        invariant notional == SumOver(symbols[..i], NotionalBy(positions, marks))
        invariant inventory == SumOver(symbols[..i], QuantityBy(positions, marks))
      {
        assert symbols[..i + 1][..i] == symbols[..i];
        var s := symbols[i];
        if s in marks {
          unrealized := unrealized + Unrealized(positions[s], marks[s]);
          notional := notional + Notional(positions[s], marks[s]);
          inventory := inventory + positions[s].quantity;
        }
      }
      assert symbols[..|symbols|] == symbols;
    }

    /**
      Profit over all symbols.  If every traded symbol has a mark, the total is the signed cash
      flow of the trades, plus what is left at market, less the fees on every trade.
     */
    method AggregateSnapshot(marks: map<string, real>) returns (r: Snapshot)
      requires Valid()
      ensures r.realized == realized && r.fees == fees && r.fills == |log|
      ensures r.unrealized == SumOver(symbols, UnrealizedBy(positions, marks))
      ensures r.inventoryNotional == SumOver(symbols, NotionalBy(positions, marks))
      ensures r.inventory == SumOver(symbols, QuantityBy(positions, marks))
      ensures (forall s :: s in symbols ==> s in marks) ==>
                r.total == CashFlow(log) + SumOver(symbols, WorthBy(log, marks)) - Fees(log, feeRate)
    {
      hide CashFlow, Fees, SumOver, Inventory;
      var unrealized, notional, inventory := SumMarked(marks);
      if forall s :: s in symbols ==> s in marks {
        TotalIsCashPlusWorth(symbols, positions, realized, fees, feeRate, log, marks);
      }
      return Snapshot(inventory, notional, realized, unrealized, fees, realized + unrealized, fillCount);
    }
  }
}
