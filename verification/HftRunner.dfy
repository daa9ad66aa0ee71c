/**
  The high-frequency runner: every depth event advances a mirrored book, and an applied event
  may lead, through the risk manager, to one paper fill.  The facts proved here are about
  whole runs of that composed step.
 */
module HftRunner {
  import opened Common
  import opened OrderBook
  import opened PaperExecutor
  import opened HftRisk

  /** What one pass reads from the settings. */
  datatype Settings = Settings(limits: Limits, minInterval: real, orderNotional: real)

  /** Clock readings of one pass: event received, pass begun, fill recorded. */
  datatype Clock = Clock(received: real, now: real, recorded: real)

  datatype Outcome =
    | UnknownSymbol
    | NotApplied(status: Status)
    | Resynchronized(success: bool)
    | MetricsRaised
    | Throttled
    | NotAllowed(reason: Refusal)
    | Filled(fill: Fill)

  /** One item of the runner's queue; `signal` is whatever the signal engine answers. */
  datatype Item =
    | Connected(snapshots: map<string, OrderBook.Snapshot>)
    | Depth(event: Event, signal: Action, clock: Clock, resync: Option<OrderBook.Snapshot>)
    | Stopped

  // ----- Whole runs, told by the trades and the closing results -----

  /** Every trade from `first` on kept the cap at its own price, or only shrank its position. */
  ghost predicate TradesWithinCap(log: seq<Trade>, first: nat, cap: real) {
    forall i :: first <= i < |log| ==>
      WithinCap(Inventory(log[..i], log[i].symbol), Inventory(log[..i + 1], log[i].symbol), log[i].price, cap)
  }

  /** No closing result from `first` on came after a losing streak of `maxLosses`. */
  ghost predicate NoneAfterStreak(closings: seq<real>, first: nat, maxLosses: int) {
    forall i :: first <= i < |closings| ==> TrailingLosses(closings[..i]) < maxLosses
  }

  lemma TradesWithinCapGrows(log: seq<Trade>, first: nat, cap: real, trade: Trade)
    requires TradesWithinCap(log, first, cap)
    requires WithinCap(Inventory(log, trade.symbol), Inventory(log + [trade], trade.symbol), trade.price, cap)
    ensures TradesWithinCap(log + [trade], first, cap)
  {
    hide WithinCap, Inventory;
    var more := log + [trade];
    forall i | first <= i < |more|
      ensures WithinCap(Inventory(more[..i], more[i].symbol), Inventory(more[..i + 1], more[i].symbol), more[i].price, cap)
    {
      if i < |log| {
        assert more[..i] == log[..i] && more[..i + 1] == log[..i + 1];
      } else {
        assert more[..i] == log && more[..i + 1] == more;
      }
    }
  }

  lemma NoneAfterStreakGrows(closings: seq<real>, first: nat, maxLosses: int, net: real)
    requires NoneAfterStreak(closings, first, maxLosses) && TrailingLosses(closings) < maxLosses
    ensures NoneAfterStreak(closings + [net], first, maxLosses)
    ensures TrailingLosses(closings + [net]) <= maxLosses
  {
    var more := closings + [net];
    assert more[..|closings|] == closings;
    forall i | first <= i < |more|
      ensures TrailingLosses(more[..i]) < maxLosses
    {
      if i < |closings| {
        assert more[..i] == closings[..i];
      }
    }
  }

  /** From `first` on, every fill is made at least the cooldown after the one before it was recorded. */
  predicate Spaced(times: seq<(real, real)>, first: nat, cooldown: real) {
    forall i :: first < i < |times| ==> times[i].0 - times[i - 1].1 >= cooldown
  }

  predicate LastRaised(outcomes: seq<Outcome>) {
    outcomes != [] && outcomes[|outcomes| - 1].MetricsRaised?
  }

  /** How many of the symbols have a snapshot. */
  function Arrived(symbols: seq<string>, snapshots: map<string, OrderBook.Snapshot>): nat {
    if symbols == [] then 0
    else Arrived(symbols[..|symbols| - 1], snapshots) + (if symbols[|symbols| - 1] in snapshots then 1 else 0)
  }

  lemma {:induction false} ArrivedCounts(symbols: seq<string>, snapshots: map<string, OrderBook.Snapshot>)
    requires Distinct(symbols)
    ensures Arrived(symbols, snapshots) == |set s | s in symbols && s in snapshots|
  {
    if symbols != [] {
      var front, last := symbols[..|symbols| - 1], symbols[|symbols| - 1];
      ArrivedCounts(front, snapshots);
      assert forall s :: s in symbols <==> s in front || s == last;
      var before, all := set s | s in front && s in snapshots, set s | s in symbols && s in snapshots;
      assert all == if last in snapshots then before + {last} else before;
    }
  }


  class HftRunner {
    const symbols: seq<string>
    const books: map<string, DiffOrderBook>
    const risk: HftRiskManager
    const executor: HftPaperExecutor
    var lastProcessed: map<string, real>
    var marks: map<string, real>

    /** The exchange's own books, and the prices each of its snapshots is complete on. */
    ghost const truth: string -> History
    ghost const extent: (string, OrderBook.Snapshot) -> Coverage
    ghost var covered: map<string, Coverage>

    /** The items handled so far, what came of the depth events among them, and when each fill was made and recorded. */
    ghost var handled: seq<Item>
    ghost var outcomes: seq<Outcome>
    ghost var fillTimes: seq<(real, real)>

    constructor (symbols: seq<string>, limits: Limits, feeRate: real,
                 ghost truth: string -> History, ghost extent: (string, OrderBook.Snapshot) -> Coverage)
      requires feeRate >= 0.0
      requires forall s :: SaneHistory(truth(s))
      ensures Valid() && fresh(risk) && fresh(executor) && fresh(books.Values)
      ensures risk.limits == limits && !risk.halted && risk.closings == [] && executor.log == []
      ensures this.symbols == symbols && forall s :: s in books ==> books[s].lastUpdateId.None?
      ensures lastProcessed == map[] && marks == map[] && handled == [] && outcomes == [] && fillTimes == []
    {
      hide SaneHistory, Consistent, TrailingLosses;
      var made: map<string, DiffOrderBook> := map[];
      for i := 0 to |symbols|
        invariant forall s :: s in symbols[..i] <==> s in made
        invariant forall s :: s in made ==> fresh(made[s]) && made[s].symbol == s && made[s].lastUpdateId.None?
      {
        var book := new DiffOrderBook(symbols[i]);
        made := made[symbols[i] := book];
      }
      var manager := new HftRiskManager(limits);
      var paper := new HftPaperExecutor(feeRate);
      this.symbols, books, risk, executor := symbols, made, manager, paper;
      lastProcessed, marks := map[], map[];
      handled, outcomes, fillTimes := [], [], [];
      this.truth, this.extent := truth, extent;
      covered := map s | s in made :: Coverage(iset{}, iset{});
    }

    ghost predicate Books()
      reads `covered, books.Values
    {
      && (forall s :: s in symbols <==> s in books)
      && (forall s :: s in books ==> s in covered && books[s].symbol == s)
      && (forall s :: s in books ==> SaneHistory(truth(s)) && Mirrors(books[s].Value(), truth(s), covered[s]))
    }

    ghost predicate Valid()
      reads `covered, risk, executor, books.Values
    {
      Books() && risk.Valid() && executor.Valid()
    }

    /** What the exchange sends is true of its books. */
    ghost predicate Genuine(item: Item)
    {
      match item
      case Connected(snapshots) => forall s :: s in snapshots ==> GenuineSnapshot(s, snapshots[s])
      case Depth(e, _, _, resync) =>
        && OrderBook.Genuine(e, truth(e.symbol))
        && (resync.Some? ==> GenuineSnapshot(e.symbol, resync.value))
      case Stopped => true
    }

    ghost predicate GenuineSnapshot(symbol: string, s: OrderBook.Snapshot) {
      SnapshotTrue(s, truth(symbol), extent(symbol, s))
    }

    // ----- Books -----

    method Synchronize(symbol: string, snapshot: OrderBook.Snapshot)
      requires Books() && symbol in books && GenuineSnapshot(symbol, snapshot)
      modifies books[symbol], `covered
      ensures Books()
      ensures books[symbol].Value() == SnapshotBook(old(books[symbol].Value()), snapshot)
      ensures books[symbol].lastUpdateId == Some(snapshot.lastUpdateId)
    {
      hide Mirrors, SnapshotTrue, SaneHistory;
      SnapshotMirrors(books[symbol].Value(), snapshot, truth(symbol), extent(symbol, snapshot));
      books[symbol].ApplySnapshot(snapshot);
      covered := covered[symbol := extent(symbol, snapshot)];
    }

    method ResetBook(symbol: string)
      requires Books() && symbol in books
      modifies books[symbol]
      ensures Books() && books[symbol].Value() == OrderBook.ResetBook(old(books[symbol].Value()))
    {
      books[symbol].Clear();
    }

    /** Apply one event; a gap resets the book and asks for a snapshot, which may not come. */
    method AdvanceBook(event: Event, received: real, resync: Option<OrderBook.Snapshot>) returns (status: Status)
      requires Books() && event.symbol in books
      requires OrderBook.Genuine(event, truth(event.symbol))
      requires resync.Some? ==> GenuineSnapshot(event.symbol, resync.value)
      modifies books[event.symbol], `covered
      ensures Books()
      ensures status == Classify(old(books[event.symbol].Value()), event)
      ensures !status.Gap? ==> books[event.symbol].Value() == EventBook(old(books[event.symbol].Value()), event, received)
      ensures status.Applied? ==> books[event.symbol].receivedAt == received
      ensures status.Gap? && resync.None? ==> books[event.symbol].lastUpdateId.None?
      ensures status.Gap? && resync.Some? ==> books[event.symbol].lastUpdateId == Some(resync.value.lastUpdateId)
    {
      hide Mirrors, SnapshotTrue, SaneHistory, OrderBook.Genuine, Covering, Classify;
      var symbol := event.symbol;
      ghost var before := books[symbol].Value();
      EventKeepsMirror(before, event, received, truth(symbol), covered[symbol]);
      status := books[symbol].ApplyEvent(event, received);
      covered := covered[symbol := Covering(before, event, covered[symbol])];
      if status.Gap? {
        ResetBook(symbol);
        if resync.Some? {
          Synchronize(symbol, resync.value);
        }
      }
    }

    // ----- From a signal to a fill -----

    /** With limits that stay as they are, the manager is halted exactly when the streak is long enough. */
    ghost predicate HaltExact(maxLosses: int)
      reads risk
    {
      risk.halted <==> TrailingLosses(risk.closings) >= maxLosses
    }

    /** What the risk manager answers once limits are refreshed. */
    ghost function Answer(symbol: string, signal: Action, price: real, receivedAt: real, settings: Settings, now: real)
      : Decision
      requires price > 0.0
      reads risk, executor
    {
      Admission(signal, price, receivedAt, Inventory(executor.log, symbol), settings.orderNotional, now,
                risk.halted && TrailingLosses(risk.closings) >= settings.limits.maxLosses, risk.lastTrade, settings.limits)
    }

    /** A refusal is passed on; an allowed quantity is filled. */
    ghost predicate Answered(outcome: Outcome, decision: Decision) {
      match decision
      case Refused(reason) => outcome == NotAllowed(reason)
      case Allowed(quantity, _) => outcome.Filled? && outcome.fill.quantity == quantity
    }

    /** A fill starts the cooldown; nothing else does. */
    ghost predicate Cooling(outcome: Outcome, before: Option<real>, recorded: real)
      reads risk
    {
      risk.lastTrade == if outcome.Filled? then Some(recorded) else before
    }

    /** Limits are refreshed, the signal is checked, and an allowed one is executed and recorded. */
    method ActOn(symbol: string, signal: Action, quote: Quote, receivedAt: real, settings: Settings, clock: Clock)
      returns (outcome: Outcome)
      requires risk.Valid() && executor.Valid() && quote.bestBid > 0.0 && quote.bestAsk > 0.0
      modifies risk, executor
      ensures risk.Valid() && executor.Valid() && risk.limits == settings.limits
      ensures outcome.NotAllowed? || outcome.Filled?
      ensures Answered(outcome, old(Answer(symbol, signal, PriceOf(signal, quote.bestBid, quote.bestAsk), receivedAt,
                                           settings, clock.now)))
      ensures Timely(outcome, receivedAt, old(risk.lastTrade), settings, clock.now)
      ensures Cooling(outcome, old(risk.lastTrade), clock.recorded)
      ensures outcome == NotAllowed(NoSignal) <==> signal.Hold?
      ensures outcome == NotAllowed(Breaker) <==>
                !signal.Hold? && old(risk.halted) && TrailingLosses(old(risk.closings)) >= settings.limits.maxLosses
      ensures outcome.NotAllowed? ==> executor.log == old(executor.log) && risk.closings == old(risk.closings)
      ensures outcome.Filled? ==>
                var f := outcome.fill;
                var price := PriceOf(signal, quote.bestBid, quote.bestAsk);
                && !signal.Hold?
                && f.price == price
                && executor.log == old(executor.log) + [Trade(symbol, Signed(signal, f.quantity), price)]
                && WithinCap(Inventory(old(executor.log), symbol), Inventory(executor.log, symbol), price, settings.limits.maxInventory)
                && risk.closings == (if f.closed > 0.0 then old(risk.closings) + [f.net] else old(risk.closings))
                && !(old(risk.halted) && TrailingLosses(old(risk.closings)) >= settings.limits.maxLosses)
      ensures risk.halted ==> TrailingLosses(risk.closings) >= settings.limits.maxLosses
      ensures old(HaltExact(settings.limits.maxLosses)) && settings.limits.maxLosses > 0 ==> HaltExact(settings.limits.maxLosses)
    {
      hide WithinCap, Inventory, Consistent, FillOf, Worth, TrailingLosses, Sized;
      risk.UpdateLimits(settings.limits);
      var inventory := executor.InventoryOf(symbol);
      var decision := risk.Check(signal, quote.bestBid, quote.bestAsk, receivedAt, inventory, settings.orderNotional, clock.now);
      if decision.Refused? {
        return NotAllowed(decision.reason);
      }
      var result := executor.Execute(symbol, signal, quote.bestBid, quote.bestAsk, decision.quantity);
      var fill := result.value;
      if fill.closed > 0.0 {
        risk.RecordFill(fill.closed, fill.net, clock.recorded);
      } else {
        risk.RecordOpeningFill(clock.recorded);
      }
      return Filled(fill);
    }

    /** What a fill of this pass is, given the book it was made from and the trades before it. */
    ghost predicate GoodFill(f: Fill, symbol: string, signal: Action, book: Book, log: seq<Trade>,
                             closings: seq<real>, cap: real)
      reads risk, executor
    {
      && executor.log == log + [Trade(symbol, Signed(signal, f.quantity), f.price)]
      && (if signal.Buy? then IsBestAsk(book.asks, f.price) else IsBestBid(book.bids, f.price))
      && WithinCap(Inventory(log, symbol), Inventory(executor.log, symbol), f.price, cap)
      && risk.closings == (if f.closed > 0.0 then closings + [f.net] else closings)
    }

    /** A fill answers a quote that is not stale, and keeps its distance from the trade before. */
    ghost predicate Timely(outcome: Outcome, receivedAt: real, lastTrade: Option<real>, settings: Settings, now: real) {
      && (outcome.Filled? ==>
            && (receivedAt > 0.0 ==> now - receivedAt <= settings.limits.stale)
            && (lastTrade.Some? ==> now - lastTrade.value >= settings.limits.cooldown))
      && (outcome == NotAllowed(MarketStale) ==> receivedAt > 0.0 && now - receivedAt > settings.limits.stale)
      && (outcome == NotAllowed(Cooldown) ==> lastTrade.Some? && now - lastTrade.value < settings.limits.cooldown)
    }

    /** A pass gets as far as the risk check only if the previous one of its symbol is long enough ago. */
    ghost predicate Paced(outcome: Outcome, symbol: string, before: map<string, real>, minInterval: real, now: real)
      reads `lastProcessed
    {
      && (outcome.Throttled? ==> symbol in before && now - before[symbol] < minInterval)
      && (if outcome.NotAllowed? || outcome.Filled?
          then lastProcessed == before[symbol := now] && (symbol in before ==> now - before[symbol] >= minInterval)
          else lastProcessed == before)
    }

    /** A pass that finds a quote marks the symbol half way between the best bid and the best ask. */
    ghost predicate MarkedAs(outcome: Outcome, book: Book, before: map<string, real>)
      reads `marks
    {
      if outcome.Throttled? || outcome.NotAllowed? || outcome.Filled?
      then exists bid, ask :: IsBestBid(book.bids, bid) && IsBestAsk(book.asks, ask)
                              && marks == before[book.symbol := (bid + ask) / 2.0]
      else marks == before
    }

    ghost predicate Timed(outcome: Outcome, before: seq<(real, real)>, clock: Clock)
      reads `fillTimes
    {
      fillTimes == before + if outcome.Filled? then [(clock.now, clock.recorded)] else []
    }

    /** The part of a pass that follows an applied event. */
    method ReactTo(book: DiffOrderBook, signal: Action, settings: Settings, clock: Clock) returns (outcome: Outcome)
      requires risk.Valid() && executor.Valid() && settings.limits.maxLosses > 0
      modifies `marks, `lastProcessed, `fillTimes, risk, executor
      ensures risk.Valid() && executor.Valid()
      ensures outcome.MetricsRaised? || outcome.Throttled? || outcome.NotAllowed? || outcome.Filled?
      ensures outcome.Filled? ==>
                && GoodFill(outcome.fill, book.symbol, signal, book.Value(), old(executor.log), old(risk.closings),
                            settings.limits.maxInventory)
                && !(old(risk.halted) && TrailingLosses(old(risk.closings)) >= settings.limits.maxLosses)
      ensures !outcome.Filled? ==> executor.log == old(executor.log) && risk.closings == old(risk.closings)
      ensures Paced(outcome, book.symbol, old(lastProcessed), settings.minInterval, clock.now)
      ensures Timely(outcome, book.receivedAt, old(risk.lastTrade), settings, clock.now)
      ensures Cooling(outcome, old(risk.lastTrade), clock.recorded)
      ensures MarkedAs(outcome, book.Value(), old(marks))
      ensures Timed(outcome, old(fillTimes), clock)
      ensures outcome.NotAllowed? || outcome.Filled? ==>
                exists bid, ask :: IsBestBid(book.bids, bid) && IsBestAsk(book.asks, ask) && bid > 0.0 && ask > 0.0
                                   && Answered(outcome, old(Answer(book.symbol, signal, PriceOf(signal, bid, ask),
                                                                   book.receivedAt, settings, clock.now)))
      ensures old(HaltExact(settings.limits.maxLosses)) ==> HaltExact(settings.limits.maxLosses)
    {
      hide WithinCap, Inventory, Consistent, TrailingLosses;
      var metrics := book.Metrics();
      if metrics.None? {
        return MetricsRaised;
      }
      var quote, symbol := metrics.value, book.symbol;
      marks := marks[symbol := quote.mid];
      if symbol in lastProcessed && clock.now - lastProcessed[symbol] < settings.minInterval {
        return Throttled;
      }
      lastProcessed := lastProcessed[symbol := clock.now];
      outcome := ActOn(symbol, signal, quote, book.receivedAt, settings, clock);
      fillTimes := fillTimes + if outcome.Filled? then [(clock.now, clock.recorded)] else [];
    }

    /** One depth event, from the book to at most one fill. */
    method ProcessDepthEvent(event: Event, signal: Action, settings: Settings, clock: Clock,
                             resync: Option<OrderBook.Snapshot>)
      returns (outcome: Outcome)
      requires Valid() && settings.limits.maxLosses > 0
      requires Genuine(Depth(event, signal, clock, resync))
      modifies `marks, `lastProcessed, `covered, `handled, `outcomes, `fillTimes, risk, executor, books.Values
      ensures Valid()
      ensures outcome.UnknownSymbol? <==> event.symbol !in books
      ensures event.symbol in books ==>
                var before := old(books[event.symbol].Value());
                var status := Classify(before, event);
                && (if status.Gap? then outcome == Resynchronized(resync.Some?)
                    else if !status.Applied? then outcome == NotApplied(status)
                    else outcome.MetricsRaised? || outcome.Throttled? || outcome.NotAllowed? || outcome.Filled?)
                && (if status.Gap?
                    then books[event.symbol].lastUpdateId == if resync.Some? then Some(resync.value.lastUpdateId) else None
                    else books[event.symbol].Value() == EventBook(before, event, clock.received))
      ensures forall s :: s in books && s != event.symbol ==> books[s].Value() == old(books[s].Value())
      ensures outcome.Filled? ==>
                var book := books[event.symbol].Value();
                && GoodFill(outcome.fill, event.symbol, signal, book, old(executor.log), old(risk.closings),
                            settings.limits.maxInventory)
                && !(old(risk.halted) && TrailingLosses(old(risk.closings)) >= settings.limits.maxLosses)
      ensures !outcome.Filled? ==> executor.log == old(executor.log) && risk.closings == old(risk.closings)
      ensures Paced(outcome, event.symbol, old(lastProcessed), settings.minInterval, clock.now)
      ensures Timely(outcome, clock.received, old(risk.lastTrade), settings, clock.now)
      ensures Cooling(outcome, old(risk.lastTrade), clock.recorded)
      ensures event.symbol in books ==> MarkedAs(outcome, books[event.symbol].Value(), old(marks))
      ensures handled == old(handled) + [Depth(event, signal, clock, resync)] && outcomes == old(outcomes) + [outcome]
      ensures Timed(outcome, old(fillTimes), clock)
      ensures outcome.NotAllowed? || outcome.Filled? ==>
                var book := books[event.symbol].Value();
                exists bid, ask :: IsBestBid(book.bids, bid) && IsBestAsk(book.asks, ask) && bid > 0.0 && ask > 0.0
                                   && Answered(outcome, old(Answer(event.symbol, signal, PriceOf(signal, bid, ask),
                                                                   clock.received, settings, clock.now)))
      ensures old(HaltExact(settings.limits.maxLosses)) ==> HaltExact(settings.limits.maxLosses)
    {
      hide Mirrors, SnapshotTrue, SaneHistory, OrderBook.Genuine, Classify, EventBook, GoodFill, Consistent, TrailingLosses,
        Answered, Answer, IsBestBid, IsBestAsk, Admission, Sized, Inventory, Paced, Timely, Cooling, MarkedAs, Timed,
        HaltExact, ApplyRows, HftRiskManager.Valid, HftPaperExecutor.Valid;
      var symbol := event.symbol;
      if symbol !in books {
        outcome := UnknownSymbol;
        NoReaction(outcome, symbol, Book("", map[], map[], None, false, 0.0), clock.received, settings, clock);
        Note(Depth(event, signal, clock, resync), outcome);
        return;
      }
      var status := AdvanceBook(event, clock.received, resync);
      NoReaction(NotApplied(status), symbol, books[symbol].Value(), clock.received, settings, clock);
      NoReaction(Resynchronized(resync.Some?), symbol, books[symbol].Value(), clock.received, settings, clock);
      if status.Gap? {
        outcome := Resynchronized(resync.Some?);
      } else if !status.Applied? {
        outcome := NotApplied(status);
      } else {
        outcome := ReactTo(books[symbol], signal, settings, clock);
      }
      Note(Depth(event, signal, clock, resync), outcome);
    }

    /** An event that is not applied changes nothing but books. */
    lemma NoReaction(outcome: Outcome, symbol: string, book: Book, receivedAt: real, settings: Settings, clock: Clock)
      requires outcome.UnknownSymbol? || outcome.NotApplied? || outcome.Resynchronized?
      ensures Paced(outcome, symbol, lastProcessed, settings.minInterval, clock.now)
      ensures Timely(outcome, receivedAt, risk.lastTrade, settings, clock.now)
      ensures Cooling(outcome, risk.lastTrade, clock.recorded)
      ensures MarkedAs(outcome, book, marks)
      ensures Timed(outcome, fillTimes, clock)
    {
    }

    ghost method Note(item: Item, outcome: Outcome)
      modifies `handled, `outcomes
      ensures handled == old(handled) + [item] && outcomes == old(outcomes) + [outcome]
    {
      handled, outcomes := handled + [item], outcomes + [outcome];
    }

    /** The latest fill since `first` started the cooldown. */
    ghost predicate Latest(times: seq<(real, real)>, first: nat, lastTrade: Option<real>) {
      |times| > first ==> lastTrade == Some(times[|times| - 1].1)
    }

    lemma StartOfRun(settings: Settings)
      ensures TradesWithinCap(executor.log, |executor.log|, settings.limits.maxInventory)
      ensures NoneAfterStreak(risk.closings, |risk.closings|, settings.limits.maxLosses)
      ensures Spaced(fillTimes, |fillTimes|, settings.limits.cooldown)
    {
    }

    lemma SpacedGrows(times: seq<(real, real)>, times': seq<(real, real)>, first: nat, settings: Settings, outcome: Outcome,
                      clock: Clock, lastTrade: Option<real>)
      requires Spaced(times, first, settings.limits.cooldown) && Latest(times, first, lastTrade) && first <= |times|
      requires Timely(outcome, clock.received, lastTrade, settings, clock.now)
      requires times' == fillTimes && Timed(outcome, times, clock) && Cooling(outcome, lastTrade, clock.recorded)
      ensures Spaced(times', first, settings.limits.cooldown) && Latest(times', first, risk.lastTrade)
      ensures |times'| == |times| + (if outcome.Filled? then 1 else 0) && times <= times'
    {
    }

    method ResetBooks()
      requires Books()
      modifies `lastProcessed, books.Values
      ensures Books() && lastProcessed == map[]
      ensures forall s :: s in books ==> books[s].lastUpdateId.None?
    {
      hide Mirrors, SaneHistory;
      for i := 0 to |symbols|
        invariant Books()
        invariant forall j :: 0 <= j < i ==> books[symbols[j]].lastUpdateId.None?
      {
        ResetBook(symbols[i]);
      }
      lastProcessed := map[];
    }

    /** Take one symbol's snapshot if it has arrived. */
    method SynchronizeIfArrived(symbol: string, snapshots: map<string, OrderBook.Snapshot>) returns (arrived: bool)
      requires Books() && Genuine(Connected(snapshots)) && symbol in books
      modifies `covered, books[symbol]
      ensures Books() && (arrived <==> symbol in snapshots)
      ensures forall s :: s in books ==>
                            books[s].lastUpdateId == if s == symbol && arrived then Some(snapshots[s].lastUpdateId)
                                                     else old(books[s].lastUpdateId)
    {
      hide Mirrors, SnapshotTrue, SaneHistory, SnapshotBook;
      arrived := symbol in snapshots;
      if arrived {
        Synchronize(symbol, snapshots[symbol]);
      }
    }

    /** Take whichever snapshots arrive; the other books stay as empty or as full as they were. */
    method SynchronizeBooks(snapshots: map<string, OrderBook.Snapshot>) returns (synced: nat)
      requires Books() && Genuine(Connected(snapshots))
      modifies `covered, books.Values
      ensures Books()
      ensures forall s :: s in books ==>
                            books[s].lastUpdateId == if s in snapshots then Some(snapshots[s].lastUpdateId)
                                                     else old(books[s].lastUpdateId)
      ensures synced == Arrived(symbols, snapshots)
    {
      hide Mirrors, SnapshotTrue, SaneHistory, SnapshotBook;
      synced := 0;
      for i := 0 to |symbols|
        invariant Books()
        invariant synced == Arrived(symbols[..i], snapshots)
        invariant forall s :: s in books ==>
                                books[s].lastUpdateId == if s in snapshots && s in symbols[..i]
                                                         then Some(snapshots[s].lastUpdateId) else old(books[s].lastUpdateId)
      {
        assert symbols[..i + 1] == symbols[..i] + [symbols[i]] && symbols[..i + 1][..i] == symbols[..i];
        var arrived := SynchronizeIfArrived(symbols[i], snapshots);
        synced := synced + if arrived then 1 else 0;
      }
      assert symbols[..|symbols|] == symbols;
    }

    /** After a connection only what the new snapshots say counts: other books are empty, and pacing starts over. */
    method Reconnect(snapshots: map<string, OrderBook.Snapshot>)
      requires Books() && Genuine(Connected(snapshots))
      modifies `lastProcessed, `covered, `handled, books.Values
      ensures Books() && lastProcessed == map[] && handled == old(handled) + [Connected(snapshots)]
      ensures forall s :: s in books ==>
                            books[s].lastUpdateId == if s in snapshots then Some(snapshots[s].lastUpdateId) else None
    {
      hide Mirrors, SnapshotTrue, SaneHistory, SnapshotBook;
      ResetBooks();
      var _ := SynchronizeBooks(snapshots);
      handled := handled + [Connected(snapshots)];
    }

    /** What a run keeps, from the lengths its records had at its start. */
    ghost predicate RunKeeps(trades: nat, results: nat, fills: nat, settings: Settings)
      reads this, risk, executor
    {
      && TradesWithinCap(executor.log, trades, settings.limits.maxInventory)
      && NoneAfterStreak(risk.closings, results, settings.limits.maxLosses)
      && fills <= |fillTimes| && Spaced(fillTimes, fills, settings.limits.cooldown)
      && Latest(fillTimes, fills, risk.lastTrade)
      && |fillTimes| - fills == |executor.log| - trades
    }

    /** One depth event of a run. */
    method HandleDepth(event: Event, signal: Action, clock: Clock, resync: Option<OrderBook.Snapshot>, settings: Settings,
                       ghost trades: nat, ghost results: nat, ghost fills: nat)
      returns (raised: bool)
      requires Valid() && settings.limits.maxLosses > 0 && HaltExact(settings.limits.maxLosses)
      requires Genuine(Depth(event, signal, clock, resync)) && RunKeeps(trades, results, fills, settings)
      modifies `marks, `lastProcessed, `covered, `handled, `outcomes, `fillTimes, risk, executor, books.Values
      ensures Valid() && HaltExact(settings.limits.maxLosses) && RunKeeps(trades, results, fills, settings)
      ensures handled == old(handled) + [Depth(event, signal, clock, resync)]
      ensures raised <==> LastRaised(outcomes)
      ensures old(executor.log) <= executor.log && old(risk.closings) <= risk.closings && old(fillTimes) <= fillTimes
      ensures old(risk.halted) ==> executor.log == old(executor.log) && risk.closings == old(risk.closings)
    {
      hide WithinCap, Inventory, Consistent, TrailingLosses, Mirrors, SnapshotTrue, SaneHistory, EventBook, Classify,
        Paced, Timely, Cooling, MarkedAs, Timed, Spaced, Answered, Admission, Sized, IsBestBid, IsBestAsk,
        TradesWithinCap, NoneAfterStreak, SnapshotBook, OrderBook.Genuine;
      ghost var log, closings, times, lastTrade := executor.log, risk.closings, fillTimes, risk.lastTrade;
      var outcome := ProcessDepthEvent(event, signal, settings, clock, resync);
      SpacedGrows(times, fillTimes, fills, settings, outcome, clock, lastTrade);
      if outcome.Filled? {
        ghost var f := outcome.fill;
        TradesWithinCapGrows(log, trades, settings.limits.maxInventory,
                             Trade(event.symbol, Signed(signal, f.quantity), f.price));
        if f.closed > 0.0 {
          NoneAfterStreakGrows(closings, results, settings.limits.maxLosses, f.net);
        }
      }
      return outcome.MetricsRaised?;
    }

    /**
      A whole run over any queue, under settings that stay as they are.  Every trade keeps the
      cap or shrinks its position; no closing result ever follows a losing streak of full
      length, so a halted runner never trades again; and books and accounts stay true throughout.
     */
    method RunForever(items: seq<Item>, settings: Settings) returns (ghost n: nat)
      requires Valid() && settings.limits.maxLosses > 0 && HaltExact(settings.limits.maxLosses)
      requires forall i :: 0 <= i < |items| ==> Genuine(items[i])
      modifies `marks, `lastProcessed, `covered, `handled, `outcomes, `fillTimes, risk, executor, books.Values
      ensures Valid() && HaltExact(settings.limits.maxLosses)
      ensures n <= |items| && handled == old(handled) + items[..n]
      ensures n < |items| ==> items[n].Stopped? || LastRaised(outcomes)
      ensures old(fillTimes) <= fillTimes && Spaced(fillTimes, |old(fillTimes)|, settings.limits.cooldown)
      ensures |fillTimes| - |old(fillTimes)| == |executor.log| - |old(executor.log)|
      ensures old(executor.log) <= executor.log && old(risk.closings) <= risk.closings
      ensures TradesWithinCap(executor.log, |old(executor.log)|, settings.limits.maxInventory)
      ensures NoneAfterStreak(risk.closings, |old(risk.closings)|, settings.limits.maxLosses)
      ensures old(risk.halted) ==> executor.log == old(executor.log) && risk.halted
    {
      hide WithinCap, Inventory, Consistent, TrailingLosses, Mirrors, SnapshotTrue, SaneHistory, EventBook, Classify,
        Spaced, TradesWithinCap, NoneAfterStreak, SnapshotBook, OrderBook.Genuine;
      StartOfRun(settings);
      n := 0;
      for i := 0 to |items|
        invariant n == i && handled == old(handled) + items[..i]
        invariant Valid() && HaltExact(settings.limits.maxLosses)
        invariant old(executor.log) <= executor.log && old(risk.closings) <= risk.closings && old(fillTimes) <= fillTimes
        invariant RunKeeps(|old(executor.log)|, |old(risk.closings)|, |old(fillTimes)|, settings)
        invariant old(risk.halted) ==> executor.log == old(executor.log) && risk.closings == old(risk.closings)
      {
        match items[i] {
          case Stopped =>
            return;
          case Connected(snapshots) =>
            Reconnect(snapshots);
            n := i + 1;
          case Depth(event, signal, clock, resync) =>
            var raised := HandleDepth(event, signal, clock, resync, settings,
                                      |old(executor.log)|, |old(risk.closings)|, |old(fillTimes)|);
            n := i + 1;
            if raised {
              return;
            }
        }
      }
    }
  }
}
