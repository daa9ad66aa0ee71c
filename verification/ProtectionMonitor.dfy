/**
  The monitor that watches one open position: it repairs missing take-profit orders and
  moves the hard stop to break-even and beyond.  What is shown is that over any number of
  passes, with any market and any failures, no working stop ever gets looser, and that there
  are only three ways to end without one.
 */
module ProtectionMonitor {
  import opened Common
  import opened AlgoVenue
  import opened ExitPolicy
  import opened ProtectionSet
  import opened StopReplacement

  const MONITOR_FEE_RATE: real := 0.0015
  const MONITOR_TRAILING_ATR: real := 1.5

  /** What one pass reads about the position besides its orders; all of it arbitrary. */
  datatype Reading = Reading(
    entry: real,
    mark: real,
    quantity: real,
    currentR: real,
    atr: Option<real>,
    manualTargetDistance: Option<real>,
    tp1: Option<real>,
    tp2: Option<real>,
    tp1Completed: bool,
    now: real)

  /** `afterRepair` is what a second look shows when take-profits were rebuilt. */
  datatype Pass = Pass(first: Reading, afterRepair: Reading, suspended: bool)

  /** The stop the position has earned, if that is tighter than the present one. */
  function ManagedStop(side: PositionSide, entry: real, mark: real, stop: real, currentR: real,
                       atr: Option<real>): (r: Option<real>)
    ensures r.Some? ==> Tighter(side, r.value, stop) && Tighter(side, mark, r.value)
    ensures r.Some? ==> currentR >= 1.0 && AtLeastAsTight(side, r.value, BreakevenStop(entry, side, MONITOR_FEE_RATE))
  {
    if currentR < 1.0 then None
    else
      var breakeven := BreakevenStop(entry, side, MONITOR_FEE_RATE);
      var candidate := if currentR >= 2.0 && atr.Some?
                       then TrailingStop(breakeven, side, mark, mark, atr.value, MONITOR_TRAILING_ATR)
                       else breakeven;
      if Tighter(side, candidate, stop) && Tighter(side, mark, candidate) then Some(candidate) else None
  }

  /**
    What the position has earned, in plain prices: nothing below one R; break-even from there; from
    two R on, with a known volatility, one and a half of it behind the mark if that is tighter.  It
    counts if it lies strictly between the present stop and the mark.
   */
  lemma ManagedStopMeaning(side: PositionSide, entry: real, mark: real, stop: real, currentR: real, atr: Option<real>)
    ensures var r := ManagedStop(side, entry, mark, stop, currentR, atr);
            var even := if side.Long? then entry + entry * 0.0015 else entry - entry * 0.0015;
            var trail := if atr.None? then even else if side.Long? then mark - atr.value * 1.5 else mark + atr.value * 1.5;
            var level := if currentR >= 2.0 && (if side.Long? then trail > even else trail < even) then trail else even;
            && (r.Some? <==> currentR >= 1.0 && (if side.Long? then stop < level < mark else stop > level > mark))
            && (r.Some? ==> r.value == level)
  {
  }

  /** A pause remembers whether a failed repair of the targets caused it. */
  datatype Mode = Trading | Paused(repairFailed: bool) | ReconciliationRequired

  predicate Incomplete(m: Reading) {
    m.tp2.None? || (!m.tp1Completed && m.tp1.None?)
  }

  /** Nothing is missing: the final target is there, and so is the first one unless it has been taken. */
  lemma CompleteMeaning(m: Reading)
    ensures !Incomplete(m) <==> m.tp2.Some? && (m.tp1Completed || m.tp1.Some?)
  {
  }

  /** Without a stop distance or usable targets the monitor itself refuses; other bad intents fail validation. */
  function RepairIntent(side: PositionSide, m: Reading, stop: real, id: int): (r: Result<Intent, AlgoError>)
    ensures r.Ok? ==> r.value.side == side && r.value.stop == stop
    ensures r.Err? ==> r.error == CannotRepair || r.error == InvalidIntent
  {
    var risk := Abs(m.entry - stop);
    if risk <= 0.0 then Err(CannotRepair)
    else
      var dir := Direction(side);
      var tp1 := if m.tp1Completed then None else if m.tp1.Some? then m.tp1 else Some(m.entry + dir * risk);
      var distance := if m.manualTargetDistance.Some? then m.manualTargetDistance.value else risk * 2.0;
      var defaultTp2 := m.entry + dir * distance;
      var tp2 := if m.tp2.Some? then m.tp2.value
                 else if tp1.None? then defaultTp2
                 else if side.Long? then Max(defaultTp2, tp1.value + risk)
                 else Min(defaultTp2, tp1.value - risk);
      if tp2 <= 0.0 || (tp1.Some? && tp1.value <= 0.0) then Err(CannotRepair)
      else if m.quantity <= 0.0 || m.entry <= 0.0 || stop <= 0.0 || !TargetsOrdered(side, tp1, tp2) then Err(InvalidIntent)
      else Ok(Intent(id, side, stop, tp1, tp2))
  }

  /**
    The repaired targets: those seen stay; a first target that is due lies one risk distance from the
    entry, a final one two of them or the given distance, and at least one beyond the first.
   */
  lemma RepairIntentMeaning(side: PositionSide, m: Reading, stop: real, id: int)
    ensures var r, risk, due := RepairIntent(side, m, stop, id), Abs(m.entry - stop), !m.tp1Completed;
            var far := if m.manualTargetDistance.Some? then m.manualTargetDistance.value else risk * 2.0;
            var near := if m.tp1.Some? then m.tp1.value else if side.Long? then m.entry + risk else m.entry - risk;
            var beyond := if side.Long? then m.entry + far else m.entry - far;
            var final := if m.tp2.Some? then m.tp2.value
                         else if !due then beyond
                         else if side.Long? then (if beyond >= near + risk then beyond else near + risk)
                         else if beyond <= near - risk then beyond else near - risk;
            && (r.Ok? ==> r.value == Intent(id, side, stop, if due then Some(near) else None, final))
            && (r == Err(CannotRepair) <==> m.entry == stop || final <= 0.0 || (due && near <= 0.0))
            && (r.Ok? <==>
                  && m.entry != stop && final > 0.0 && m.quantity > 0.0 && m.entry > 0.0 && stop > 0.0
                  && (due ==> near > 0.0 && (if side.Long? then near < final else near > final)))
  {
  }

  /** The closing stops that count as protection when positions are read. */
  function Protections(rows: seq<AlgoOrder>, side: PositionSide): (r: seq<AlgoOrder>)
    ensures forall o :: o in r <==> o in rows && WorkingStop(o, side) && o.closePosition && o.trigger > 0.0
  {
    if rows == [] then []
    else
      (if WorkingStop(rows[0], side) && rows[0].closePosition && rows[0].trigger > 0.0 then [rows[0]] else [])
      + Protections(rows[1..], side)
  }

  /** Every working hard stop of the side closes the whole position at a price on the tick grid. */
  ghost predicate OwnStops(rows: seq<AlgoOrder>, side: PositionSide, tick: real) {
    forall i :: 0 <= i < |rows| && WorkingStop(rows[i], side) ==>
                  ClosingStop(rows[i], side) && OnGrid(rows[i].trigger, tick)
  }

  lemma SingleStop(rows: seq<AlgoOrder>, side: PositionSide)
    ensures Stops(WorkingManaged(rows, side)) == |WorkingStops(rows, side)|
  {
    if rows != [] {
      SingleStop(rows[1..], side);
      var rest, stops := WorkingManaged(rows[1..], side), WorkingStops(rows[1..], side);
      assert ([rows[0]] + rest)[1..] == rest && [] + rest == rest;
      assert [] + stops == stops;
    }
  }

  /** When the only stop is a closing one above zero, reading the position finds exactly it. */
  lemma ProtectionsAreStops(rows: seq<AlgoOrder>, side: PositionSide)
    requires forall o :: o in rows && WorkingStop(o, side) ==> o.closePosition && o.trigger > 0.0
    ensures Protections(rows, side) == WorkingStops(rows, side)
  {
    if rows != [] {
      assert rows[0] in rows;
      ProtectionsAreStops(rows[1..], side);
    }
  }

  /** Rebuilding the set around the stop that is already there keeps that stop and adds no other level. */
  lemma RebuiltKeepsStops(start: seq<AlgoOrder>, rows: seq<AlgoOrder>, side: PositionSide, specs: seq<AlgoOrder>,
                          intent: Intent, tick: real, bound: real, clock: int)
    requires tick > 0.0 && OwnStops(start, side, tick) && NoneLooser(start, side, bound)
    requires NamesFaithful(start) && NoncesBelow(start, clock)
    requires Rebuilt(start, rows, side, specs, {})
    requires intent.side == side && OnGrid(intent.stop, tick) && AtLeastAsTight(side, intent.stop, bound)
    requires forall s :: s in specs ==> s == WantedStop(intent, tick) || (s.kind == TakeProfitMarket && s.name.Tranche?)
    ensures OwnStops(rows, side, tick) && NoneLooser(rows, side, bound)
    ensures NamesFaithful(rows) && NoncesBelow(rows, clock)
  {
    OnGridFixed(intent.stop, tick);
    forall i | 0 <= i < |rows|
      ensures rows[i].name.Rollback? ==> rows[i].name.nonce < clock
      ensures rows[i].active && rows[i].name.Trailing? ==>
                StopOf(rows[i], rows[i].name.owner) && rows[i].trigger == rows[i].name.price
      ensures WorkingStop(rows[i], side) ==>
                && ClosingStop(rows[i], side)
                && OnGrid(rows[i].trigger, tick) && AtLeastAsTight(side, rows[i].trigger, bound)
    {
      if i < |start| {
        assert start[i].name == rows[i].name;
      } else {
        assert rows[i] in specs;
      }
    }
  }

  lemma SpecKinds(intent: Intent, filled: real, averagePrice: real, f: Filters)
    requires ValidFilters(f)
    requires BuildSpecs(intent, filled, averagePrice, f).Ok?
    ensures var specs := BuildSpecs(intent, filled, averagePrice, f).value;
            && WantedStop(intent, f.tick) in specs
            && forall s :: s in specs ==> s == WantedStop(intent, f.tick) || (s.kind == TakeProfitMarket && s.name.Tranche?)
  {
    var specs := BuildSpecs(intent, filled, averagePrice, f).value;
    assert specs[0] == WantedStop(intent, f.tick);
  }

  /** The hard stop at `stop` is working in this state. */
  predicate Holds(rows: seq<AlgoOrder>, side: PositionSide, stop: real) {
    Provides(rows, side, StopOrder(side, stop, Rollback(0)))
  }

  lemma WantedIsHeld(rows: seq<AlgoOrder>, intent: Intent, tick: real)
    requires tick > 0.0 && OnGrid(intent.stop, tick)
    ensures Holds(rows, intent.side, intent.stop) <==> Provides(rows, intent.side, WantedStop(intent, tick))
  {
    OnGridFixed(intent.stop, tick);
  }

  /** Every state of an upsert around the present stop still has that stop. */
  lemma UpsertHolds(start: seq<AlgoOrder>, rows: seq<AlgoOrder>, trace: seq<seq<AlgoOrder>>, since: nat,
                    specs: seq<AlgoOrder>, intent: Intent, tick: real)
    requires tick > 0.0 && OnGrid(intent.stop, tick) && Holds(start, intent.side, intent.stop)
    requires WantedStop(intent, tick) in specs
    requires forall s :: s in specs && Provides(start, intent.side, s) ==> Provides(rows, intent.side, s)
    requires forall s, k :: s in specs && Provides(start, intent.side, s) && since <= k < |trace| ==>
                              Provides(trace[k], intent.side, s)
    ensures Holds(rows, intent.side, intent.stop)
    ensures forall k :: since <= k < |trace| ==> Holds(trace[k], intent.side, intent.stop)
  {
    WantedIsHeld(start, intent, tick);
    WantedIsHeld(rows, intent, tick);
    forall k | since <= k < |trace|
      ensures Holds(trace[k], intent.side, intent.stop)
    {
      WantedIsHeld(trace[k], intent, tick);
    }
  }

  lemma HeldStop(rows: seq<AlgoOrder>, side: PositionSide, stop: real, tick: real, bound: real)
    requires OwnStops(rows, side, tick) && NoneLooser(rows, side, bound) && Holds(rows, side, stop)
    ensures HasStop(rows, side) && HasStopAt(rows, side, stop)
    ensures OnGrid(stop, tick) && AtLeastAsTight(side, stop, bound)
  {
    var i :| 0 <= i < |rows| && rows[i].active && ManagedOf(rows[i], side)
             && Matches(rows[i], StopOrder(side, stop, Rollback(0)));
    assert WorkingStop(rows[i], side);
  }

  /** A replacement in the allowed way keeps the position guarded as it was. */
  lemma TightenKeepsGuard(start: seq<AlgoOrder>, rows: seq<AlgoOrder>, side: PositionSide, stop: real,
                          target: real, tick: real, bound: real)
    requires tick > 0.0 && OwnStops(start, side, tick) && NoneLooser(start, side, bound)
    requires HasStopAt(start, side, stop) && OnGrid(target, tick)
    requires Evolved(start, rows, side, {stop, target})
    requires Tighter(side, target, stop) || rows == start
    ensures OwnStops(rows, side, tick) && NoneLooser(rows, side, bound)
  {
    var k :| 0 <= k < |start| && WorkingStop(start[k], side) && start[k].trigger == stop;
    if rows != start {
      EvolvedNeverLoosens(start, rows, side, {stop, target}, bound);
      forall i | 0 <= i < |rows| && WorkingStop(rows[i], side)
        ensures ClosingStop(rows[i], side) && OnGrid(rows[i].trigger, tick)
      {
        if i < |start| {
          assert rows[i] == start[i];
        }
      }
    }
  }

  // ----- What a pass may do to the order list -----

  /**
    From one world to a later one: no recorded state has a stop looser than `bound`, and unless a
    stop was placed in name only, no more states lack a stop than replacements cancelled first.
   */
  ghost predicate Steady(w: World, v: World, side: PositionSide, bound: real) {
    && w.trace <= v.trace
    && (forall k :: |w.trace| <= k < |v.trace| ==> NoneLooser(v.trace[k], side, bound))
    && (!v.misplaced ==> Gaps(v.trace, side) - Gaps(w.trace, side) <= v.swaps - w.swaps)
    && w.swaps <= v.swaps && (w.misplaced ==> v.misplaced) && (w.lostCancel ==> v.lostCancel)
  }

  lemma SteadyTrans(u: World, v: World, w: World, side: PositionSide, bound: real)
    requires Steady(u, v, side, bound) && Steady(v, w, side, bound)
    ensures Steady(u, w, side, bound)
  {
    hide NoneLooser, Gaps;
    forall k | |u.trace| <= k < |w.trace|
      ensures NoneLooser(w.trace[k], side, bound)
    {
      if k < |v.trace| {
        assert w.trace[k] == v.trace[k];
      }
    }
  }

  /** States that all have a stop add no gap. */
  lemma {:induction false} NoNewGaps(before: seq<seq<AlgoOrder>>, after: seq<seq<AlgoOrder>>, side: PositionSide)
    requires before <= after && forall k :: |before| <= k < |after| ==> HasStop(after[k], side)
    ensures Gaps(after, side) == Gaps(before, side)
    decreases |after|
  {
    if |before| == |after| {
      assert before == after;
    } else {
      NoNewGaps(before, after[..|after| - 1], side);
    }
  }

  lemma TightenIsSteady(w: World, v: World, r: Result<AlgoOrder, AlgoError>, side: PositionSide, stop: real,
                        target: real, tick: real, bound: real)
    requires tick > 0.0 && OwnStops(w.rows, side, tick) && NoneLooser(w.rows, side, bound)
    requires HasStopAt(w.rows, side, stop) && OnGrid(target, tick)
    requires SafelyTightened(w, v, r, Holding(side, stop), target)
    ensures OwnStops(v.rows, side, tick) && NoneLooser(v.rows, side, bound) && Steady(w, v, side, bound)
  {
    hide Evolved, OwnStops, NoneLooser, SoleStopAt, Vulnerable, Gaps, Sane, HasStop;
    var allowed := {target, stop};
    assert allowed == {stop, target};
    if Tighter(side, target, stop) {
      TightenKeepsGuard(w.rows, v.rows, side, stop, target, tick, bound);
      forall k | |w.trace| <= k < |v.trace|
        ensures NoneLooser(v.trace[k], side, bound)
      {
        TightenKeepsGuard(w.rows, v.trace[k], side, stop, target, tick, bound);
      }
    }
  }

  /** Rebuilding around the present stop is steady too. */
  lemma UpsertIsSteady(w: World, v: World, specs: seq<AlgoOrder>, intent: Intent, tick: real, bound: real)
    requires tick > 0.0 && OwnStops(w.rows, intent.side, tick) && NoneLooser(w.rows, intent.side, bound)
    requires NamesFaithful(w.rows) && NoncesBelow(w.rows, w.clock)
    requires AllRebuilt(v.trace, |w.trace|, w.rows, intent.side, specs, {})
    requires OnGrid(intent.stop, tick) && AtLeastAsTight(intent.side, intent.stop, bound)
    requires forall s :: s in specs ==> s == WantedStop(intent, tick) || (s.kind == TakeProfitMarket && s.name.Tranche?)
    requires w.trace <= v.trace && forall k :: |w.trace| <= k < |v.trace| ==> Holds(v.trace[k], intent.side, intent.stop)
    requires v.swaps == w.swaps && v.misplaced == w.misplaced && (w.lostCancel ==> v.lostCancel)
    ensures Steady(w, v, intent.side, bound)
  {
    hide Rebuilt, OwnStops, NoneLooser, Gaps, Holds, NamesFaithful, NoncesBelow, HasStop;
    var side := intent.side;
    forall k | |w.trace| <= k < |v.trace|
      ensures NoneLooser(v.trace[k], side, bound) && HasStop(v.trace[k], side)
    {
      RebuiltKeepsStops(w.rows, v.trace[k], side, specs, intent, tick, bound, w.clock);
      HeldStop(v.trace[k], side, intent.stop, tick, bound);
    }
    NoNewGaps(w.trace, v.trace, side);
  }

  /** Among stops of this system's own making only an ended order of the new name can be taken for it. */
  lemma OnlyEndedNames(w: World, side: PositionSide, target: real, tick: real)
    requires Sane(w) && OwnStops(w.rows, side, tick)
    ensures var order := NewStop(side, target);
            Vulnerable(w.rows, order) <==> !NameActive(w.rows, order.name) && NameEnded(w.rows, order.name)
  {
    var order := NewStop(side, target);
    var current := FindNamed(w.rows, order.name);
    if current.Some? {
      NamedWorks(w, order, current.value);
    }
  }

  lemma SoleStop(rows: seq<AlgoOrder>, side: PositionSide, stop: real, tick: real)
    requires OwnStops(rows, side, tick) && Holds(rows, side, stop) && stop > 0.0
    requires Stops(WorkingManaged(rows, side)) == 1
    ensures exists o :: Protections(rows, side) == [o] && o.trigger == stop
  {
    SingleStop(rows, side);
    var all := WorkingStops(rows, side);
    var i :| 0 <= i < |rows| && rows[i].active && ManagedOf(rows[i], side)
             && Matches(rows[i], StopOrder(side, stop, Rollback(0)));
    assert rows[i] in all;
    assert all == [rows[i]];
    forall o | o in rows && WorkingStop(o, side)
      ensures o.closePosition && o.trigger > 0.0
    {
      assert o in all;
    }
    ProtectionsAreStops(rows, side);
  }

  // ----- Why no stop is ever misplaced -----

  /**
    Every working stop of the side is above zero, and no ended trailing stop has a name for a
    trigger tighter than it.
   */
  predicate Tidy(rows: seq<AlgoOrder>, side: PositionSide) {
    forall i :: 0 <= i < |rows| && WorkingStop(rows[i], side) ==>
                  rows[i].trigger > 0.0 && EndedBehind(rows, side, rows[i].trigger)
  }

  predicate EndedBehind(rows: seq<AlgoOrder>, side: PositionSide, bound: real) {
    forall j :: 0 <= j < |rows| && !rows[j].active && rows[j].name.Trailing? && rows[j].name.owner == side ==>
                  AtLeastAsTight(side, bound, rows[j].name.price)
  }

  /** All working stops of the side are at one trigger. */
  predicate AllAt(rows: seq<AlgoOrder>, side: PositionSide, stop: real) {
    forall i :: 0 <= i < |rows| && WorkingStop(rows[i], side) ==> rows[i].trigger == stop
  }

  lemma TidyAt(rows: seq<AlgoOrder>, side: PositionSide, stop: real)
    requires Tidy(rows, side) && HasStopAt(rows, side, stop)
    ensures stop > 0.0 && EndedBehind(rows, side, stop)
  {
  }

  /** The one position read from a tidy list is the one stop there is. */
  lemma SoleIsAll(rows: seq<AlgoOrder>, side: PositionSide, tick: real)
    requires OwnStops(rows, side, tick) && Tidy(rows, side) && |Protections(rows, side)| == 1
    ensures AllAt(rows, side, Protections(rows, side)[0].trigger)
  {
    var all := Protections(rows, side);
    forall i | 0 <= i < |rows| && WorkingStop(rows[i], side)
      ensures rows[i].trigger == all[0].trigger
    {
      assert rows[i] in all;
    }
  }

  /** The new trigger is tighter than the one stop, so no ended order has its name. */
  lemma NotVulnerable(w: World, side: PositionSide, stop: real, target: real, tick: real)
    requires Sane(w) && OwnStops(w.rows, side, tick) && AllAt(w.rows, side, stop)
    requires EndedBehind(w.rows, side, stop) && Tighter(side, target, stop)
    ensures var order := NewStop(side, target);
            !Vulnerable(w.rows, order) && !NameEnded(w.rows, order.name) && !NameActive(w.rows, order.name)
  {
    var order := NewStop(side, target);
    OnlyEndedNames(w, side, target, tick);
    NamedIsAt(w, order);
  }

  lemma NamedIsAt(w: World, order: AlgoOrder)
    requires Sane(w) && order == NewStop(order.positionSide, order.trigger)
    ensures NameActive(w.rows, order.name) ==> HasStopAt(w.rows, order.positionSide, order.trigger)
  {
    if i :| 0 <= i < |w.rows| && w.rows[i].active && w.rows[i].name == order.name {
      NamedWorks(w, order, w.rows[i]);
    }
  }

  /** What is deactivated or added in a replacement of the one stop is no tighter than what works after it. */
  lemma EvolvedTidy(start: seq<AlgoOrder>, rows: seq<AlgoOrder>, side: PositionSide, stop: real, target: real)
    requires NamesFaithful(start) && AllAt(start, side, stop) && EndedBehind(start, side, stop)
    requires Evolved(start, rows, side, {target, stop}) && stop > 0.0 && target > 0.0 && Tighter(side, target, stop)
    requires !NameEnded(rows, Trailing(side, target))
    ensures Tidy(rows, side)
  {
    forall j | 0 <= j < |rows| && !rows[j].active && rows[j].name.Trailing? && rows[j].name.owner == side
      ensures AtLeastAsTight(side, stop, rows[j].name.price)
    {
      if j < |start| && start[j].active {
        assert WorkingStop(start[j], side);
      } else if j >= |start| {
        assert rows[j].name == Trailing(side, rows[j].trigger);
        assert rows[j].trigger != target;
      }
    }
    forall i | 0 <= i < |rows| && WorkingStop(rows[i], side)
      ensures rows[i].trigger > 0.0 && AtLeastAsTight(side, rows[i].trigger, stop)
    {
      if i < |start| {
        assert rows[i] == start[i];
      }
    }
  }

  lemma TightenKeepsTidy(w: World, v: World, r: Result<AlgoOrder, AlgoError>, side: PositionSide, stop: real,
                         target: real, tick: real)
    requires Sane(w) && OwnStops(w.rows, side, tick) && HasStopAt(w.rows, side, stop)
    requires Tidy(w.rows, side) && AllAt(w.rows, side, stop) && target > 0.0
    requires SafelyTightened(w, v, r, Holding(side, stop), target)
    ensures Tidy(v.rows, side) && v.misplaced == w.misplaced
  {
    hide Tidy, AllAt, EndedBehind, OwnStops, Evolved, HasStopAt, Vulnerable, Gaps, SoleStopAt, NameEnded, NameActive;
    if Tighter(side, target, stop) {
      TidyAt(w.rows, side, stop);
      NotVulnerable(w, side, stop, target, tick);
      EvolvedTidy(w.rows, v.rows, side, stop, target);
    }
  }

  lemma TidyTightens(w: World, v: World, r: Result<AlgoOrder, AlgoError>, side: PositionSide, stop: real,
                     candidate: real, mark: real, tick: real)
    requires tick > 0.0 && mark > 0.0 && Tighter(side, mark, candidate)
    requires Sane(w) && OwnStops(w.rows, side, tick) && HasStopAt(w.rows, side, stop)
    requires Tidy(w.rows, side) && AllAt(w.rows, side, stop)
    requires SafelyTightened(w, v, r, Holding(side, stop), RoundedStop(side, candidate, tick))
    ensures Tidy(v.rows, side) && v.misplaced == w.misplaced
  {
    var target := RoundedStop(side, candidate, tick);
    TidyAt(w.rows, side, stop);
    EarnedIsPositive(side, candidate, mark, stop, tick);
    hide RoundedStop, OwnStops, Tidy, AllAt, HasStopAt, Sane, Vulnerable, Evolved;
    if Tighter(side, target, stop) {
      TightenKeepsTidy(w, v, r, side, stop, target, tick);
    }
  }

  /** Rebuilding around the one stop ends no trailing stop but at its own trigger. */
  lemma RebuiltTidy(start: seq<AlgoOrder>, rows: seq<AlgoOrder>, side: PositionSide, specs: seq<AlgoOrder>,
                    intent: Intent, tick: real)
    requires tick > 0.0 && OnGrid(intent.stop, tick) && intent.side == side
    requires NamesFaithful(start) && Tidy(start, side) && AllAt(start, side, intent.stop)
    requires HasStopAt(start, side, intent.stop)
    requires Rebuilt(start, rows, side, specs, {})
    requires forall s :: s in specs ==> s == WantedStop(intent, tick) || (s.kind == TakeProfitMarket && s.name.Tranche?)
    ensures Tidy(rows, side) && AllAt(rows, side, intent.stop)
  {
    OnGridFixed(intent.stop, tick);
    TidyAt(start, side, intent.stop);
    forall i | 0 <= i < |rows|
      ensures WorkingStop(rows[i], side) ==> rows[i].trigger == intent.stop
      ensures !rows[i].active && rows[i].name.Trailing? && rows[i].name.owner == side ==>
                AtLeastAsTight(side, intent.stop, rows[i].name.price)
    {
      if i < |start| {
        if start[i].active && !rows[i].active && rows[i].name.Trailing? && rows[i].name.owner == side {
          assert WorkingStop(start[i], side);
        }
      } else {
        assert rows[i] in specs;
      }
    }
  }

  /** A stop the position has earned is above zero if the present one and the mark are. */
  lemma EarnedIsPositive(side: PositionSide, candidate: real, mark: real, stop: real, tick: real)
    requires tick > 0.0 && mark > 0.0 && stop > 0.0 && Tighter(side, mark, candidate)
    ensures Tighter(side, RoundedStop(side, candidate, tick), stop) ==> RoundedStop(side, candidate, tick) > 0.0
  {
    hide FloorTo, CeilTo, OnGrid;
  }

  /** What an upsert around the present stop keeps. */
  lemma UpsertKeeps(w: World, v: World, specs: seq<AlgoOrder>, intent: Intent, tick: real, bound: real)
    requires tick > 0.0 && Sane(w) && UniqueNames(v.rows) && OwnStops(w.rows, intent.side, tick)
    requires NoneLooser(w.rows, intent.side, bound) && Holds(w.rows, intent.side, intent.stop)
    requires OnGrid(intent.stop, tick) && AtLeastAsTight(intent.side, intent.stop, bound)
    requires WantedStop(intent, tick) in specs
    requires forall s :: s in specs ==> s == WantedStop(intent, tick) || (s.kind == TakeProfitMarket && s.name.Tranche?)
    requires Undisturbed(w.rows, v.rows, v.trace, |w.trace|, intent.side, specs)
    requires v.swaps == w.swaps && v.misplaced == w.misplaced && v.clock == w.clock
    requires w.trace <= v.trace && (w.lostCancel ==> v.lostCancel)
    ensures Sane(v) && OwnStops(v.rows, intent.side, tick) && NoneLooser(v.rows, intent.side, bound)
    ensures Steady(w, v, intent.side, bound) && Holds(v.rows, intent.side, intent.stop) && HasStop(v.rows, intent.side)
    ensures forall k :: |w.trace| <= k < |v.trace| ==> Holds(v.trace[k], intent.side, intent.stop)
    ensures Tidy(w.rows, intent.side) && AllAt(w.rows, intent.side, intent.stop) ==>
              Tidy(v.rows, intent.side) && AllAt(v.rows, intent.side, intent.stop)
  {
    hide Sane, OwnStops, NoneLooser, Gaps, Holds, Rebuilt, AllRebuilt, Provides, Tidy, AllAt, WantedStop, HasStop, HasStopAt, Steady,
         UniqueNames, NamesFaithful, NoncesBelow;
    var side := intent.side;
    SaneParts(w);
    HeldStop(w.rows, side, intent.stop, tick, bound);
    UpsertHolds(w.rows, v.rows, v.trace, |w.trace|, specs, intent, tick);
    UpsertIsSteady(w, v, specs, intent, tick, bound);
    RebuiltKeepsStops(w.rows, v.rows, side, specs, intent, tick, bound, w.clock);
    SaneWhole(v);
    HeldStop(v.rows, side, intent.stop, tick, bound);
    if Tidy(w.rows, side) && AllAt(w.rows, side, intent.stop) {
      RebuiltTidy(w.rows, v.rows, side, specs, intent, tick);
    }
  }

  class PositionMonitor {
    const gateway: StopGateway
    const side: PositionSide
    const filters: Filters
    const testnet: bool
    const failureCooldown: real
    const adjustmentCooldown: real
    var failureUntil: real
    var adjustedUntil: real
    var mode: Mode
    /** A stop replacement reported that the old stop could not be put back. */
    ghost var rollbackFailed: bool

    constructor (gateway: StopGateway, side: PositionSide, filters: Filters, testnet: bool)
      requires ValidFilters(filters) && filters.tick == gateway.tick
      ensures this.gateway == gateway && this.side == side && this.filters == filters && this.testnet == testnet
      ensures failureCooldown == 300.0 && adjustmentCooldown == 60.0 && failureUntil == adjustedUntil == 0.0
      ensures mode == Trading && !rollbackFailed
    {
      this.gateway, this.side, this.filters, this.testnet := gateway, side, filters, testnet;
      failureCooldown, adjustmentCooldown := 300.0, 60.0;
      failureUntil, adjustedUntil, mode, rollbackFailed := 0.0, 0.0, Trading, false;
    }

    /** The only three ways out of protection. */
    ghost predicate Lost()
      reads this, gateway, gateway.venue
    {
      rollbackFailed || gateway.venue.lostCancel || gateway.misplaced
    }

    ghost predicate Guarded(bound: real)
      reads this, gateway, gateway.venue
    {
      && gateway.Valid() && ValidFilters(filters) && filters.tick == gateway.tick
      && OwnStops(gateway.venue.rows, side, gateway.tick)
      && NoneLooser(gateway.venue.rows, side, bound)
      && (HasStop(gateway.venue.rows, side) || Lost())
    }

    /** A tranche of the position is below the exchange's minimum. */
    predicate TooSmall(m: Reading)
      requires filters.step > 0.0
    {
      FloorTo(m.quantity * TP1_FRACTION, filters.step) < filters.minQuantity
    }

    /** No step multiple within two fifths of the position reaches the minimum. */
    lemma TooSmallMeaning(m: Reading)
      requires ValidFilters(filters) && m.quantity >= 0.0
      ensures TooSmall(m) <==>
                forall q :: OnGrid(q, filters.step) && q <= m.quantity * 2.0 / 5.0 ==> q < filters.minQuantity
    {
      var most := FloorTo(m.quantity * TP1_FRACTION, filters.step);
      assert m.quantity * TP1_FRACTION == m.quantity * 2.0 / 5.0;
      hide FloorTo, OnGrid;
      forall q | OnGrid(q, filters.step) && q <= m.quantity * 2.0 / 5.0
        ensures q <= most
      {
        if q > most {
          GridGap(q, most, filters.step);
        }
      }
    }

    /** The repair can be planned, and no working order is in the way of its names. */
    predicate Repairable(m: Reading, stop: real, rows: seq<AlgoOrder>)
      requires ValidFilters(filters)
    {
      var intent := RepairIntent(side, m, stop, 0);
      && !TooSmall(m) && intent.Ok?
      && var built := BuildSpecs(intent.value, m.quantity, m.entry, filters);
      built.Ok? && NamesFree(rows, side, built.value)
    }

    /** What works for the position is the wanted set of its repaired intent. */
    ghost predicate SetRepaired(m: Reading, stop: real, rows: seq<AlgoOrder>)
      requires ValidFilters(filters)
    {
      var intent := RepairIntent(side, m, stop, 0);
      && intent.Ok?
      && var built := BuildSpecs(intent.value, m.quantity, m.entry, filters);
      built.Ok? && SameOrders(WorkingManaged(rows, side), built.value)
    }

    /**
      How the repair in a pass ends.  Nothing is done to a complete set or a small position; a repair that
      cannot be planned ends the pass without a request; one that goes through leaves the wanted set.
     */
    ghost predicate RepairEnds(p: Pass, stop: real, before: World, after: World, next: Option<(Reading, real, bool)>,
                               modeBefore: Mode, modeAfter: Mode)
      requires ValidFilters(filters)
    {
      var intent := RepairIntent(side, p.first, stop, 0);
      if !Incomplete(p.first) || TooSmall(p.first) then next == Some((p.first, stop, true)) && after == before
      else if intent.Err? then
        && next.None? && after == before
        && modeAfter == if intent.error == InvalidIntent then modeBefore else Paused(true)
      else
        && (next.Some? ==> next.value.0 == p.afterRepair && SetRepaired(p.first, stop, after.rows))
        && (next.None? ==> modeAfter == modeBefore || modeAfter == Paused(true))
        && (CalmReplies(before.replies) && Repairable(p.first, stop, before.rows) ==>
              next == Some((p.afterRepair, stop, true)))
    }

    /** Rebuild the take-profit orders around the present stop, which stays working. */
    method RepairTakeProfits(m: Reading, stop: real, ghost bound: real) returns (r: Result<bool, AlgoError>)
      requires Guarded(bound) && Holds(gateway.venue.rows, side, stop) && stop > 0.0
      modifies gateway.venue
      ensures Guarded(bound) && Holds(gateway.venue.rows, side, stop)
      ensures Steady(old(gateway.Now()), gateway.Now(), side, bound)
      ensures forall k :: |old(gateway.venue.trace)| <= k < |gateway.venue.trace| ==>
                            Holds(gateway.venue.trace[k], side, stop)
      ensures old(Tidy(gateway.venue.rows, side) && AllAt(gateway.venue.rows, side, stop)) ==>
                Tidy(gateway.venue.rows, side) && AllAt(gateway.venue.rows, side, stop)
      ensures r == Ok(false) <==> TooSmall(m)
      ensures TooSmall(m) || RepairIntent(side, m, stop, 0).Err? ==> gateway.Now() == old(gateway.Now())
      ensures !TooSmall(m) && RepairIntent(side, m, stop, 0).Err? ==> r == Err(RepairIntent(side, m, stop, 0).error)
      ensures !TooSmall(m) && RepairIntent(side, m, stop, 0).Ok? && r.Err? ==> r.error != InvalidIntent
      ensures CalmReplies(old(gateway.venue.replies)) && Repairable(m, stop, old(gateway.venue.rows)) ==>
                r == Ok(true) && CalmReplies(gateway.venue.replies)
      ensures r == Ok(true) ==> exists o :: Protections(gateway.venue.rows, side) == [o] && o.trigger == stop
      ensures r == Ok(true) ==> SetRepaired(m, stop, gateway.venue.rows)
    {
      hide Sane, OwnStops, NoneLooser, Gaps, Holds, BuildSpecs, Rebuilt, AllRebuilt, SameOrders, Provides, RepairIntent,
           ReportedFor, Tidy, AllAt, NamesFree, CalmReplies, Undisturbed, Steady, WantedStop,
           StopAtRisk, CancelledOnly, HasStop, Stops, Protections, TooSmall, HasStopAt;
      var venue := gateway.venue;
      ghost var before := gateway.Now();
      HeldStop(before.rows, side, stop, gateway.tick, bound);
      SteadyAtFirst(before, before, side, bound);
      if TooSmall(m) {
        return Ok(false);
      }
      var intent := RepairIntent(side, m, stop, 0);
      if intent.Err? {
        return Err(intent.error);
      }
      SaneParts(before);
      var upserted := UpsertProtection(venue, intent.value, m.quantity, m.entry, filters);
      if BuildSpecs(intent.value, m.quantity, m.entry, filters).Err? {
        SpecsExist(intent.value, m.quantity, m.entry, filters);
        return Err(upserted.error);
      }
      ghost var specs := BuildSpecs(intent.value, m.quantity, m.entry, filters).value;
      SpecKinds(intent.value, m.quantity, m.entry, filters);
      UpsertKeeps(before, gateway.Now(), specs, intent.value, gateway.tick, bound);
      if upserted.Err? {
        return Err(upserted.error);
      }
      SoleStop(venue.rows, side, stop, gateway.tick);
      return Ok(true);
    }

    /** The stop has earned a tighter place and no cooldown is running. */
    predicate AdjustmentDue(m: Reading, stop: real)
      reads this
    {
      ManagedStop(side, m.entry, m.mark, stop, m.currentR, m.atr).Some? && adjustedUntil <= m.now && failureUntil <= m.now
    }

    /** Nothing is adjusted while a cooldown runs, nor to a stop the position has not earned. */
    lemma DueMeaning(m: Reading, stop: real)
      ensures m.now < adjustedUntil || m.now < failureUntil || m.currentR < 1.0 ==> !AdjustmentDue(m, stop)
      ensures adjustedUntil <= m.now && failureUntil <= m.now ==>
                (AdjustmentDue(m, stop) <==> ManagedStop(side, m.entry, m.mark, stop, m.currentR, m.atr).Some?)
    {
    }

    /** What an adjustment does to the world, the stop it reports, and whether a rollback failed. */
    ghost function AdjustRun(w: World, m: Reading, stop: real, due: bool): (World, Option<real>, bool)
      requires gateway.tick > 0.0 && (due ==> ManagedStop(side, m.entry, m.mark, stop, m.currentR, m.atr).Some?)
    {
      if !due then (w, None, false)
      else
        var candidate := ManagedStop(side, m.entry, m.mark, stop, m.currentR, m.atr).value;
        var (v, r) := TightenRun(w, gateway.tick, Holding(side, stop), candidate);
        (v, if r.Ok? then Some(RoundedStop(side, candidate, gateway.tick)) else None, r == Err(RollbackFailed))
    }

    /** Move the stop to what the position has earned, unless a cooldown is running. */
    method AdjustStop(m: Reading, stop: real, ghost bound: real) returns (adjusted: Option<real>)
      requires Guarded(bound) && HasStopAt(gateway.venue.rows, side, stop)
      modifies this, gateway, gateway.venue
      ensures Guarded(bound) && Steady(old(gateway.Now()), gateway.Now(), side, bound)
      ensures adjusted.Some? ==>
                Tighter(side, adjusted.value, stop) && NoneLooser(gateway.venue.rows, side, adjusted.value)
                && HasStop(gateway.venue.rows, side)
      ensures var candidate := ManagedStop(side, m.entry, m.mark, stop, m.currentR, m.atr);
              if !old(AdjustmentDue(m, stop))
              then adjusted.None? && gateway.Now() == old(gateway.Now()) && mode == old(mode)
              else if adjusted.Some?
              then adjusted.value == RoundedStop(side, candidate.value, gateway.tick)
                   && adjustedUntil == m.now + adjustmentCooldown && failureUntil == 0.0 && mode == old(mode)
              else failureUntil == m.now + failureCooldown && adjustedUntil == old(adjustedUntil)
      ensures var (v, reported, failed) := AdjustRun(old(gateway.Now()), m, stop, old(AdjustmentDue(m, stop)));
              && gateway.Now() == v && adjusted == reported
              && rollbackFailed == (old(rollbackFailed) || failed)
              && mode == if failed then ReconciliationRequired else old(mode)
      ensures m.mark > 0.0 && old(Tidy(gateway.venue.rows, side) && AllAt(gateway.venue.rows, side, stop)) ==>
                Tidy(gateway.venue.rows, side) && gateway.misplaced == old(gateway.misplaced)
    {
      hide Tidy, AllAt, ManagedStop, NoneLooser, OwnStops, RoundedStop, Gaps, HasStop, HasStopAt, Sane, SafelyTightened, TightenRun;
      adjusted := None;
      ghost var before := gateway.Now();
      var candidate := ManagedStop(side, m.entry, m.mark, stop, m.currentR, m.atr);
      if candidate.None? || adjustedUntil > m.now || failureUntil > m.now {
        return;
      }
      var target := RoundedStop(side, candidate.value, gateway.tick);
      var r := gateway.TightenStop(Holding(side, stop), candidate.value);
      TightenIsSteady(before, gateway.Now(), r, side, stop, target, gateway.tick, bound);
      TightenLeaves(before, gateway.Now(), r, side, stop, target);
      if m.mark > 0.0 && Tidy(before.rows, side) && AllAt(before.rows, side, stop) {
        TidyTightens(before, gateway.Now(), r, side, stop, candidate.value, m.mark, gateway.tick);
      }
      if r.Err? {
        failureUntil := m.now + failureCooldown;
        if r.error == RollbackFailed {
          rollbackFailed := true;
          mode := ReconciliationRequired;
        }
        return;
      }
      failureUntil := 0.0;
      adjustedUntil := m.now + adjustmentCooldown;
      adjusted := Some(target);
    }

    /** Read the closing stops of the position; nothing changes at the exchange. */
    method ReadStops(ghost bound: real) returns (r: Result<seq<AlgoOrder>, AlgoError>)
      requires Guarded(bound)
      modifies gateway.venue`replies
      ensures Guarded(bound)
      ensures gateway.Now() == old(gateway.Now()).(replies := gateway.venue.replies)
      ensures Steady(old(gateway.Now()), gateway.Now(), side, bound)
      ensures gateway.venue.replies == Rest(old(gateway.venue.replies))
      ensures r == if NextReply(old(gateway.venue.replies)).answered then Ok(Protections(gateway.venue.rows, side))
                   else Err(RequestFailed)
      ensures r.Ok? ==> forall o :: o in r.value ==>
                Holds(gateway.venue.rows, side, o.trigger) && HasStopAt(gateway.venue.rows, side, o.trigger) && o.trigger > 0.0
      ensures r.Ok? && |r.value| == 1 && Tidy(gateway.venue.rows, side) ==>
                AllAt(gateway.venue.rows, side, r.value[0].trigger)
    {
      hide Protections, OwnStops, NoneLooser, Sane, Holds, HasStopAt, HasStop, Tidy, AllAt, Steady;
      ghost var before := gateway.Now();
      SaneParts(before);
      var listing := gateway.venue.OpenOrders();
      SaneWhole(gateway.Now());
      SteadyAtFirst(before, gateway.Now(), side, bound);
      if listing.Err? {
        return Err(listing.error);
      }
      SoleProtection(listing.value, side, gateway.tick);
      r := Ok(Protections(listing.value, side));
      if Tidy(before.rows, side) && |r.value| == 1 {
        SoleIsAll(before.rows, side, gateway.tick);
      }
    }

    /**
      Rebuild the targets if some are missing, and read the position again if that was done: what
      to go on with, and whether exactly one closing stop was seen; `None` where the pass is over.
     */
    method RepairIfIncomplete(p: Pass, stop: real, ghost bound: real) returns (next: Option<(Reading, real, bool)>)
      requires Guarded(bound) && Holds(gateway.venue.rows, side, stop) && stop > 0.0
      modifies gateway.venue, `mode
      ensures Guarded(bound) && Steady(old(gateway.Now()), gateway.Now(), side, bound)
      ensures !Incomplete(p.first) ==>
                next == Some((p.first, stop, true)) && gateway.Now() == old(gateway.Now()) && mode == old(mode)
      ensures next.Some? ==>
                && mode == old(mode) && HasStopAt(gateway.venue.rows, side, next.value.1)
                && (next.value.0 == p.first || next.value.0 == p.afterRepair)
      ensures RepairEnds(p, stop, old(gateway.Now()), gateway.Now(), next, old(mode), mode)
      ensures next.None? ==> mode == old(mode) || mode == Paused(true)
      ensures Incomplete(p.first) && TooSmall(p.first) ==>
                next == Some((p.first, stop, true)) && gateway.Now() == old(gateway.Now()) && mode == old(mode)
      ensures Incomplete(p.first) && !TooSmall(p.first) && RepairIntent(side, p.first, stop, 0).Err? ==>
                && next.None? && gateway.Now() == old(gateway.Now())
                && mode == if RepairIntent(side, p.first, stop, 0).error == InvalidIntent then old(mode) else Paused(true)
      ensures Incomplete(p.first) && CalmReplies(old(gateway.venue.replies))
              && Repairable(p.first, stop, old(gateway.venue.rows)) ==>
                next == Some((p.afterRepair, stop, true))
      ensures old(Tidy(gateway.venue.rows, side) && AllAt(gateway.venue.rows, side, stop)) ==>
                Tidy(gateway.venue.rows, side) && (next.Some? ==> AllAt(gateway.venue.rows, side, next.value.1))
    {
      hide Protections, OwnStops, NoneLooser, Sane, Holds, HasStopAt, Incomplete, HasStop, Tidy, AllAt, Steady, Gaps, CalmReplies,
           RepairIntent, Repairable, TooSmall, SetRepaired;
      ghost var before := gateway.Now();
      SteadyAtFirst(before, before, side, bound);
      HeldStop(gateway.venue.rows, side, stop, gateway.tick, bound);
      if !Incomplete(p.first) {
        return Some((p.first, stop, true));
      }
      var repaired := RepairTakeProfits(p.first, stop, bound);
      HeldStop(gateway.venue.rows, side, stop, gateway.tick, bound);
      if repaired.Err? {
        if repaired.error != InvalidIntent {
          mode := Paused(true);
        }
        return None;
      }
      if !repaired.value {
        return Some((p.first, stop, true));
      }
      ghost var rebuilt := gateway.Now();
      if CalmReplies(gateway.venue.replies) {
        CalmNext(gateway.venue.replies);
      }
      var protections := ReadStops(bound);
      SteadyTrans(before, rebuilt, gateway.Now(), side, bound);
      if protections.Err? {
        return None;
      }
      var sole := |protections.value| == 1;
      return Some((p.afterRepair, if sole then protections.value[0].trigger else p.afterRepair.entry, sole));
    }

    /** On a testnet, a pause for a failed repair ends once stop and targets are seen in place. */
    method ResumeAfterRepair(m: Reading, safe: bool)
      modifies `mode
      ensures mode == Resumed(m, safe, old(mode))
    {
      if !testnet || !safe || Incomplete(m) || mode != Paused(true) {
        return;
      }
      mode := Trading;
    }

    function Resumed(m: Reading, safe: bool, before: Mode): Mode {
      if testnet && safe && !Incomplete(m) && before == Paused(true) then Trading else before
    }

    /** Trading resumes only from a pause by a failed repair, on a testnet, once stop and targets are there. */
    lemma ResumedMeaning(m: Reading, safe: bool, before: Mode)
      ensures var after := Resumed(m, safe, before);
              && (after == before || (before == Paused(true) && after == Trading))
              && (before == Paused(true) ==>
                    (after == Trading <==> testnet && safe && m.tp2.Some? && (m.tp1Completed || m.tp1.Some?)))
    {
    }

    /**
      One pass: read the stop, repair the targets if some are missing, then adjust the stop.  An
      unanswered read ends the pass; so does a position without exactly one closing stop, which
      asks for reconciliation.
     */
    method RunOnce(p: Pass, ghost bound: real)
      returns (adjusted: Option<real>, ghost next: Option<(Reading, real, bool)>, ghost middle: World)
      requires Guarded(bound)
      modifies this, gateway, gateway.venue
      ensures Guarded(bound) && Steady(old(gateway.Now()), gateway.Now(), side, bound)
      ensures adjusted.Some? ==>
                NoneLooser(gateway.venue.rows, side, adjusted.value) && HasStop(gateway.venue.rows, side)
      ensures old(rollbackFailed) ==> rollbackFailed
      ensures PositiveMarks(p) && old(Tidy(gateway.venue.rows, side)) ==>
                Tidy(gateway.venue.rows, side) && gateway.misplaced == old(gateway.misplaced)
      ensures var protections := Protections(old(gateway.venue.rows), side);
              if p.suspended || !NextReply(old(gateway.venue.replies)).answered
              then adjusted.None? && gateway.venue.rows == old(gateway.venue.rows) && mode == old(mode)
              else if |protections| != 1
              then adjusted.None? && gateway.venue.rows == old(gateway.venue.rows) && mode == ReconciliationRequired
              else
                && var read := old(gateway.Now()).(replies := Rest(old(gateway.venue.replies)));
                && RepairEnds(p, protections[0].trigger, read, middle, next, old(mode), mode)
                && (next.None? ==> adjusted.None? && gateway.Now() == middle && (mode == old(mode) || mode == Paused(true)))
                && (next.Some? ==>
                      var (m, stop, safe) := next.value;
                      var (v, reported, failed) := AdjustRun(middle, m, stop, old(AdjustmentDue(m, stop)));
                      && (m == p.first || m == p.afterRepair)
                      && gateway.Now() == v && adjusted == reported
                      && mode == if failed then ReconciliationRequired else Resumed(m, safe, old(mode)))
    {
      hide Protections, OwnStops, NoneLooser, Sane, Holds, HasStopAt, Incomplete, HasStop, Tidy, AllAt, Steady,
           ManagedStop, TightenRun, AdjustRun, Resumed, SetRepaired, Repairable, TooSmall, CalmReplies, RepairIntent;
      adjusted, next := None, None;
      ghost var before := gateway.Now();
      SteadyAtFirst(before, before, side, bound);
      middle := before;
      if p.suspended {
        return;
      }
      var protections := ReadStops(bound);
      middle := gateway.Now();
      if protections.Err? {
        return;
      }
      if |protections.value| != 1 {
        mode := ReconciliationRequired;
        return;
      }
      ghost var read := gateway.Now();
      var repaired := RepairIfIncomplete(p, protections.value[0].trigger, bound);
      next, middle := repaired, gateway.Now();
      SteadyTrans(before, read, middle, side, bound);
      if repaired.None? {
        return;
      }
      var (m, stop, safe) := repaired.value;
      ResumeAfterRepair(m, safe);
      adjusted := AdjustStop(m, stop, bound);
      SteadyTrans(before, middle, gateway.Now(), side, bound);
    }

    /**
      Any number of passes: if the position starts with a hard stop and none looser than `bound`,
      no order list from then on has a looser one, and it always ends with a stop, short of the
      three ways out.  Without misplaced stops, a list lacks a stop at most once for each
      replacement that cancelled first.  If at the start no ended trailing stop was tighter than
      the working one, no stop is ever misplaced.
     */
    method Watch(passes: seq<Pass>, ghost bound: real)
      requires Guarded(bound) && HasStop(gateway.venue.rows, side)
      modifies this, gateway, gateway.venue
      ensures Guarded(bound) && Steady(old(gateway.Now()), gateway.Now(), side, bound)
      ensures HasStop(gateway.venue.rows, side) || rollbackFailed || gateway.venue.lostCancel || gateway.misplaced
      ensures old(Tidy(gateway.venue.rows, side) && !gateway.misplaced)
              && (forall i :: 0 <= i < |passes| ==> PositiveMarks(passes[i])) ==>
                !gateway.misplaced && Tidy(gateway.venue.rows, side)
    {
      hide Tidy, PositiveMarks;
      ghost var before := gateway.Now();
      SteadyAtFirst(before, before, side, bound);
      for i := 0 to |passes|
        invariant Guarded(bound) && Steady(before, gateway.Now(), side, bound)
        invariant Tidy(before.rows, side) && !before.misplaced
                  && (forall k :: 0 <= k < |passes| ==> PositiveMarks(passes[k])) ==>
                    !gateway.misplaced && Tidy(gateway.venue.rows, side)
      {
        ghost var middle := gateway.Now();
        var _, _, _ := RunOnce(passes[i], bound);
        SteadyTrans(before, middle, gateway.Now(), side, bound);
      }
    }
  }

  /** The mark prices of both readings are above zero, as a position's always are. */
  predicate PositiveMarks(p: Pass) {
    p.first.mark > 0.0 && p.afterRepair.mark > 0.0
  }

  lemma SteadyAtFirst(w: World, v: World, side: PositionSide, bound: real)
    requires v == w.(replies := v.replies)
    ensures Steady(w, v, side, bound)
  {
  }

  lemma SaneParts(w: World)
    requires Sane(w)
    ensures UniqueNames(w.rows) && NamesFaithful(w.rows) && NoncesBelow(w.rows, w.clock)
  {
  }

  lemma SaneWhole(w: World)
    requires UniqueNames(w.rows) && NamesFaithful(w.rows) && NoncesBelow(w.rows, w.clock)
    ensures Sane(w)
  {
  }

  /** The stop read from the list is held there. */
  lemma SoleProtection(rows: seq<AlgoOrder>, side: PositionSide, tick: real)
    requires OwnStops(rows, side, tick)
    ensures forall o :: o in Protections(rows, side) ==>
                          Holds(rows, side, o.trigger) && HasStopAt(rows, side, o.trigger) && o.trigger > 0.0
  {
    forall o | o in Protections(rows, side)
      ensures Holds(rows, side, o.trigger) && HasStopAt(rows, side, o.trigger)
    {
      var i :| 0 <= i < |rows| && rows[i] == o;
      assert Matches(o, StopOrder(side, o.trigger, Rollback(0)));
    }
  }

  lemma TightenLeaves(w: World, v: World, r: Result<AlgoOrder, AlgoError>, side: PositionSide, stop: real, target: real)
    requires SafelyTightened(w, v, r, Holding(side, stop), target)
    ensures Sane(v)
    ensures r.Ok? ==> Tighter(side, target, stop) && NoneLooser(v.rows, side, target) && HasStop(v.rows, side)
    ensures r.Err? ==> Secured(v, r, side)
  {
    if r.Ok? {
      SoleIsStop(v.rows, side, target);
    }
  }
}
