/**
  The protection set of a position: one closing hard stop and up to two take-profit
  tranches.  Building the wanted set, bringing the exchange to it with as few changes as
  possible, and checking the outcome.
 */
module ProtectionSet {
  import opened Common
  import opened AlgoVenue
  import opened ExitPolicy

  datatype Intent = Intent(id: int, side: PositionSide, stop: real, tp1: Option<real>, tp2: real)

  datatype Filters = Filters(tick: real, step: real, minQuantity: real)

  predicate ValidFilters(f: Filters) {
    f.tick > 0.0 && f.step > 0.0 && f.minQuantity > 0.0
  }

  // ----- The wanted set -----

  /** The first tranche follows the real fill price; without a usable one it stays as planned. */
  function TpForFill(intent: Intent, averagePrice: real): Option<real> {
    if intent.tp1.None? || averagePrice <= 0.0 then intent.tp1
    else
      var risk := Abs(averagePrice - intent.stop);
      if risk <= 0.0 then intent.tp1
      else
        var candidate := averagePrice + Direction(intent.side) * risk;
        if Tighter(intent.side, intent.tp2, candidate) then Some(candidate) else intent.tp1
  }

  predicate TargetsOrdered(side: PositionSide, tp1: Option<real>, tp2: real) {
    tp1.Some? ==> Tighter(side, tp2, tp1.value)
  }

  function RoundStop(side: PositionSide, price: real, tick: real): real
    requires tick > 0.0
  {
    if side.Long? then CeilTo(price, tick) else FloorTo(price, tick)
  }

  function RoundTarget(side: PositionSide, price: real, tick: real): real
    requires tick > 0.0
  {
    if side.Long? then FloorTo(price, tick) else CeilTo(price, tick)
  }

  function WantedStop(intent: Intent, tick: real): AlgoOrder
    requires tick > 0.0
  {
    var price := RoundStop(intent.side, intent.stop, tick);
    AlgoOrder(HardStop(intent.id, price), CloseSide(intent.side), intent.side, StopMarket, price, 0.0, true, true)
  }

  function WantedTarget(intent: Intent, stage: int, price: real, quantity: real, filled: real): AlgoOrder {
    AlgoOrder(Tranche(stage, intent.id, filled), CloseSide(intent.side), intent.side, TakeProfitMarket,
              price, quantity, false, true)
  }

  function BuildSpecs(intent: Intent, filled: real, averagePrice: real, f: Filters): Result<seq<AlgoOrder>, AlgoError>
    requires ValidFilters(f)
  {
    var raw := TpForFill(intent, averagePrice);
    if !TargetsOrdered(intent.side, raw, intent.tp2) then Err(TargetOrder)
    else
      var tp1 := if raw.Some? then Some(RoundTarget(intent.side, raw.value, f.tick)) else None;
      var tp2 := RoundTarget(intent.side, intent.tp2, f.tick);
      if !TargetsOrdered(intent.side, tp1, tp2) then Err(TargetOrder)
      else
        var q1 := FloorTo(filled * TP1_FRACTION, f.step);
        var q2 := FloorTo(filled * TP2_FRACTION, f.step);
        Ok([WantedStop(intent, f.tick)]
           + (if tp1.Some? && q1 >= f.minQuantity then [WantedTarget(intent, 1, tp1.value, q1, filled)] else [])
           + (if q2 >= f.minQuantity then [WantedTarget(intent, 2, tp2, q2, filled)] else []))
  }

  function TargetQuantity(specs: seq<AlgoOrder>): real {
    if specs == [] then 0.0
    else (if specs[0].kind == TakeProfitMarket then specs[0].quantity else 0.0) + TargetQuantity(specs[1..])
  }

  /**
    With a fill price off the stop, the first target lies one risk distance beyond the fill, if that
    comes before the final target; otherwise it stays as planned, and no target stays no target.
   */
  lemma TpForFillMeaning(intent: Intent, averagePrice: real)
    ensures var r, risk := TpForFill(intent, averagePrice), Abs(averagePrice - intent.stop);
            var beyond := if intent.side.Long? then averagePrice + risk else averagePrice - risk;
            var room := if intent.side.Long? then beyond < intent.tp2 else beyond > intent.tp2;
            && (r.Some? <==> intent.tp1.Some?)
            && (r.Some? && averagePrice > 0.0 && averagePrice != intent.stop && room ==> r.value == beyond)
            && (averagePrice <= 0.0 || averagePrice == intent.stop || !room ==> r == intent.tp1)
  {
  }

  /** The order closes the position of the intent. */
  predicate Closing(o: AlgoOrder, side: PositionSide) {
    && o.active && o.positionSide == side
    && o.side == if side.Long? then Sell else Buy
  }

  /** A take-profit for the largest step multiple within two fifths of the fill, rounded towards the entry. */
  ghost predicate TargetOf(o: AlgoOrder, intent: Intent, stage: int, planned: real, filled: real, f: Filters) {
    && Closing(o, intent.side) && o.kind == TakeProfitMarket && !o.closePosition
    && o.name == Tranche(stage, intent.id, filled)
    && OnGrid(o.quantity, f.step) && o.quantity <= filled * 2.0 / 5.0 < o.quantity + f.step
    && OnGrid(o.trigger, f.tick)
    && (if intent.side.Long? then planned - f.tick < o.trigger <= planned else planned <= o.trigger < planned + f.tick)
  }

  /**
    The wanted set has one closing stop on the closing side, no looser than intended and less than a
    tick off.  Targets are there exactly if two fifths of the fill reach the exchange's minimum: the
    first one, if planned, and the final one, in order of distance, for at most four fifths in all.
   */
  lemma SpecsAreSafe(intent: Intent, filled: real, averagePrice: real, f: Filters)
    requires ValidFilters(f) && filled >= 0.0
    requires BuildSpecs(intent, filled, averagePrice, f).Ok?
    ensures var specs, tp1 := BuildSpecs(intent, filled, averagePrice, f).value, TpForFill(intent, averagePrice);
            && 1 <= |specs| <= 3
            && Closing(specs[0], intent.side) && specs[0].kind == StopMarket && specs[0].closePosition
            && specs[0].name == HardStop(intent.id, specs[0].trigger) && specs[0].quantity == 0.0
            && OnGrid(specs[0].trigger, f.tick)
            && (if intent.side.Long? then intent.stop <= specs[0].trigger < intent.stop + f.tick
                else intent.stop - f.tick < specs[0].trigger <= intent.stop)
            && (|specs| == if FloorTo(filled * 2.0 / 5.0, f.step) < f.minQuantity then 1 else if tp1.Some? then 3 else 2)
            && (|specs| == 3 ==> TargetOf(specs[1], intent, 1, tp1.value, filled, f)
                                 && Tighter(intent.side, specs[2].trigger, specs[1].trigger))
            && (|specs| > 1 ==> TargetOf(specs[|specs| - 1], intent, 2, intent.tp2, filled, f))
            && (forall i :: 1 <= i < |specs| ==> specs[i].quantity >= f.minQuantity)
            && TargetQuantity(specs) <= filled * 4.0 / 5.0
  {
    var specs := BuildSpecs(intent, filled, averagePrice, f).value;
    var a, b := specs[..1], specs[1..];
    assert specs == a + b;
    assert filled * TP1_FRACTION == filled * 2.0 / 5.0 && filled * TP2_FRACTION == filled * 2.0 / 5.0;
    TargetQuantityAppend(a, b);
    if |specs| == 3 {
      assert b == [specs[1]] + [specs[2]];
      TargetQuantityAppend([specs[1]], [specs[2]]);
    }
  }

  /** The final target is at or beyond some tick that is itself beyond the first. */
  ghost predicate TickBetween(side: PositionSide, tp1: real, tp2: real, tick: real) {
    exists g :: OnGrid(g, tick) && (if side.Long? then tp1 < g <= tp2 else tp2 <= g < tp1)
  }

  /** The set exists exactly if there is no first target, or rounding leaves it in front of the final one. */
  lemma SpecsExist(intent: Intent, filled: real, averagePrice: real, f: Filters)
    requires ValidFilters(f)
    ensures var r, tp1 := BuildSpecs(intent, filled, averagePrice, f), TpForFill(intent, averagePrice);
            && (r.Ok? <==> tp1.None? || TickBetween(intent.side, tp1.value, intent.tp2, f.tick))
            && (r.Err? ==> r.error == TargetOrder)
  {
    hide FloorTo, CeilTo, OnGrid, TpForFill, WantedStop, WantedTarget;
    var tp1 := TpForFill(intent, averagePrice);
    if tp1.Some? {
      var near, far := RoundTarget(intent.side, tp1.value, f.tick), RoundTarget(intent.side, intent.tp2, f.tick);
      if TickBetween(intent.side, tp1.value, intent.tp2, f.tick) {
        var g :| OnGrid(g, f.tick) && (if intent.side.Long? then tp1.value < g <= intent.tp2 else intent.tp2 <= g < tp1.value);
        if (if intent.side.Long? then far < g else far > g) {
          GridGap(far, g, f.tick);
        }
      } else if Tighter(intent.side, far, near) {
        if !(if intent.side.Long? then tp1.value < far else far < tp1.value) {
          GridGap(near, far, f.tick);
        }
      }
    }
  }

  lemma {:induction false} TargetQuantityAppend(a: seq<AlgoOrder>, b: seq<AlgoOrder>)
    ensures TargetQuantity(a + b) == TargetQuantity(a) + TargetQuantity(b)
  {
    if a == [] {
      assert a + b == b;
    } else {
      TargetQuantityAppend(a[1..], b);
      assert (a + b)[1..] == a[1..] + b;
    }
  }

  // ----- Comparing sets of orders -----

  datatype OrderKey = OrderKey(
    side: OrderSide, positionSide: PositionSide, kind: OrderKind, trigger: real, quantity: real, closePosition: bool)

  function KeyOf(o: AlgoOrder): OrderKey {
    OrderKey(o.side, o.positionSide, o.kind, o.trigger, o.quantity, o.closePosition)
  }

  function Keys(rows: seq<AlgoOrder>): (r: seq<OrderKey>)
    ensures |r| == |rows|
    ensures forall i :: 0 <= i < |rows| ==> r[i] == KeyOf(rows[i])
  {
    seq(|rows|, i requires 0 <= i < |rows| => KeyOf(rows[i]))
  }

  /** The two lists ask for the same orders, each as often as the other. */
  ghost predicate SameOrders(a: seq<AlgoOrder>, b: seq<AlgoOrder>) {
    multiset(Keys(a)) == multiset(Keys(b))
  }

  function Stops(rows: seq<AlgoOrder>): nat {
    if rows == [] then 0 else (if rows[0].kind == StopMarket then 1 else 0) + Stops(rows[1..])
  }

  /** Index of the first row that asks for the same order; `|rows|` when there is none. */
  function FirstMatch(rows: seq<AlgoOrder>, wanted: AlgoOrder): (k: nat)
    ensures k <= |rows|
    ensures k < |rows| ==> Matches(rows[k], wanted)
    ensures forall i :: 0 <= i < k ==> !Matches(rows[i], wanted)
  {
    if rows == [] then 0
    else if Matches(rows[0], wanted) then 0
    else 1 + FirstMatch(rows[1..], wanted)
  }

  lemma KeysAppend(a: seq<AlgoOrder>, b: seq<AlgoOrder>)
    ensures Keys(a + b) == Keys(a) + Keys(b)
  {
  }

  lemma KeysPop(rows: seq<AlgoOrder>, k: nat)
    requires k < |rows|
    ensures multiset(Keys(rows)) == multiset(Keys(rows[..k] + rows[k + 1..])) + multiset{KeyOf(rows[k])}
  {
    assert rows == rows[..k] + [rows[k]] + rows[k + 1..];
    KeysAppend(rows[..k] + [rows[k]], rows[k + 1..]);
    KeysAppend(rows[..k], [rows[k]]);
    KeysAppend(rows[..k], rows[k + 1..]);
  }

  lemma NoMatchNoKey(rows: seq<AlgoOrder>, wanted: AlgoOrder)
    requires forall i :: 0 <= i < |rows| ==> !Matches(rows[i], wanted)
    ensures multiset(Keys(rows))[KeyOf(wanted)] == 0
  {
    assert forall i :: 0 <= i < |rows| ==> Keys(rows)[i] != KeyOf(wanted);
  }

  /** `rest` is what is left of `all` when orders like the ones `done` are taken away. */
  ghost predicate Popped(all: seq<AlgoOrder>, rest: seq<AlgoOrder>, done: seq<AlgoOrder>) {
    multiset(Keys(all)) == multiset(Keys(rest)) + multiset(Keys(done))
  }

  lemma PoppedNone(all: seq<AlgoOrder>, specs: seq<AlgoOrder>)
    ensures Popped(all, all, specs[..0])
  {
  }

  lemma PoppedMissing(all: seq<AlgoOrder>, rest: seq<AlgoOrder>, specs: seq<AlgoOrder>, i: nat)
    requires i < |specs| && Popped(all, rest, specs[..i]) && forall k :: 0 <= k < |rest| ==> !Matches(rest[k], specs[i])
    ensures !SameOrders(all, specs)
  {
    assert specs == specs[..i] + ([specs[i]] + specs[i + 1..]);
    KeysAppend(specs[..i], [specs[i]] + specs[i + 1..]);
    KeysAppend([specs[i]], specs[i + 1..]);
    NoMatchNoKey(rest, specs[i]);
    assert multiset(Keys(all))[KeyOf(specs[i])] < multiset(Keys(specs))[KeyOf(specs[i])];
  }

  lemma PoppedOne(all: seq<AlgoOrder>, rest: seq<AlgoOrder>, specs: seq<AlgoOrder>, i: nat, k: nat)
    requires i < |specs| && k < |rest| && Popped(all, rest, specs[..i]) && Matches(rest[k], specs[i])
    ensures Popped(all, rest[..k] + rest[k + 1..], specs[..i + 1])
  {
    KeysPop(rest, k);
    assert specs[..i + 1] == specs[..i] + [specs[i]];
    KeysAppend(specs[..i], [specs[i]]);
    assert KeyOf(rest[k]) == KeyOf(specs[i]) && Keys([specs[i]]) == [KeyOf(specs[i])];
  }

  lemma PoppedAll(all: seq<AlgoOrder>, rest: seq<AlgoOrder>, specs: seq<AlgoOrder>)
    requires Popped(all, rest, specs)
    ensures SameOrders(all, specs) <==> rest == []
  {
    if rest != [] {
      assert Keys(rest)[0] in multiset(Keys(rest));
    }
  }

  /** Accepts exactly the lists with one hard stop that ask for the wanted orders and no others. */
  method ValidateProtectionSet(specs: seq<AlgoOrder>, active: seq<AlgoOrder>) returns (r: Result<(), AlgoError>)
    ensures r.Ok? <==> Stops(active) == 1 && SameOrders(active, specs)
    ensures r == Err(NotOneHardStop) <==> Stops(active) != 1
    ensures r.Err? ==> r.error in {NotOneHardStop, SetMismatch, UnexpectedOrders}
  {
    hide SameOrders, Stops, FirstMatch, Matches, Keys;
    if Stops(active) != 1 {
      return Err(NotOneHardStop);
    }
    var unmatched := active;
    PoppedNone(active, specs);
    hide Popped;
    for i := 0 to |specs|
      invariant Popped(active, unmatched, specs[..i])
    {
      var k := FirstMatch(unmatched, specs[i]);
      if k == |unmatched| {
        PoppedMissing(active, unmatched, specs, i);
        return Err(SetMismatch);
      }
      PoppedOne(active, unmatched, specs, i, k);
      unmatched := unmatched[..k] + unmatched[k + 1..];
    }
    assert specs[..|specs|] == specs;
    PoppedAll(active, unmatched, specs);
    return if unmatched != [] then Err(UnexpectedOrders) else Ok(());
  }

  // ----- Bringing the exchange to the wanted set -----

  predicate ManagedOf(o: AlgoOrder, side: PositionSide) {
    o.positionSide == side && o.kind != OtherKind && Managed(o.name)
  }

  function WorkingManaged(rows: seq<AlgoOrder>, side: PositionSide): (r: seq<AlgoOrder>)
    ensures forall o :: o in r <==> o in rows && o.active && ManagedOf(o, side)
  {
    if rows == [] then []
    else (if rows[0].active && ManagedOf(rows[0], side) then [rows[0]] else []) + WorkingManaged(rows[1..], side)
  }

  predicate Provides(rows: seq<AlgoOrder>, side: PositionSide, wanted: AlgoOrder) {
    exists i :: 0 <= i < |rows| && rows[i].active && ManagedOf(rows[i], side) && Matches(rows[i], wanted)
  }

  predicate DistinctKeys(specs: seq<AlgoOrder>) {
    forall i, j :: 0 <= i < j < |specs| ==> !Matches(specs[i], specs[j])
  }

  function FreeMatch(rows: seq<AlgoOrder>, wanted: AlgoOrder, taken: set<OrderName>): (r: Option<AlgoOrder>)
    ensures r.Some? ==> r.value in rows && r.value.name !in taken && Matches(r.value, wanted)
    ensures r.None? ==> forall o :: o in rows && o.name !in taken ==> !Matches(o, wanted)
  {
    if rows == [] then None
    else if rows[0].name !in taken && Matches(rows[0], wanted) then Some(rows[0])
    else
      assert rows == [rows[0]] + rows[1..];
      FreeMatch(rows[1..], wanted, taken)
  }

  /** An order asks for one thing only. */
  lemma OneMatch(o: AlgoOrder, s: AlgoOrder, t: AlgoOrder)
    requires Matches(o, s)
    ensures Matches(o, t) <==> Matches(s, t)
  {
  }

  /** The names of the listed orders that are kept, each for the first wanted order it answers. */
  function Retained(listed: seq<AlgoOrder>, specs: seq<AlgoOrder>, taken: set<OrderName>): set<OrderName>
    decreases |specs|
  {
    if specs == [] then taken
    else
      var current := FreeMatch(listed, specs[0], taken);
      Retained(listed, specs[1..], if current.Some? then taken + {current.value.name} else taken)
  }

  /** Which listed orders already are what is wanted, and which wanted orders are missing. */
  method Retain(listed: seq<AlgoOrder>, specs: seq<AlgoOrder>)
    returns (retained: set<OrderName>, orders: seq<AlgoOrder>, missing: seq<AlgoOrder>)
    requires DistinctKeys(specs)
    requires DistinctNames(listed)
    ensures Split(listed, specs, retained, orders, missing)
    ensures |orders| + |missing| == |specs| && retained == Retained(listed, specs, {})
    ensures SameOrders(listed, specs) ==> missing == [] && forall o :: o in listed ==> o.name in retained
    ensures MakeUp(KeptOf(listed, retained), missing, specs)
    ensures DistinctNames(specs) ==> DistinctNames(missing)
  {
    hide Picked, Matches, SameOrders, FreeMatch, DistinctKeys, OneEach, Sorted, Retained, Split, DistinctNames, KeptOf, MakeUp;
    NamesOnce(listed);
    MakeUpStart(listed, specs);
    PickedStart(specs);
    PickedMeans(specs);
    assert specs[..|specs|] == specs;
    retained, orders, missing := {}, [], [];
    ghost var kept: seq<Option<AlgoOrder>> := [];
    SortedStart(listed, specs);
    for i := 0 to |specs|
      invariant Sorted(kept, listed, specs, i, retained, orders, missing)
      invariant MakeUp(KeptOf(listed, retained), missing, specs[..i])
      invariant Picked(missing, specs[..i])
    {
      var current := FreeMatch(listed, specs[i], retained);
      MakeUpStep(listed, specs, i, retained, missing, current);
      PickedStep(missing, specs, i);
      SortedStep(kept, listed, specs, i, retained, orders, missing, current);
      if current.Some? {
        retained := retained + {current.value.name};
        orders := orders + [current.value];
      } else {
        missing := missing + [specs[i]];
      }
      kept := kept + [current];
    }
    SortedEnd(kept, listed, specs, retained, orders, missing);
    if SameOrders(listed, specs) {
      SameIsKept(listed, specs, retained, orders, missing);
    }
  }

  predicate DistinctNames(listed: seq<AlgoOrder>) {
    forall i, j :: 0 <= i < j < |listed| ==> listed[i].name != listed[j].name
  }

  /** Some of the given orders, each at most once. */
  predicate Picked(some: seq<AlgoOrder>, all: seq<AlgoOrder>) {
    (forall s :: s in some ==> s in all) && (DistinctNames(all) ==> DistinctNames(some))
  }

  lemma PickedStart(specs: seq<AlgoOrder>)
    ensures Picked([], specs[..0])
  {
  }

  lemma PickedStep(some: seq<AlgoOrder>, specs: seq<AlgoOrder>, i: nat)
    requires i < |specs| && Picked(some, specs[..i])
    ensures Picked(some, specs[..i + 1]) && Picked(some + [specs[i]], specs[..i + 1])
  {
    var front, all := specs[..i], specs[..i + 1];
    assert all == front + [specs[i]];
    if DistinctNames(all) {
      assert forall j, k :: 0 <= j < k < |front| ==> front[j] == all[j] && front[k] == all[k];
      forall s | s in some
        ensures s.name != specs[i].name
      {
        var j :| 0 <= j < |front| && front[j] == s;
        assert all[j].name != all[i].name;
      }
    }
  }

  lemma PickedMeans(specs: seq<AlgoOrder>)
    ensures forall some :: Picked(some, specs) && DistinctNames(specs) ==> DistinctNames(some)
  {
  }

  /** The listed orders that are kept. */
  function KeptOf(listed: seq<AlgoOrder>, retained: set<OrderName>): (r: seq<AlgoOrder>)
    ensures forall o :: o in r ==> o in listed
  {
    if listed == [] then []
    else if listed[0].name in retained then [listed[0]] + KeptOf(listed[1..], retained)
    else KeptOf(listed[1..], retained)
  }

  /** Two lists together ask for what a third asks for, and have as many stops. */
  ghost predicate MakeUp(a: seq<AlgoOrder>, b: seq<AlgoOrder>, whole: seq<AlgoOrder>) {
    && multiset(Keys(a)) + multiset(Keys(b)) == multiset(Keys(whole))
    && Stops(a) + Stops(b) == Stops(whole)
  }

  lemma NamesOnce(listed: seq<AlgoOrder>)
    ensures DistinctNames(listed) ==> OneEach(listed)
  {
  }

  lemma {:induction false} KeptOfNone(listed: seq<AlgoOrder>)
    ensures KeptOf(listed, {}) == []
  {
    if listed != [] {
      KeptOfNone(listed[1..]);
    }
  }

  lemma MakeUpStart(listed: seq<AlgoOrder>, specs: seq<AlgoOrder>)
    ensures MakeUp(KeptOf(listed, {}), [], specs[..0])
  {
    KeptOfNone(listed);
    assert Keys([]) == [];
  }

  /** One more name keeps one more order. */
  lemma {:induction false} KeptOfMore(listed: seq<AlgoOrder>, retained: set<OrderName>, o: AlgoOrder)
    requires DistinctNames(listed) && o in listed && o.name !in retained
    ensures var before, after := KeptOf(listed, retained), KeptOf(listed, retained + {o.name});
            && multiset(Keys(after)) == multiset(Keys(before)) + multiset{KeyOf(o)}
            && Stops(after) == Stops(before) + (if o.kind == StopMarket then 1 else 0)
  {
    hide KeptOf, Keys, Stops, KeyOf, DistinctNames;
    var first, rest := listed[0], listed[1..];
    assert listed == [first] + rest;
    RestNames(listed);
    var before, after := KeptOf(rest, retained), KeptOf(rest, retained + {o.name});
    KeptOfCons(first, rest, retained);
    KeptOfCons(first, rest, retained + {o.name});
    CountsCons(first, before);
    CountsCons(first, after);
    if first == o {
      KeptOfOther(rest, retained, o.name);
    } else {
      KeptOfMore(rest, retained, o);
    }
  }

  lemma RestNames(listed: seq<AlgoOrder>)
    requires listed != [] && DistinctNames(listed)
    ensures DistinctNames(listed[1..]) && forall x :: x in listed[1..] ==> x.name != listed[0].name
  {
    var rest := listed[1..];
    forall i | 0 <= i < |rest|
      ensures rest[i] == listed[i + 1] && rest[i].name != listed[0].name
    {
    }
  }

  lemma CountsCons(first: AlgoOrder, rest: seq<AlgoOrder>)
    ensures multiset(Keys([first] + rest)) == multiset{KeyOf(first)} + multiset(Keys(rest))
    ensures Stops([first] + rest) == (if first.kind == StopMarket then 1 else 0) + Stops(rest)
  {
    OneStop(first);
    KeysAppend([first], rest);
    StopsAppend([first], rest);
  }

  lemma KeptOfCons(first: AlgoOrder, rest: seq<AlgoOrder>, retained: set<OrderName>)
    ensures KeptOf([first] + rest, retained) ==
            if first.name in retained then [first] + KeptOf(rest, retained) else KeptOf(rest, retained)
  {
    assert ([first] + rest)[1..] == rest;
  }

  lemma {:induction false} KeptOfOther(listed: seq<AlgoOrder>, retained: set<OrderName>, name: OrderName)
    requires forall o :: o in listed ==> o.name != name
    ensures KeptOf(listed, retained + {name}) == KeptOf(listed, retained)
  {
    if listed != [] {
      assert listed[0] in listed;
      KeptOfOther(listed[1..], retained, name);
    }
  }

  lemma {:induction false} StopsAppend(a: seq<AlgoOrder>, b: seq<AlgoOrder>)
    ensures Stops(a + b) == Stops(a) + Stops(b)
  {
    if a == [] {
      assert a + b == b;
    } else {
      StopsAppend(a[1..], b);
      assert (a + b)[1..] == a[1..] + b;
    }
  }

  lemma OneStop(o: AlgoOrder)
    ensures Stops([o]) == (if o.kind == StopMarket then 1 else 0) && Keys([o]) == [KeyOf(o)]
  {
    assert [o][1..] == [];
  }

  lemma MakeUpStep(listed: seq<AlgoOrder>, specs: seq<AlgoOrder>, i: nat, retained: set<OrderName>,
                   missing: seq<AlgoOrder>, current: Option<AlgoOrder>)
    requires i < |specs| && DistinctNames(listed) && MakeUp(KeptOf(listed, retained), missing, specs[..i])
    requires current == FreeMatch(listed, specs[i], retained)
    ensures if current.Some? then MakeUp(KeptOf(listed, retained + {current.value.name}), missing, specs[..i + 1])
            else MakeUp(KeptOf(listed, retained), missing + [specs[i]], specs[..i + 1])
  {
    hide FreeMatch, KeptOf, DistinctNames, Stops, Keys;
    assert specs[..i + 1] == specs[..i] + [specs[i]];
    KeysAppend(specs[..i], [specs[i]]);
    StopsAppend(specs[..i], [specs[i]]);
    OneStop(specs[i]);
    if current.Some? {
      KeptOfMore(listed, retained, current.value);
      assert KeyOf(current.value) == KeyOf(specs[i]);
    } else {
      KeysAppend(missing, [specs[i]]);
      StopsAppend(missing, [specs[i]]);
    }
  }

  /** The names of the listed orders are distinct. */
  predicate OneEach(listed: seq<AlgoOrder>) {
    forall a, b :: a in listed && b in listed && a.name == b.name ==> a == b
  }

  /** The first `i` wanted orders have been looked for: what was kept, what is reported, what is missing. */
  ghost predicate Sorted(kept: seq<Option<AlgoOrder>>, listed: seq<AlgoOrder>, specs: seq<AlgoOrder>, i: nat,
                         retained: set<OrderName>, orders: seq<AlgoOrder>, missing: seq<AlgoOrder>) {
    && i <= |specs| && |kept| == i && |orders| + |missing| == i
    && (forall s :: s in missing ==> s in specs)
    && (forall s, o :: s in missing && o in listed ==> !Matches(o, s))
    && KeptFrom(kept, listed, specs, retained)
    && Retained(listed, specs[i..], retained) == Retained(listed, specs, {})
    && (forall j :: 0 <= j < i ==> if kept[j].Some? then kept[j].value in orders else specs[j] in missing)
  }

  lemma SortedStart(listed: seq<AlgoOrder>, specs: seq<AlgoOrder>)
    ensures Sorted([], listed, specs, 0, {}, [], [])
  {
    assert specs[0..] == specs;
  }

  lemma SortedStep(kept: seq<Option<AlgoOrder>>, listed: seq<AlgoOrder>, specs: seq<AlgoOrder>, i: nat,
                   retained: set<OrderName>, orders: seq<AlgoOrder>, missing: seq<AlgoOrder>, current: Option<AlgoOrder>)
    requires i < |specs| && DistinctKeys(specs) && OneEach(listed)
    requires Sorted(kept, listed, specs, i, retained, orders, missing)
    requires current == FreeMatch(listed, specs[i], retained)
    ensures Sorted(kept + [current], listed, specs, i + 1,
                   if current.Some? then retained + {current.value.name} else retained,
                   if current.Some? then orders + [current.value] else orders,
                   if current.Some? then missing else missing + [specs[i]])
  {
    KeptMore(kept, listed, specs, retained, i, current);
    assert specs[i..][0] == specs[i] && specs[i..][1..] == specs[i + 1..];
    hide KeptFrom, Matches, FreeMatch, DistinctKeys, OneEach;
  }

  /** Every wanted order that is there is kept, every other is missing, and nothing else. */
  ghost predicate Split(listed: seq<AlgoOrder>, specs: seq<AlgoOrder>, retained: set<OrderName>,
                        orders: seq<AlgoOrder>, missing: seq<AlgoOrder>) {
    && (forall s :: s in missing ==> s in specs)
    && (forall s, o :: s in missing && o in listed ==> !Matches(o, s))
    && (forall s :: s in specs ==>
                      if exists o :: o in listed && Matches(o, s)
                      then exists o :: o in listed && Matches(o, s) && o.name in retained
                      else s in missing)
    && (forall o :: o in listed && o.name in retained ==> exists s :: s in specs && Matches(o, s))
    && (forall s :: s in specs && s !in missing ==> exists o :: o in orders && o in listed && Matches(o, s))
  }

  lemma SortedEnd(kept: seq<Option<AlgoOrder>>, listed: seq<AlgoOrder>, specs: seq<AlgoOrder>,
                  retained: set<OrderName>, orders: seq<AlgoOrder>, missing: seq<AlgoOrder>)
    requires OneEach(listed) && Sorted(kept, listed, specs, |specs|, retained, orders, missing)
    ensures Split(listed, specs, retained, orders, missing)
    ensures |orders| + |missing| == |specs| && retained == Retained(listed, specs, {})
  {
    hide Matches;
    AllAnswered(kept, listed, specs, retained, orders, missing);
    hide KeptFrom, OneEach;
  }

  lemma MissingWanted(listed: seq<AlgoOrder>, specs: seq<AlgoOrder>, retained: set<OrderName>, orders: seq<AlgoOrder>,
                      missing: seq<AlgoOrder>)
    requires Split(listed, specs, retained, orders, missing)
    ensures forall s :: s in missing ==> s in specs
  {
  }

  lemma SameIsKept(listed: seq<AlgoOrder>, specs: seq<AlgoOrder>, retained: set<OrderName>, orders: seq<AlgoOrder>,
                   missing: seq<AlgoOrder>)
    requires DistinctKeys(specs) && Split(listed, specs, retained, orders, missing) && SameOrders(listed, specs)
    ensures missing == [] && forall o :: o in listed ==> o.name in retained
  {
    hide Matches, SameOrders, DistinctKeys;
    AllProvided(listed, specs, missing);
    AllRetained(listed, specs, retained);
  }

  /** The first wanted orders were answered by `kept`, and `retained` names what was kept. */
  ghost predicate KeptFrom(kept: seq<Option<AlgoOrder>>, listed: seq<AlgoOrder>, specs: seq<AlgoOrder>,
                           retained: set<OrderName>) {
    && |kept| <= |specs|
    && (forall n :: n in retained ==> exists j :: 0 <= j < |kept| && kept[j].Some? && kept[j].value.name == n)
    && (forall j :: 0 <= j < |kept| && kept[j].Some? ==>
                      kept[j].value in listed && Matches(kept[j].value, specs[j]) && kept[j].value.name in retained)
    && (forall j, o :: 0 <= j < |kept| && kept[j].None? && o in listed ==> !Matches(o, specs[j]))
  }

  /** A listed order that was kept for another wanted order does not match this one, so none is left over. */
  lemma KeptMore(kept: seq<Option<AlgoOrder>>, listed: seq<AlgoOrder>, specs: seq<AlgoOrder>,
                                    retained: set<OrderName>, i: nat, current: Option<AlgoOrder>)
    requires DistinctKeys(specs) && KeptFrom(kept, listed, specs, retained) && i == |kept| < |specs|
    requires OneEach(listed)
    requires current == FreeMatch(listed, specs[i], retained)
    ensures KeptFrom(kept + [current], listed, specs,
                     if current.Some? then retained + {current.value.name} else retained)
    ensures current.None? ==> forall o :: o in listed ==> !Matches(o, specs[i])
  {
    hide Matches, FreeMatch;
    forall o | o in listed && current.None?
      ensures !Matches(o, specs[i])
    {
      if o.name in retained {
        var j :| 0 <= j < |kept| && kept[j].Some? && kept[j].value.name == o.name;
        OneMatch(o, specs[j], specs[i]);
      }
    }
    var more, names := kept + [current], if current.Some? then retained + {current.value.name} else retained;
    assert more[i] == current && forall j :: 0 <= j < i ==> more[j] == kept[j];
    forall n | n in names
      ensures exists j :: 0 <= j < |more| && more[j].Some? && more[j].value.name == n
    {
      if n in retained {
        var j :| 0 <= j < |kept| && kept[j].Some? && kept[j].value.name == n;
        assert more[j].value.name == n;
      } else {
        assert more[i].value.name == n;
      }
    }
  }

  lemma AllAnswered(kept: seq<Option<AlgoOrder>>, listed: seq<AlgoOrder>, specs: seq<AlgoOrder>,
                                       retained: set<OrderName>, orders: seq<AlgoOrder>, missing: seq<AlgoOrder>)
    requires |kept| == |specs| && KeptFrom(kept, listed, specs, retained)
    requires OneEach(listed)
    requires forall j :: 0 <= j < |kept| ==> if kept[j].Some? then kept[j].value in orders else specs[j] in missing
    ensures forall s :: s in specs ==>
                          if exists o :: o in listed && Matches(o, s)
                          then exists o :: o in listed && Matches(o, s) && o.name in retained
                          else s in missing
    ensures forall s :: s in specs && s !in missing ==> exists o :: o in orders && o in listed && Matches(o, s)
    ensures forall o :: o in listed && o.name in retained ==> exists s :: s in specs && Matches(o, s)
  {
    hide Matches;
    forall o | o in listed && o.name in retained
      ensures exists s :: s in specs && Matches(o, s)
    {
      var j :| 0 <= j < |kept| && kept[j].Some? && kept[j].value.name == o.name;
      assert specs[j] in specs;
    }
    forall s | s in specs
      ensures if exists o :: o in listed && Matches(o, s)
              then exists o :: o in listed && Matches(o, s) && o.name in retained
              else s in missing
      ensures s !in missing ==> exists o :: o in orders && o in listed && Matches(o, s)
    {
      var j :| 0 <= j < |specs| && specs[j] == s;
      if kept[j].Some? {
        assert Matches(kept[j].value, s);
      }
    }
  }

  lemma CountAtMostOne(keys: seq<OrderKey>, key: OrderKey)
    requires forall i, j :: 0 <= i < j < |keys| ==> keys[i] != keys[j]
    ensures multiset(keys)[key] <= 1
  {
    if keys != [] {
      assert keys == [keys[0]] + keys[1..];
      CountAtMostOne(keys[1..], key);
      assert keys[0] == key ==> key !in keys[1..];
    }
  }

  lemma CountAtLeastTwo(keys: seq<OrderKey>, i: nat, j: nat)
    requires i < j < |keys| && keys[i] == keys[j]
    ensures multiset(keys)[keys[i]] >= 2
  {
    assert keys == keys[..i + 1] + keys[i + 1..];
    assert keys[..i + 1][i] == keys[i] && keys[i + 1..][j - i - 1] == keys[j];
    assert multiset(keys) == multiset(keys[..i + 1]) + multiset(keys[i + 1..]);
    assert keys[i] in multiset(keys[..i + 1]) && keys[i] in multiset(keys[i + 1..]);
  }

  lemma AllProvided(listed: seq<AlgoOrder>, specs: seq<AlgoOrder>, missing: seq<AlgoOrder>)
    requires SameOrders(listed, specs)
    requires forall s :: s in missing ==> s in specs
    requires forall s, o :: s in missing && o in listed ==> !Matches(o, s)
    ensures missing == []
  {
    if missing != [] {
      var s := missing[0];
      assert s in missing && s in specs;
      var i :| 0 <= i < |specs| && specs[i] == s;
      assert Keys(specs)[i] in multiset(Keys(specs));
      assert KeyOf(s) in Keys(listed);
      var j :| 0 <= j < |listed| && Keys(listed)[j] == KeyOf(s);
      assert Matches(listed[j], s);
      assert false;
    }
  }

  lemma AllRetained(listed: seq<AlgoOrder>, specs: seq<AlgoOrder>, retained: set<OrderName>)
    requires SameOrders(listed, specs) && DistinctKeys(specs)
    requires forall s :: s in specs && (exists o :: o in listed && Matches(o, s)) ==>
                           exists o :: o in listed && Matches(o, s) && o.name in retained
    ensures forall o :: o in listed ==> o.name in retained
  {
    forall i | 0 <= i < |listed|
      ensures listed[i].name in retained
    {
      var key := KeyOf(listed[i]);
      assert Keys(listed)[i] in multiset(Keys(listed));
      assert key in Keys(specs);
      var k :| 0 <= k < |specs| && Keys(specs)[k] == key;
      assert listed[i] in listed && specs[k] in specs && Matches(listed[i], specs[k]);
      var o :| o in listed && Matches(o, specs[k]) && o.name in retained;
      var j :| 0 <= j < |listed| && listed[j] == o;
      assert Keys(listed)[j] == key && Keys(listed)[i] == key;
      assert forall a, b :: 0 <= a < b < |specs| ==> Keys(specs)[a] == Keys(specs)[b] ==> Matches(specs[a], specs[b]);
      CountAtMostOne(Keys(specs), key);
      if i < j {
        CountAtLeastTwo(Keys(listed), i, j);
      } else if j < i {
        CountAtLeastTwo(Keys(listed), j, i);
      }
    }
  }

  /**
    `rows` is `start` after managed orders of `side` other than the `kept` ones were
    deactivated and some of the wanted orders were added.
   */
  predicate Rebuilt(start: seq<AlgoOrder>, rows: seq<AlgoOrder>, side: PositionSide, specs: seq<AlgoOrder>,
                    kept: set<OrderName>) {
    && |start| <= |rows|
    && (forall i :: 0 <= i < |start| ==>
                      || rows[i] == start[i]
                      || (ManagedOf(start[i], side) && start[i].name !in kept && rows[i] == start[i].(active := false)))
    && (forall i :: |start| <= i < |rows| ==> rows[i] in specs)
  }

  predicate AllRebuilt(trace: seq<seq<AlgoOrder>>, since: nat, start: seq<AlgoOrder>, side: PositionSide,
                       specs: seq<AlgoOrder>, kept: set<OrderName>) {
    forall k :: since <= k < |trace| ==> Rebuilt(start, trace[k], side, specs, kept)
  }

  lemma CancelRebuilds(start: seq<AlgoOrder>, rows: seq<AlgoOrder>, side: PositionSide, specs: seq<AlgoOrder>,
                       kept: set<OrderName>, o: AlgoOrder)
    requires Rebuilt(start, rows, side, specs, kept) && |rows| == |start| && UniqueNames(start)
    requires o in start && o.active && ManagedOf(o, side) && o.name !in kept
    ensures Rebuilt(start, Deactivate(rows, o.name), side, specs, kept)
  {
    var k :| 0 <= k < |start| && start[k] == o;
    var after := Deactivate(rows, o.name);
    forall i | 0 <= i < |start|
      ensures || after[i] == start[i]
              || (ManagedOf(start[i], side) && start[i].name !in kept && after[i] == start[i].(active := false))
    {
      assert start[i].active && start[i].name == o.name ==> i == k;
    }
  }

  lemma RebuiltAtFirst(start: seq<AlgoOrder>, side: PositionSide, specs: seq<AlgoOrder>, kept: set<OrderName>)
    ensures Rebuilt(start, start, side, specs, kept)
  {
  }

  lemma SubmitRebuilds(start: seq<AlgoOrder>, rows: seq<AlgoOrder>, side: PositionSide, specs: seq<AlgoOrder>,
                       kept: set<OrderName>, order: AlgoOrder)
    requires Rebuilt(start, rows, side, specs, kept) && order in specs
    ensures Rebuilt(start, rows + [order], side, specs, kept)
  {
  }

  lemma NothingRebuilt(trace: seq<seq<AlgoOrder>>, start: seq<AlgoOrder>, side: PositionSide, specs: seq<AlgoOrder>,
                       kept: set<OrderName>)
    ensures AllRebuilt(trace, |trace|, start, side, specs, kept)
  {
  }

  lemma RebuiltGrows(trace: seq<seq<AlgoOrder>>, since: nat, start: seq<AlgoOrder>, side: PositionSide,
                     specs: seq<AlgoOrder>, kept: set<OrderName>, rows: seq<AlgoOrder>)
    requires AllRebuilt(trace, since, start, side, specs, kept) && Rebuilt(start, rows, side, specs, kept)
    ensures AllRebuilt(trace + [rows], since, start, side, specs, kept)
  {
    hide Rebuilt;
  }

  lemma RebuiltThrough(before: seq<seq<AlgoOrder>>, trace: seq<seq<AlgoOrder>>, since: nat, start: seq<AlgoOrder>,
                       side: PositionSide, specs: seq<AlgoOrder>, kept: set<OrderName>)
    requires before <= trace && since <= |before|
    requires AllRebuilt(before, since, start, side, specs, kept) && AllRebuilt(trace, |before|, start, side, specs, kept)
    ensures AllRebuilt(trace, since, start, side, specs, kept)
  {
    hide Rebuilt;
    forall k | since <= k < |trace|
      ensures Rebuilt(start, trace[k], side, specs, kept)
    {
      if k < |before| {
        assert trace[k] == before[k];
      }
    }
  }

  /** Through all of that, a wanted order that was there at the start stays working. */
  lemma RebuiltProvides(start: seq<AlgoOrder>, rows: seq<AlgoOrder>, side: PositionSide,
                        specs: seq<AlgoOrder>, kept: set<OrderName>, o: AlgoOrder, wanted: AlgoOrder)
    requires Rebuilt(start, rows, side, specs, kept)
    requires o in start && o.active && ManagedOf(o, side) && Matches(o, wanted) && o.name in kept
    ensures Provides(rows, side, wanted)
  {
    var k :| 0 <= k < |start| && start[k] == o;
    assert rows[k] == o;
  }

  /** How many of the listed orders are not kept. */
  function StaleCount(listed: seq<AlgoOrder>, retained: set<OrderName>): nat {
    if listed == [] then 0
    else
      StaleCount(listed[..|listed| - 1], retained) + (if listed[|listed| - 1].name in retained then 0 else 1)
  }

  lemma {:induction false} StaleCountGrows(listed: seq<AlgoOrder>, retained: set<OrderName>, i: nat)
    requires i < |listed|
    ensures StaleCount(listed[..i + 1], retained) ==
            StaleCount(listed[..i], retained) + (if listed[i].name in retained then 0 else 1)
    ensures StaleCount(listed[..i + 1], retained) <= StaleCount(listed, retained)
    decreases |listed|
  {
    assert listed[..i + 1][..i] == listed[..i];
    if i + 1 < |listed| {
      var front := listed[..|listed| - 1];
      StaleCountGrows(front, retained, i);
      assert front[..i] == listed[..i] && front[..i + 1] == listed[..i + 1];
    } else {
      assert listed[..i + 1] == listed;
    }
  }

  /** A cancellation ends its name and wakes no other. */
  lemma EndedStays(rows: seq<AlgoOrder>, name: OrderName)
    ensures !NameActive(Deactivate(rows, name), name)
    ensures forall other :: NameActive(Deactivate(rows, name), other) ==> NameActive(rows, other)
  {
  }

  /** The first `n` requests are answered and take effect. */
  predicate CalmFirst(replies: seq<Reply>, n: nat) {
    n <= |replies| && forall i :: 0 <= i < n ==> replies[i] == CALM
  }

  /**
    With calm replies `count` of the listed orders have been cancelled: they have ended, no
    cancellation was lost, and that many replies are used up.
   */
  ghost predicate Calmly(before: seq<Reply>, replies: seq<Reply>, done: seq<AlgoOrder>, retained: set<OrderName>,
                         stale: set<OrderName>, rows: seq<AlgoOrder>) {
    var count := StaleCount(done, retained);
    && count <= |before| && replies == before[count..]
    && forall j :: 0 <= j < |done| && done[j].name !in retained ==> done[j].name in stale && !NameActive(rows, done[j].name)
  }

  lemma CalmlyKeeps(before: seq<Reply>, replies: seq<Reply>, listed: seq<AlgoOrder>, i: nat, retained: set<OrderName>,
                    stale: set<OrderName>, rows: seq<AlgoOrder>)
    requires i < |listed| && listed[i].name in retained
    requires Calmly(before, replies, listed[..i], retained, stale, rows)
    ensures Calmly(before, replies, listed[..i + 1], retained, stale, rows)
  {
    StaleCountGrows(listed, retained, i);
    hide StaleCount, NameActive;
  }

  lemma CalmlyCancels(before: seq<Reply>, replies: seq<Reply>, listed: seq<AlgoOrder>, i: nat, retained: set<OrderName>,
                      stale: set<OrderName>, rows: seq<AlgoOrder>)
    requires i < |listed| && listed[i].name !in retained && CalmFirst(before, StaleCount(listed, retained))
    requires Calmly(before, replies, listed[..i], retained, stale, rows)
    ensures NextReply(replies) == CALM
    ensures Calmly(before, Rest(replies), listed[..i + 1], retained, stale + {listed[i].name},
                   Deactivate(rows, listed[i].name))
  {
    StaleCountGrows(listed, retained, i);
    EndedStays(rows, listed[i].name);
    hide StaleCount, NameActive;
  }

  lemma CalmlyStarts(before: seq<Reply>, retained: set<OrderName>, rows: seq<AlgoOrder>)
    ensures Calmly(before, before, [], retained, {}, rows)
  {
  }

  predicate SomeStale(listed: seq<AlgoOrder>, retained: set<OrderName>) {
    exists o :: o in listed && o.name !in retained
  }

  ghost predicate StaleEnded(listed: seq<AlgoOrder>, retained: set<OrderName>, rows: seq<AlgoOrder>) {
    forall o :: o in listed && o.name !in retained ==> !NameActive(rows, o.name)
  }

  /** Every request is answered and takes effect. */
  predicate CalmReplies(replies: seq<Reply>) {
    forall i :: 0 <= i < |replies| ==> replies[i].answered && replies[i].effective
  }

  lemma CalmNext(replies: seq<Reply>)
    requires CalmReplies(replies)
    ensures NextReply(replies).answered && NextReply(replies).effective && CalmReplies(Rest(replies))
  {
  }

  ghost predicate StaleNames(stale: set<OrderName>, listed: seq<AlgoOrder>, retained: set<OrderName>) {
    forall n :: n in stale ==> exists o :: o in listed && o.name == n && n !in retained
  }

  lemma StaleStep(listed: seq<AlgoOrder>, i: nat, retained: set<OrderName>, rows: seq<AlgoOrder>)
    requires i < |listed| && StaleEnded(listed[..i], retained, rows)
    ensures listed[i].name in retained ==> StaleEnded(listed[..i + 1], retained, rows)
    ensures StaleEnded(listed[..i + 1], retained, Deactivate(rows, listed[i].name))
  {
    hide NameActive;
    EndedStays(rows, listed[i].name);
    assert listed[..i + 1] == listed[..i] + [listed[i]];
  }

  lemma NoneStale(listed: seq<AlgoOrder>, retained: set<OrderName>, rows: seq<AlgoOrder>)
    ensures StaleEnded([], retained, rows) && StaleNames({}, listed, retained)
  {
  }

  lemma StaleMore(stale: set<OrderName>, listed: seq<AlgoOrder>, retained: set<OrderName>, o: AlgoOrder)
    requires StaleNames(stale, listed, retained) && o in listed && o.name !in retained
    ensures StaleNames(stale + {o.name}, listed, retained)
  {
  }

  method CancelStale(venue: Venue, listed: seq<AlgoOrder>, side: PositionSide, retained: set<OrderName>,
                     ghost specs: seq<AlgoOrder>)
    returns (ok: bool, stale: set<OrderName>)
    requires venue.Valid()
    requires listed == WorkingManaged(venue.rows, side)
    modifies venue
    ensures venue.Valid()
    ensures Rebuilt(old(venue.rows), venue.rows, side, specs, retained) && |venue.rows| == |old(venue.rows)|
    ensures old(venue.trace) <= venue.trace
    ensures old(venue.lostCancel) ==> venue.lostCancel
    ensures AllRebuilt(venue.trace, |old(venue.trace)|, old(venue.rows), side, specs, retained)
    ensures (forall o :: o in listed ==> o.name in retained) ==> ok && stale == {} && venue.rows == old(venue.rows)
    ensures CalmFirst(old(venue.replies), StaleCount(listed, retained)) ==>
              ok && venue.lostCancel == old(venue.lostCancel)
              && Calmly(old(venue.replies), venue.replies, listed, retained, stale, venue.rows)
    ensures StaleNames(stale, listed, retained)
    ensures CalmReplies(old(venue.replies)) ==>
              ok && CalmReplies(venue.replies) && StaleEnded(listed, retained, venue.rows)
  {
    hide Rebuilt, AllRebuilt, UniqueNames, Calmly, CalmFirst, StaleCount, CalmReplies, StaleEnded, StaleNames, NameActive;
    ghost var obeys := CalmReplies(venue.replies);
    NoneStale(listed, retained, venue.rows);
    ghost var start := venue.rows;
    RebuiltAtFirst(start, side, specs, retained);
    NothingRebuilt(venue.trace, start, side, specs, retained);
    stale := {};
    ghost var calm := CalmFirst(venue.replies, StaleCount(listed, retained));
    CalmlyStarts(venue.replies, retained, venue.rows);
    assert listed[..0] == [] && listed[..|listed|] == listed;
    for i := 0 to |listed|
      invariant venue.Valid()
      invariant Rebuilt(start, venue.rows, side, specs, retained) && |venue.rows| == |start|
      invariant old(venue.trace) <= venue.trace
      invariant old(venue.lostCancel) ==> venue.lostCancel
      invariant AllRebuilt(venue.trace, |old(venue.trace)|, start, side, specs, retained)
      invariant (forall o :: o in listed ==> o.name in retained) ==> stale == {} && venue.rows == start
      invariant calm ==> venue.lostCancel == old(venue.lostCancel)
                         && Calmly(old(venue.replies), venue.replies, listed[..i], retained, stale, venue.rows)
      invariant StaleNames(stale, listed, retained)
      invariant obeys ==> CalmReplies(venue.replies) && StaleEnded(listed[..i], retained, venue.rows)
    {
      if obeys {
        CalmNext(venue.replies);
        StaleStep(listed, i, retained, venue.rows);
      }
      if listed[i].name !in retained {
        assert listed[i] in listed;
        CancelRebuilds(start, venue.rows, side, specs, retained, listed[i]);
        if calm {
          CalmlyCancels(old(venue.replies), venue.replies, listed, i, retained, stale, venue.rows);
        }
        StaleMore(stale, listed, retained, listed[i]);
        stale := stale + {listed[i].name};
        RebuiltGrows(venue.trace, |old(venue.trace)|, start, side, specs, retained, Deactivate(venue.rows, listed[i].name));
        ok := venue.Cancel(listed[i].name);
        if !ok {
          return;
        }
      } else if calm {
        CalmlyKeeps(old(venue.replies), venue.replies, listed, i, retained, stale, venue.rows);
      }
    }
    ok := true;
  }

  predicate AnyActive(rows: seq<AlgoOrder>, names: set<OrderName>) {
    exists i :: 0 <= i < |rows| && rows[i].active && rows[i].name in names
  }

  /** Up to four looks at the order list until none of the cancelled orders is left. */
  method WaitForCancellations(venue: Venue, names: set<OrderName>) returns (r: Result<(), AlgoError>)
    modifies venue`replies
    ensures r.Ok? ==> !AnyActive(venue.rows, names)
    ensures !NextReply(old(venue.replies)).answered ==> r == Err(RequestFailed)
    ensures r.Err? ==> r.error in {RequestFailed, CancellationUnconfirmed}
    ensures CalmReplies(old(venue.replies)) && !AnyActive(venue.rows, names) ==> r.Ok? && CalmReplies(venue.replies)
  {
    for look := 0 to 4
      invariant CalmReplies(old(venue.replies)) && !AnyActive(venue.rows, names) ==> look == 0
      invariant if look == 0 then venue.replies == old(venue.replies) else NextReply(old(venue.replies)).answered
    {
      var listing := venue.OpenOrders();
      if listing.Err? {
        return Err(listing.error);
      }
      if !AnyActive(listing.value, names) {
        return Ok(());
      }
    }
    return Err(CancellationUnconfirmed);
  }

  const SILENT := Reply(false, false, false, 0.0, 0)

  /** Exactly the orders that are not kept are cancelled and answered for; then a request fails. */
  predicate CalmThenSilent(replies: seq<Reply>, listed: seq<AlgoOrder>, retained: set<OrderName>) {
    var count := StaleCount(listed, retained);
    CalmFirst(replies, count) && count < |replies| && replies[count] == SILENT
  }

  lemma CalmlyMeans(before: seq<Reply>, replies: seq<Reply>, listed: seq<AlgoOrder>, retained: set<OrderName>,
                    stale: set<OrderName>, rows: seq<AlgoOrder>)
    requires Calmly(before, replies, listed, retained, stale, rows) && CalmThenSilent(before, listed, retained)
    ensures StaleEnded(listed, retained, rows) && NextReply(replies) == SILENT
    ensures SomeStale(listed, retained) ==> stale != {}
  {
    hide StaleCount, NameActive, CalmFirst;
    forall o | o in listed && o.name !in retained
      ensures !NameActive(rows, o.name) && o.name in stale
    {
      var j :| 0 <= j < |listed| && listed[j] == o;
    }
  }

  lemma NoStaleActive(stale: set<OrderName>, listed: seq<AlgoOrder>, retained: set<OrderName>, rows: seq<AlgoOrder>)
    requires StaleNames(stale, listed, retained)
    ensures StaleEnded(listed, retained, rows) ==> !AnyActive(rows, stale)
  {
    if StaleEnded(listed, retained, rows) {
      forall i | 0 <= i < |rows| && rows[i].active
        ensures rows[i].name !in stale
      {
        ActiveRow(rows, i);
      }
    }
  }

  /** Cancel what is not kept and wait until it is gone. */
  method ClearStale(venue: Venue, listed: seq<AlgoOrder>, side: PositionSide, retained: set<OrderName>,
                    ghost specs: seq<AlgoOrder>)
    returns (r: Result<(), AlgoError>)
    requires venue.Valid()
    requires listed == WorkingManaged(venue.rows, side)
    modifies venue
    ensures venue.Valid()
    ensures Rebuilt(old(venue.rows), venue.rows, side, specs, retained) && |venue.rows| == |old(venue.rows)|
    ensures old(venue.trace) <= venue.trace
    ensures old(venue.lostCancel) ==> venue.lostCancel
    ensures AllRebuilt(venue.trace, |old(venue.trace)|, old(venue.rows), side, specs, retained)
    ensures (forall o :: o in listed ==> o.name in retained) ==> r.Ok? && venue.rows == old(venue.rows)
    ensures CalmThenSilent(old(venue.replies), listed, retained) && SomeStale(listed, retained) ==>
              r == Err(RequestFailed) && venue.lostCancel == old(venue.lostCancel)
              && StaleEnded(listed, retained, venue.rows)
    ensures CalmReplies(old(venue.replies)) ==>
              r.Ok? && CalmReplies(venue.replies) && StaleEnded(listed, retained, venue.rows)
    ensures r.Err? ==> r.error in {CancelFailed, RequestFailed, CancellationUnconfirmed}
  {
    hide CalmReplies, StaleNames, Rebuilt, AllRebuilt, Calmly, CalmFirst, StaleCount, NameActive, StaleEnded, SomeStale;
    ghost var calm := CalmThenSilent(venue.replies, listed, retained);
    var ok, stale := CancelStale(venue, listed, side, retained, specs);
    if calm {
      CalmlyMeans(old(venue.replies), venue.replies, listed, retained, stale, venue.rows);
    }
    if !ok {
      return Err(CancelFailed);
    }
    NoStaleActive(stale, listed, retained, venue.rows);
    if stale != {} {
      r := WaitForCancellations(venue, stale);
    } else {
      r := Ok(());
    }
  }

  /** The orders have names of their own that no working order bears. */
  predicate FreeToSubmit(rows: seq<AlgoOrder>, missing: seq<AlgoOrder>) {
    DistinctNames(missing) && forall s :: s in missing ==> !NameActive(rows, s.name)
  }

  /** Submitting the orders makes the working ones the wanted set. */
  ghost predicate Completes(rows: seq<AlgoOrder>, missing: seq<AlgoOrder>, side: PositionSide, specs: seq<AlgoOrder>) {
    var working := WorkingManaged(rows + missing, side);
    FreeToSubmit(rows, missing) && SameOrders(working, specs) && Stops(working) == 1
  }

  /** What was submitted so far does not bear the next name. */
  lemma NotYetActive(rows: seq<AlgoOrder>, missing: seq<AlgoOrder>, i: nat)
    requires i < |missing| && FreeToSubmit(rows, missing)
    ensures !NameActive(rows + missing[..i], missing[i].name)
  {
    var more := rows + missing[..i];
    assert missing[i] in missing;
    forall k | 0 <= k < |more| && more[k].active
      ensures more[k].name != missing[i].name
    {
      if k >= |rows| {
        assert more[k] == missing[k - |rows|];
      }
    }
  }

  lemma SubmitsCalmly(rows: seq<AlgoOrder>, order: AlgoOrder, reply: Reply)
    requires order.active && reply.effective && !NameActive(rows, order.name)
    ensures Accepted(rows, order, reply) && LookedUp(rows + [order], order.name, reply).Some?
  {
    assert (rows + [order])[|rows|] == order;
  }

  lemma MaybeRebuilt(trace: seq<seq<AlgoOrder>>, since: nat, start: seq<AlgoOrder>, side: PositionSide,
                     specs: seq<AlgoOrder>, kept: set<OrderName>, rows: seq<AlgoOrder>, order: AlgoOrder)
    requires AllRebuilt(trace, since, start, side, specs, kept) && Rebuilt(start, rows, side, specs, kept) && order in specs
    ensures AllRebuilt(trace + [rows + [order]], since, start, side, specs, kept)
  {
    SubmitRebuilds(start, rows, side, specs, kept, order);
    RebuiltGrows(trace, since, start, side, specs, kept, rows + [order]);
  }

  method SubmitMissing(venue: Venue, missing: seq<AlgoOrder>, side: PositionSide,
                       ghost start: seq<AlgoOrder>, ghost specs: seq<AlgoOrder>, ghost retained: set<OrderName>)
    returns (r: Result<seq<AlgoOrder>, AlgoError>)
    requires venue.Valid() && Rebuilt(start, venue.rows, side, specs, retained)
    requires forall s :: s in missing ==> s in specs && s.active
    modifies venue
    ensures venue.Valid() && Rebuilt(start, venue.rows, side, specs, retained)
    ensures old(venue.trace) <= venue.trace
    ensures old(venue.lostCancel) ==> venue.lostCancel
    ensures AllRebuilt(venue.trace, |old(venue.trace)|, start, side, specs, retained)
    ensures r.Ok? ==> |r.value| == |missing| && forall i :: 0 <= i < |missing| ==> r.value[i].name == missing[i].name
    ensures missing == [] ==> venue.rows == old(venue.rows)
    ensures CalmReplies(old(venue.replies)) && FreeToSubmit(old(venue.rows), missing) ==>
              r.Ok? && CalmReplies(venue.replies) && venue.rows == old(venue.rows) + missing
    ensures r.Err? ==> r.error.SubmitFailed?
  {
    hide Rebuilt, AllRebuilt, UniqueNames, NameActive, CalmReplies, FreeToSubmit, LookedUp, Accepted;
    NothingRebuilt(venue.trace, start, side, specs, retained);
    ghost var obeys := CalmReplies(venue.replies) && FreeToSubmit(venue.rows, missing);
    assert missing[..0] == [] && missing[..|missing|] == missing && venue.rows + [] == venue.rows;
    var orders: seq<AlgoOrder> := [];
    for i := 0 to |missing|
      invariant venue.Valid() && Rebuilt(start, venue.rows, side, specs, retained)
      invariant old(venue.trace) <= venue.trace
      invariant old(venue.lostCancel) ==> venue.lostCancel
      invariant AllRebuilt(venue.trace, |old(venue.trace)|, start, side, specs, retained)
      invariant |orders| == i && forall j :: 0 <= j < i ==> orders[j].name == missing[j].name
      invariant i == 0 ==> venue.rows == old(venue.rows)
      invariant obeys ==> CalmReplies(venue.replies) && venue.rows == old(venue.rows) + missing[..i]
    {
      assert missing[i] in missing;
      if obeys {
        CalmNext(venue.replies);
        NotYetActive(old(venue.rows), missing, i);
        assert missing[..i + 1] == missing[..i] + [missing[i]];
        SubmitsCalmly(venue.rows, missing[i], NextReply(venue.replies));
      }
      MaybeRebuilt(venue.trace, |old(venue.trace)|, start, side, specs, retained, venue.rows, missing[i]);
      SubmitRebuilds(start, venue.rows, side, specs, retained, missing[i]);
      var submitted := venue.Submit(missing[i]);
      if submitted.Err? {
        return Err(submitted.error);
      }
      orders := orders + [submitted.value];
    }
    return Ok(orders);
  }

  /** Submit what is missing, and check the outcome. */
  method Complete(venue: Venue, side: PositionSide, specs: seq<AlgoOrder>, missing: seq<AlgoOrder>,
                  ghost start: seq<AlgoOrder>, ghost retained: set<OrderName>)
    returns (r: Result<seq<AlgoOrder>, AlgoError>)
    requires venue.Valid() && Rebuilt(start, venue.rows, side, specs, retained)
    requires forall s :: s in missing ==> s in specs && s.active
    modifies venue
    ensures venue.Valid() && Rebuilt(start, venue.rows, side, specs, retained)
    ensures old(venue.trace) <= venue.trace
    ensures old(venue.lostCancel) ==> venue.lostCancel
    ensures AllRebuilt(venue.trace, |old(venue.trace)|, start, side, specs, retained)
    ensures missing == [] ==> venue.rows == old(venue.rows)
    ensures r.Ok? ==> |r.value| == |missing| && forall i :: 0 <= i < |missing| ==> r.value[i].name == missing[i].name
    ensures r.Ok? ==> SameOrders(WorkingManaged(venue.rows, side), specs) && Stops(WorkingManaged(venue.rows, side)) == 1
    ensures r.Err? ==>
              r.error.SubmitFailed? || r.error in {RequestFailed, NotOneHardStop, SetMismatch, UnexpectedOrders}
    ensures CalmReplies(old(venue.replies)) && Completes(old(venue.rows), missing, side, specs) ==>
              r.Ok? && CalmReplies(venue.replies)
  {
    hide Rebuilt, AllRebuilt, UniqueNames, NameActive, CalmReplies, FreeToSubmit, SameOrders, Stops, WorkingManaged;
    r := SubmitMissing(venue, missing, side, start, specs, retained);
    if r.Err? {
      return;
    }
    if CalmReplies(venue.replies) {
      CalmNext(venue.replies);
    }
    var final := venue.OpenOrders();
    if final.Err? {
      return Err(final.error);
    }
    var verdict := ValidateProtectionSet(specs, WorkingManaged(final.value, side));
    if verdict.Err? {
      r := Err(verdict.error);
    }
  }

  lemma SpecsDistinct(intent: Intent, filled: real, averagePrice: real, f: Filters)
    requires ValidFilters(f)
    requires BuildSpecs(intent, filled, averagePrice, f).Ok?
    ensures DistinctKeys(BuildSpecs(intent, filled, averagePrice, f).value)
    ensures forall s :: s in BuildSpecs(intent, filled, averagePrice, f).value ==> s.active && ManagedOf(s, intent.side)
  {
  }

  /** A wanted order that was there is reported as it was; any other by an order of its name. */
  predicate ReportedFor(reported: seq<AlgoOrder>, start: seq<AlgoOrder>, side: PositionSide, wanted: AlgoOrder) {
    if Provides(start, side, wanted)
    then exists o :: o in reported && o in WorkingManaged(start, side) && Matches(o, wanted)
    else exists o :: o in reported && o.name == wanted.name
  }

  lemma ProvidedIsListed(start: seq<AlgoOrder>, side: PositionSide, wanted: AlgoOrder)
    ensures Provides(start, side, wanted) <==> exists o :: o in WorkingManaged(start, side) && Matches(o, wanted)
  {
    if o :| o in WorkingManaged(start, side) && Matches(o, wanted) {
      var i :| 0 <= i < |start| && start[i] == o;
    }
    if i :| 0 <= i < |start| && start[i].active && ManagedOf(start[i], side) && Matches(start[i], wanted) {
      assert start[i] in WorkingManaged(start, side);
    }
  }

  lemma AllReported(start: seq<AlgoOrder>, side: PositionSide, specs: seq<AlgoOrder>, orders: seq<AlgoOrder>,
                    missing: seq<AlgoOrder>, retained: set<OrderName>, submitted: seq<AlgoOrder>)
    requires Split(WorkingManaged(start, side), specs, retained, orders, missing)
    requires |submitted| == |missing| && forall i :: 0 <= i < |missing| ==> submitted[i].name == missing[i].name
    ensures forall s :: s in specs ==> ReportedFor(orders + submitted, start, side, s)
  {
    forall s | s in specs
      ensures ReportedFor(orders + submitted, start, side, s)
    {
      ProvidedIsListed(start, side, s);
      if s in missing {
        var i :| 0 <= i < |missing| && missing[i] == s;
        assert submitted[i] in orders + submitted;
      } else {
        var o :| o in orders && o in WorkingManaged(start, side) && Matches(o, s);
        assert o in orders + submitted;
      }
    }
  }

  /** Every cancellation of an upsert is carried out and answered, and the next look at the orders fails. */
  function CancelledOnly(rows: seq<AlgoOrder>, side: PositionSide, specs: seq<AlgoOrder>): seq<Reply> {
    var listed := WorkingManaged(rows, side);
    seq(StaleCount(listed, Retained(listed, specs, {})) + 1, i => CALM) + [SILENT]
  }

  /** There is a stop, but not the wanted one: it is cancelled before the wanted one is submitted. */
  predicate StopAtRisk(rows: seq<AlgoOrder>, side: PositionSide, wanted: AlgoOrder) {
    HasStop(rows, side) && !Provides(rows, side, wanted)
  }

  lemma OnlyAtRisk(start: seq<AlgoOrder>, rows: seq<AlgoOrder>, trace: seq<seq<AlgoOrder>>, since: nat, specs: seq<AlgoOrder>,
                   intent: Intent, tick: real)
    requires tick > 0.0
    requires WantedStop(intent, tick) in specs && Undisturbed(start, rows, trace, since, intent.side, specs)
    ensures HasStop(start, intent.side) && !HasStop(rows, intent.side) ==>
              StopAtRisk(start, intent.side, WantedStop(intent, tick))
  {
    if Provides(rows, intent.side, WantedStop(intent, tick)) {
      ProvidedStop(rows, intent, tick);
    }
  }

  lemma ProvidedStop(rows: seq<AlgoOrder>, intent: Intent, tick: real)
    requires tick > 0.0 && Provides(rows, intent.side, WantedStop(intent, tick))
    ensures HasStop(rows, intent.side)
  {
    var i :| 0 <= i < |rows| && rows[i].active && ManagedOf(rows[i], intent.side) && Matches(rows[i], WantedStop(intent, tick));
    assert WorkingStop(rows[i], intent.side);
  }

  lemma StopIsFirst(intent: Intent, filled: real, averagePrice: real, f: Filters)
    requires ValidFilters(f) && BuildSpecs(intent, filled, averagePrice, f).Ok?
    ensures var specs := BuildSpecs(intent, filled, averagePrice, f).value;
            && WantedStop(intent, f.tick) in specs
            && forall s :: s in specs && s.kind == StopMarket ==> s == WantedStop(intent, f.tick)
  {
    assert BuildSpecs(intent, filled, averagePrice, f).value[0] == WantedStop(intent, f.tick);
  }

  /** A kept stop is the wanted one. */
  lemma KeptStopIsWanted(start: seq<AlgoOrder>, side: PositionSide, specs: seq<AlgoOrder>, wanted: AlgoOrder,
                         retained: set<OrderName>, o: AlgoOrder)
    requires o in start && WorkingStop(o, side)
    requires forall s :: s in specs && s.kind == StopMarket ==> s == wanted
    requires forall x :: x in WorkingManaged(start, side) && x.name in retained ==> exists s :: s in specs && Matches(x, s)
    ensures o in WorkingManaged(start, side)
    ensures o.name in retained ==> Provides(start, side, wanted)
  {
    var i :| 0 <= i < |start| && start[i] == o;
    if o.name in retained {
      var s :| s in specs && Matches(o, s);
    }
  }

  lemma ActiveRow(rows: seq<AlgoOrder>, i: nat)
    requires i < |rows|
    ensures rows[i].active ==> NameActive(rows, rows[i].name)
  {
  }

  /** Once every order that was not kept has ended, so has every stop. */
  lemma AllStopsEnded(start: seq<AlgoOrder>, rows: seq<AlgoOrder>, side: PositionSide, specs: seq<AlgoOrder>,
                      wanted: AlgoOrder, retained: set<OrderName>)
    requires Rebuilt(start, rows, side, specs, retained) && |rows| == |start|
    requires StopAtRisk(start, side, wanted)
    requires forall s :: s in specs && s.kind == StopMarket ==> s == wanted
    requires forall x :: x in WorkingManaged(start, side) && x.name in retained ==> exists s :: s in specs && Matches(x, s)
    ensures SomeStale(WorkingManaged(start, side), retained)
    ensures StaleEnded(WorkingManaged(start, side), retained, rows) ==> !HasStop(rows, side)
  {
    hide Provides, NameActive, Matches;
    var k :| 0 <= k < |start| && WorkingStop(start[k], side);
    KeptStopIsWanted(start, side, specs, wanted, retained, start[k]);
    forall i | 0 <= i < |rows| && StaleEnded(WorkingManaged(start, side), retained, rows)
      ensures !WorkingStop(rows[i], side)
    {
      ActiveRow(rows, i);
      if start[i].active && WorkingStop(start[i], side) {
        KeptStopIsWanted(start, side, specs, wanted, retained, start[i]);
      }
    }
  }

  /** The script starts with a calm answer, and then is the one for the orders that are not kept. */
  lemma CancelledOnlyCalm(start: seq<AlgoOrder>, side: PositionSide, specs: seq<AlgoOrder>)
    ensures var replies, listed := CancelledOnly(start, side, specs), WorkingManaged(start, side);
            NextReply(replies) == CALM && CalmThenSilent(Rest(replies), listed, Retained(listed, specs, {}))
  {
    hide StaleCount, Retained;
  }

  /** With that script the cancellations are all that happens, and no stop is left. */
  lemma CancelledOnlyExposes(start: seq<AlgoOrder>, side: PositionSide, specs: seq<AlgoOrder>, wanted: AlgoOrder,
                             rows: seq<AlgoOrder>, retained: set<OrderName>, orders: seq<AlgoOrder>, missing: seq<AlgoOrder>)
    requires Rebuilt(start, rows, side, specs, retained) && |rows| == |start|
    requires Split(WorkingManaged(start, side), specs, retained, orders, missing)
    requires StopAtRisk(start, side, wanted)
    requires forall s :: s in specs && s.kind == StopMarket ==> s == wanted
    ensures SomeStale(WorkingManaged(start, side), retained)
    ensures StaleEnded(WorkingManaged(start, side), retained, rows) ==> !HasStop(rows, side)
  {
    hide Rebuilt, StopAtRisk, Matches, NameActive, HasStop, StaleEnded, SomeStale;
    AllStopsEnded(start, rows, side, specs, wanted, retained);
  }

  /**
    No working order stands in the way of a wanted one: what bears a wanted order's name belongs to
    the position and asks for that order or for none that is wanted.
   */
  predicate NamesFree(rows: seq<AlgoOrder>, side: PositionSide, specs: seq<AlgoOrder>) {
    forall i, s :: 0 <= i < |rows| && rows[i].active && s in specs && rows[i].name == s.name ==>
                     ManagedOf(rows[i], side) && forall t :: t in specs && Matches(rows[i], t) ==> t == s
  }

  /** A missing order's name is free once the stale orders have ended. */
  lemma MissingIsFree(start: seq<AlgoOrder>, rows: seq<AlgoOrder>, side: PositionSide, specs: seq<AlgoOrder>,
                      retained: set<OrderName>, orders: seq<AlgoOrder>, missing: seq<AlgoOrder>, s: AlgoOrder)
    requires Rebuilt(start, rows, side, specs, retained) && |rows| == |start| && NamesFree(start, side, specs)
    requires Split(WorkingManaged(start, side), specs, retained, orders, missing) && s in missing
    requires StaleEnded(WorkingManaged(start, side), retained, rows)
    ensures !NameActive(rows, s.name)
  {
    hide Matches;
    forall i | 0 <= i < |rows| && rows[i].active
      ensures rows[i].name != s.name
    {
      ActiveRow(rows, i);
      assert start[i] == rows[i] && (ManagedOf(start[i], side) ==> start[i] in WorkingManaged(start, side));
    }
  }

  lemma MissingAreFree(start: seq<AlgoOrder>, rows: seq<AlgoOrder>, side: PositionSide, specs: seq<AlgoOrder>,
                       retained: set<OrderName>, orders: seq<AlgoOrder>, missing: seq<AlgoOrder>)
    requires Rebuilt(start, rows, side, specs, retained) && |rows| == |start| && NamesFree(start, side, specs)
    requires Split(WorkingManaged(start, side), specs, retained, orders, missing)
    requires StaleEnded(WorkingManaged(start, side), retained, rows)
    ensures forall s :: s in missing ==> !NameActive(rows, s.name)
  {
    hide Rebuilt, NamesFree, Split, StaleEnded, NameActive;
    forall s | s in missing
      ensures !NameActive(rows, s.name)
    {
      MissingIsFree(start, rows, side, specs, retained, orders, missing, s);
    }
  }

  /** What works for the position in the end is what was kept and what was submitted. */
  lemma {:induction false} WorkingAppend(a: seq<AlgoOrder>, b: seq<AlgoOrder>, side: PositionSide)
    ensures WorkingManaged(a + b, side) == WorkingManaged(a, side) + WorkingManaged(b, side)
  {
    if a == [] {
      assert a + b == b;
    } else {
      assert (a + b)[1..] == a[1..] + b;
      WorkingAppend(a[1..], b, side);
    }
  }

  lemma {:induction false} AllWorking(missing: seq<AlgoOrder>, side: PositionSide)
    requires forall s :: s in missing ==> s.active && ManagedOf(s, side)
    ensures WorkingManaged(missing, side) == missing
  {
    if missing != [] {
      assert missing == [missing[0]] + missing[1..];
      AllWorking(missing[1..], side);
    }
  }

  /** Row by row: what is still active of the managed orders is what was kept. */
  predicate ThinnedTo(start: seq<AlgoOrder>, rows: seq<AlgoOrder>, side: PositionSide, retained: set<OrderName>) {
    && |rows| == |start|
    && forall i :: 0 <= i < |start| ==>
                     if start[i].active && ManagedOf(start[i], side) && start[i].name !in retained
                     then !rows[i].active
                     else rows[i] == start[i]
  }

  lemma {:induction false} KeptWork(start: seq<AlgoOrder>, rows: seq<AlgoOrder>, side: PositionSide, retained: set<OrderName>)
    requires ThinnedTo(start, rows, side, retained)
    ensures WorkingManaged(rows, side) == KeptOf(WorkingManaged(start, side), retained)
  {
    if start != [] {
      var a, b := start[1..], rows[1..];
      assert forall i :: 0 <= i < |a| ==> a[i] == start[i + 1] && b[i] == rows[i + 1];
      assert ThinnedTo(a, b, side, retained);
      KeptWork(a, b, side, retained);
      WorkingCons(start, side);
      WorkingCons(rows, side);
      if start[0].active && ManagedOf(start[0], side) {
        KeptOfCons(start[0], WorkingManaged(a, side), retained);
      }
      hide WorkingManaged, KeptOf;
    }
  }

  lemma WorkingCons(rows: seq<AlgoOrder>, side: PositionSide)
    requires rows != []
    ensures var rest := WorkingManaged(rows[1..], side);
            WorkingManaged(rows, side) == if rows[0].active && ManagedOf(rows[0], side) then [rows[0]] + rest else rest
  {
  }

  lemma ClearedIsThinned(start: seq<AlgoOrder>, rows: seq<AlgoOrder>, side: PositionSide, specs: seq<AlgoOrder>,
                         retained: set<OrderName>)
    requires Rebuilt(start, rows, side, specs, retained) && |rows| == |start| && UniqueNames(start)
    requires StaleEnded(WorkingManaged(start, side), retained, rows)
    ensures ThinnedTo(start, rows, side, retained)
  {
    forall i | 0 <= i < |start|
      ensures if start[i].active && ManagedOf(start[i], side) && start[i].name !in retained
              then !rows[i].active else rows[i] == start[i]
    {
      ActiveRow(rows, i);
      if start[i].active && ManagedOf(start[i], side) {
        assert start[i] in WorkingManaged(start, side);
      }
    }
  }

  /** With a calm exchange the outcome is the wanted set. */
  lemma CalmOutcome(start: seq<AlgoOrder>, rows: seq<AlgoOrder>, side: PositionSide, specs: seq<AlgoOrder>,
                    retained: set<OrderName>, missing: seq<AlgoOrder>)
    requires Rebuilt(start, rows, side, specs, retained) && |rows| == |start| && UniqueNames(start)
    requires StaleEnded(WorkingManaged(start, side), retained, rows)
    requires MakeUp(KeptOf(WorkingManaged(start, side), retained), missing, specs)
    requires forall s :: s in missing ==> s.active && ManagedOf(s, side)
    ensures var working := WorkingManaged(rows + missing, side);
            SameOrders(working, specs) && Stops(working) == Stops(specs)
  {
    ClearedIsThinned(start, rows, side, specs, retained);
    KeptWork(start, rows, side, retained);
    WorkingAppend(rows, missing, side);
    AllWorking(missing, side);
    var kept := KeptOf(WorkingManaged(start, side), retained);
    KeysAppend(kept, missing);
    StopsAppend(kept, missing);
    hide Keys, Stops, KeptOf, WorkingManaged;
  }

  lemma CalmCompletes(start: seq<AlgoOrder>, rows: seq<AlgoOrder>, side: PositionSide, specs: seq<AlgoOrder>,
                      retained: set<OrderName>, orders: seq<AlgoOrder>, missing: seq<AlgoOrder>)
    requires Rebuilt(start, rows, side, specs, retained) && |rows| == |start| && UniqueNames(start)
    requires NamesFree(start, side, specs) && Split(WorkingManaged(start, side), specs, retained, orders, missing)
    requires StaleEnded(WorkingManaged(start, side), retained, rows)
    requires MakeUp(KeptOf(WorkingManaged(start, side), retained), missing, specs) && DistinctNames(missing)
    requires Stops(specs) == 1 && forall s :: s in specs ==> s.active && ManagedOf(s, side)
    ensures Completes(rows, missing, side, specs)
  {
    hide Rebuilt, NamesFree, Split, StaleEnded, NameActive, UniqueNames, MakeUp, KeptOf, DistinctNames, Stops, SameOrders;
    MissingWanted(WorkingManaged(start, side), specs, retained, orders, missing);
    MissingAreFree(start, rows, side, specs, retained, orders, missing);
    CalmOutcome(start, rows, side, specs, retained, missing);
  }

  /** Wanted orders have names of their own, and one of them is a stop. */
  lemma SpecsCounted(intent: Intent, filled: real, averagePrice: real, f: Filters)
    requires ValidFilters(f) && BuildSpecs(intent, filled, averagePrice, f).Ok?
    ensures var specs := BuildSpecs(intent, filled, averagePrice, f).value; DistinctNames(specs) && Stops(specs) == 1
  {
    var specs := BuildSpecs(intent, filled, averagePrice, f).value;
    assert specs == [specs[0]] + specs[1..];
    OneStop(specs[0]);
    StopsAppend([specs[0]], specs[1..]);
    NoStops(specs[1..]);
  }

  lemma {:induction false} NoStops(rows: seq<AlgoOrder>)
    requires forall i :: 0 <= i < |rows| ==> rows[i].kind != StopMarket
    ensures Stops(rows) == 0
  {
    if rows != [] {
      NoStops(rows[1..]);
    }
  }

  /** What is kept, what is missing, and the way cleared for it. */
  method Prepare(venue: Venue, side: PositionSide, specs: seq<AlgoOrder>, ghost wanted: AlgoOrder)
    returns (r: Result<(seq<AlgoOrder>, seq<AlgoOrder>), AlgoError>, ghost retained: set<OrderName>)
    requires venue.Valid() && DistinctKeys(specs) && DistinctNames(specs) && Stops(specs) == 1
    requires forall s :: s in specs ==> s.active && ManagedOf(s, side)
    requires forall s :: s in specs && s.kind == StopMarket ==> s == wanted
    modifies venue
    ensures venue.Valid() && old(venue.trace) <= venue.trace && (old(venue.lostCancel) ==> venue.lostCancel)
    ensures Undisturbed(old(venue.rows), venue.rows, venue.trace, |old(venue.trace)|, side, specs)
    ensures r.Ok? ==>
              var (orders, missing) := r.value;
              && Split(WorkingManaged(old(venue.rows), side), specs, retained, orders, missing)
              && |orders| + |missing| == |specs| && Rebuilt(old(venue.rows), venue.rows, side, specs, retained)
              && AllRebuilt(venue.trace, |old(venue.trace)|, old(venue.rows), side, specs, retained)
    ensures r.Err? ==> r.error in {CancelFailed, RequestFailed, CancellationUnconfirmed}
    ensures SameOrders(WorkingManaged(old(venue.rows), side), specs) ==>
              venue.rows == old(venue.rows) && (r.Ok? ==> r.value.1 == [])
    ensures StopAtRisk(old(venue.rows), side, wanted)
            && old(venue.replies) == CancelledOnly(old(venue.rows), side, specs) ==>
              r == Err(RequestFailed) && !HasStop(venue.rows, side) && venue.lostCancel == old(venue.lostCancel)
    ensures CalmReplies(old(venue.replies)) && NamesFree(old(venue.rows), side, specs) ==>
              r.Ok? && CalmReplies(venue.replies) && Completes(venue.rows, r.value.1, side, specs)
  {
    hide SameOrders, UniqueNames, Matches, Rebuilt, AllRebuilt, Provides, HasStop, Retained, CalmThenSilent, CancelledOnly,
         SomeStale, StaleEnded, OneEach, StopAtRisk, Split, NamesFree, CalmReplies, MakeUp, KeptOf, DistinctNames, DistinctKeys,
         Stops, NameActive, Undisturbed, Completes;
    retained := {};
    ghost var start, since, script := venue.rows, |venue.trace|, venue.replies;
    ghost var risky := StopAtRisk(start, side, wanted) && script == CancelledOnly(start, side, specs);
    ghost var calm := CalmReplies(script) && NamesFree(start, side, specs);
    if calm {
      CalmNext(script);
    }
    CancelledOnlyCalm(start, side, specs);
    UndisturbedAtFirst(start, venue.trace, side, specs);
    var listing := venue.OpenOrders();
    if listing.Err? {
      r := Err(listing.error);
      return;
    }
    var listed := WorkingManaged(listing.value, side);
    UniqueMembers(start, side);
    var names, orders, missing := Retain(listed, specs);
    retained := names;
    var cleared := ClearStale(venue, listed, side, names, specs);
    RetainedStay(start, venue.rows, venue.trace, since, side, specs, names, orders, missing);
    if risky {
      CancelledOnlyExposes(start, side, specs, wanted, venue.rows, names, orders, missing);
    }
    if cleared.Err? {
      r := Err(cleared.error);
      return;
    }
    if calm {
      CalmCompletes(start, venue.rows, side, specs, names, orders, missing);
    }
    r := Ok((orders, missing));
  }

  /**
    Make the working orders of the position exactly the wanted set.  A wanted order that is
    already working is left working in every intermediate state, whatever fails on the way,
    and nothing but this position's managed orders is ever touched.  A set that is already
    right is not touched at all.  It can end without the stop there was exactly when that was not
    the wanted one, which is not submitted before the old one is cancelled.  With a calm exchange,
    and no working order in the way of a wanted name, it succeeds.
   */
  method UpsertProtection(venue: Venue, intent: Intent, filled: real, averagePrice: real, f: Filters)
    returns (r: Result<seq<AlgoOrder>, AlgoError>)
    requires venue.Valid() && ValidFilters(f)
    modifies venue
    ensures venue.Valid()
    ensures old(venue.trace) <= venue.trace
    ensures old(venue.lostCancel) ==> venue.lostCancel
    ensures var specs := BuildSpecs(intent, filled, averagePrice, f);
            if specs.Err? then r == Err(specs.error) && unchanged(venue)
            else
              && (r.Ok? ==> SameOrders(WorkingManaged(venue.rows, intent.side), specs.value))
              && (r.Ok? ==> |r.value| == |specs.value|)
              && (r.Err? ==> r.error != InvalidIntent)
              && (r.Ok? ==> forall s :: s in specs.value ==> ReportedFor(r.value, old(venue.rows), intent.side, s))
              && (SameOrders(WorkingManaged(old(venue.rows), intent.side), specs.value) ==> venue.rows == old(venue.rows))
              && (r.Ok? ==> Stops(WorkingManaged(venue.rows, intent.side)) == 1)
              && Undisturbed(old(venue.rows), venue.rows, venue.trace, |old(venue.trace)|, intent.side, specs.value)
              && var wanted := WantedStop(intent, f.tick);
              && (old(HasStop(venue.rows, intent.side)) && !HasStop(venue.rows, intent.side) ==>
                    StopAtRisk(old(venue.rows), intent.side, wanted))
              && (StopAtRisk(old(venue.rows), intent.side, wanted)
                  && old(venue.replies) == CancelledOnly(old(venue.rows), intent.side, specs.value) ==>
                    r == Err(RequestFailed) && !HasStop(venue.rows, intent.side) && venue.lostCancel == old(venue.lostCancel))
              && (CalmReplies(old(venue.replies)) && NamesFree(old(venue.rows), intent.side, specs.value) ==>
                    r.Ok? && CalmReplies(venue.replies))
  {
    hide BuildSpecs, SameOrders, UniqueNames, Matches, Rebuilt, AllRebuilt, Provides, ReportedFor, HasStop, WantedStop,
         CancelledOnly, StopAtRisk, Split, NamesFree, CalmReplies, DistinctNames, DistinctKeys, Stops, Undisturbed, Completes;
    var built := BuildSpecs(intent, filled, averagePrice, f);
    if built.Err? {
      SpecsExist(intent, filled, averagePrice, f);
      return Err(built.error);
    }
    var specs, side := built.value, intent.side;
    SpecsDistinct(intent, filled, averagePrice, f);
    SpecsCounted(intent, filled, averagePrice, f);
    StopIsFirst(intent, filled, averagePrice, f);
    ghost var start, since := venue.rows, |venue.trace|;
    var prepared;
    ghost var retained;
    prepared, retained := Prepare(venue, side, specs, WantedStop(intent, f.tick));
    OnlyAtRisk(start, venue.rows, venue.trace, since, specs, intent, f.tick);
    if prepared.Err? {
      return Err(prepared.error);
    }
    var (orders, missing) := prepared.value;
    ghost var cancelled := venue.trace;
    MissingWanted(WorkingManaged(start, side), specs, retained, orders, missing);
    var submitted := Complete(venue, side, specs, missing, start, retained);
    RebuiltThrough(cancelled, venue.trace, since, start, side, specs, retained);
    RetainedStay(start, venue.rows, venue.trace, since, side, specs, retained, orders, missing);
    OnlyAtRisk(start, venue.rows, venue.trace, since, specs, intent, f.tick);
    if submitted.Err? {
      return Err(submitted.error);
    }
    AllReported(start, side, specs, orders, missing, retained, submitted.value);
    r := Ok(orders + submitted.value);
  }

  lemma {:induction false} UniqueMembers(rows: seq<AlgoOrder>, side: PositionSide)
    requires UniqueNames(rows)
    ensures DistinctNames(WorkingManaged(rows, side))
  {
    if rows != [] {
      var rest := rows[1..];
      assert forall i :: 0 <= i < |rest| ==> rest[i] == rows[i + 1];
      UniqueMembers(rest, side);
      assert rows[0].active ==> forall o :: o in WorkingManaged(rest, side) ==> o.name != rows[0].name;
    }
  }

  /**
    In this and in every recorded state only managed orders of the side have ended and only wanted
    ones were added, and every wanted order that worked at the start works.
   */
  ghost predicate Undisturbed(start: seq<AlgoOrder>, rows: seq<AlgoOrder>, trace: seq<seq<AlgoOrder>>, since: nat,
                              side: PositionSide, specs: seq<AlgoOrder>) {
    && Rebuilt(start, rows, side, specs, {}) && AllRebuilt(trace, since, start, side, specs, {})
    && (forall s :: s in specs && Provides(start, side, s) ==> Provides(rows, side, s))
    && (forall s, k :: s in specs && Provides(start, side, s) && since <= k < |trace| ==> Provides(trace[k], side, s))
  }

  lemma UndisturbedAtFirst(start: seq<AlgoOrder>, trace: seq<seq<AlgoOrder>>, side: PositionSide, specs: seq<AlgoOrder>)
    ensures Undisturbed(start, start, trace, |trace|, side, specs)
  {
  }

  /** Wanted orders that were there work in every state. */
  lemma RetainedStay(start: seq<AlgoOrder>, rows: seq<AlgoOrder>, trace: seq<seq<AlgoOrder>>, since: nat, side: PositionSide,
                     specs: seq<AlgoOrder>, retained: set<OrderName>, orders: seq<AlgoOrder>, missing: seq<AlgoOrder>)
    requires Rebuilt(start, rows, side, specs, retained)
    requires AllRebuilt(trace, since, start, side, specs, retained)
    requires Split(WorkingManaged(start, side), specs, retained, orders, missing)
    ensures Undisturbed(start, rows, trace, since, side, specs)
  {
    forall s | s in specs && Provides(start, side, s)
      ensures Provides(rows, side, s)
      ensures forall k :: since <= k < |trace| ==> Provides(trace[k], side, s)
    {
      var i :| 0 <= i < |start| && start[i].active && ManagedOf(start[i], side) && Matches(start[i], s);
      assert start[i] in WorkingManaged(start, side);
      var o :| o in WorkingManaged(start, side) && Matches(o, s) && o.name in retained;
      RebuiltProvides(start, rows, side, specs, retained, o, s);
      forall k | since <= k < |trace|
        ensures Provides(trace[k], side, s)
      {
        RebuiltProvides(start, trace[k], side, specs, retained, o, s);
      }
    }
  }
}
