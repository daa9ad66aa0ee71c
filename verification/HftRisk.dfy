/** The inventory cap, the cooldown and the consecutive-loss breaker in front of the paper executor. */
module HftRisk {
  import opened Common
  import opened PaperExecutor

  datatype Limits = Limits(maxInventory: real, cooldown: real, stale: real, maxLosses: int)

  datatype Refusal = NoSignal | Breaker | MarketStale | Cooldown | InvalidNotional | MaxInventory

  datatype Decision = Allowed(quantity: real, capped: bool) | Refused(reason: Refusal)

  // ----- The inventory cap -----

  function PriceOf(action: Action, bestBid: real, bestAsk: real): real {
    if action.Buy? then bestAsk else bestBid
  }

  /** Inventory moves towards flat and does not pass it. */
  predicate PureReduction(before: real, after: real) {
    0.0 <= after < before || before < after <= 0.0
  }

  /** The position stays within the cap at this price, or only shrinks. */
  predicate WithinCap(before: real, after: real, price: real, cap: real) {
    Abs(Worth(after, price)) <= cap || PureReduction(before, after)
  }

  /** How much notional the cap leaves in the direction of an order. */
  function Allowance(inventory: real, signed: real, price: real, cap: real): real {
    var current := Abs(Worth(inventory, price));
    if SameDirection(inventory, signed) then cap - current else cap + current
  }

  /** The quantity the cap leaves of a desired notional. */
  function Sized(action: Action, inventory: real, price: real, desired: real, cap: real): Decision
    requires price > 0.0 && desired > 0.0 && !action.Hold?
  {
    var quantity := Units(desired, price);
    var signed := Signed(action, quantity);
    if Abs(Worth(inventory + signed, price)) <= cap then Allowed(quantity, false)
    else
      var allowable := Allowance(inventory, signed, price, cap);
      if allowable <= 0.0 then Refused(MaxInventory)
      else
        var reduced := Min(quantity, Units(allowable, price));
        if reduced <= 0.0 then Refused(MaxInventory) else Allowed(reduced, true)
  }

  /** An order within the allowance keeps the cap, and only such an order does. */
  lemma AllowanceIsCap(inventory: real, signed: real, price: real, cap: real)
    requires price > 0.0 && signed != 0.0
    ensures Abs(Worth(signed, price)) <= Allowance(inventory, signed, price, cap) ==>
              WithinCap(inventory, inventory + signed, price, cap)
    ensures cap >= 0.0 && Abs(Worth(signed, price)) > Allowance(inventory, signed, price, cap) ==>
              !WithinCap(inventory, inventory + signed, price, cap)
  {
    hide Worth;
    WorthAdds(inventory, signed, price);
    WorthOrdered(inventory, 0.0, price);
    WorthOrdered(signed, 0.0, price);
    WorthOrdered(inventory + signed, 0.0, price);
  }

  lemma SignedWorth(action: Action, q: real, price: real)
    requires price > 0.0 && q > 0.0
    ensures Abs(Worth(Signed(action, q), price)) == Worth(q, price) > 0.0
  {
    hide Worth;
    WorthAdds(q, 0.0, price);
    WorthOrdered(0.0, q, price);
  }

  /**
    An allowed quantity is positive, no more than desired, and keeps the cap; with a cap that is
    not negative it is also the largest such quantity, and a refusal means there is none.
   */
  lemma SizedIsLargestWithinCap(action: Action, inventory: real, price: real, desired: real, cap: real, q: real)
    requires price > 0.0 && desired > 0.0 && !action.Hold?
    ensures var d := Sized(action, inventory, price, desired, cap);
            && (d.Allowed? ==>
                  && 0.0 < d.quantity && Worth(d.quantity, price) <= desired
                  && WithinCap(inventory, inventory + Signed(action, d.quantity), price, cap)
                  && (d.capped <==> Abs(Worth(inventory + Signed(action, Units(desired, price)), price)) > cap)
                  && (!d.capped ==> Worth(d.quantity, price) == desired))
            && (d.Refused? ==> d.reason == MaxInventory)
            && (cap >= 0.0 && 0.0 < q && Worth(q, price) <= desired && (d.Allowed? ==> q > d.quantity) ==>
                  !WithinCap(inventory, inventory + Signed(action, q), price, cap))
  {
    SizedWithinCap(action, inventory, price, desired, cap);
    if cap >= 0.0 && 0.0 < q && Worth(q, price) <= desired {
      LargerBreaksCap(action, inventory, price, desired, cap, q);
    }
  }

  lemma SizedWithinCap(action: Action, inventory: real, price: real, desired: real, cap: real)
    requires price > 0.0 && desired > 0.0 && !action.Hold?
    ensures var d := Sized(action, inventory, price, desired, cap);
            && (d.Allowed? ==>
                  && 0.0 < d.quantity && Worth(d.quantity, price) <= desired
                  && WithinCap(inventory, inventory + Signed(action, d.quantity), price, cap)
                  && (d.capped <==> Abs(Worth(inventory + Signed(action, Units(desired, price)), price)) > cap)
                  && (!d.capped ==> Worth(d.quantity, price) == desired))
            && (d.Refused? ==> d.reason == MaxInventory)
  {
    hide Worth, Units;
    var d := Sized(action, inventory, price, desired, cap);
    var full := Units(desired, price);
    WorthOfUnits(desired, price);
    WorthAdds(0.0, 0.0, price);
    WorthOrdered(0.0, full, price);
    if d.Allowed? {
      var room := Units(Allowance(inventory, Signed(action, full), price, cap), price);
      WorthOfUnits(Allowance(inventory, Signed(action, full), price, cap), price);
      WorthOrdered(d.quantity, full, price);
      WorthOrdered(d.quantity, room, price);
      SignedWorth(action, d.quantity, price);
      AllowanceIsCap(inventory, Signed(action, d.quantity), price, cap);
    }
  }

  lemma LargerBreaksCap(action: Action, inventory: real, price: real, desired: real, cap: real, q: real)
    requires price > 0.0 && desired > 0.0 && !action.Hold?
    requires cap >= 0.0 && 0.0 < q && Worth(q, price) <= desired
    ensures var d := Sized(action, inventory, price, desired, cap);
            (d.Allowed? ==> q > d.quantity) ==> !WithinCap(inventory, inventory + Signed(action, q), price, cap)
  {
    hide Worth, Units;
    var d := Sized(action, inventory, price, desired, cap);
    var full := Units(desired, price);
    var room := Units(Allowance(inventory, Signed(action, full), price, cap), price);
    WorthOfUnits(desired, price);
    WorthOfUnits(Allowance(inventory, Signed(action, full), price, cap), price);
    WorthAdds(0.0, 0.0, price);
    WorthOrdered(0.0, full, price);
    WorthOrdered(full, q, price);
    WorthOrdered(room, q, price);
    WorthOrdered(0.0, room, price);
    SignedWorth(action, q, price);
    AllowanceIsCap(inventory, Signed(action, q), price, cap);
  }

  /** A signal is refused for the first reason that applies, in this order, and otherwise sized by the cap. */
  function Admission(action: Action, price: real, receivedAt: real, inventory: real, desired: real, now: real,
                     halted: bool, lastTrade: Option<real>, limits: Limits): Decision
    requires price > 0.0
  {
    if action.Hold? then Refused(NoSignal)
    else if halted then Refused(Breaker)
    else if receivedAt > 0.0 && now - receivedAt > limits.stale then Refused(MarketStale)
    else if lastTrade.Some? && now - lastTrade.value < limits.cooldown then Refused(Cooldown)
    else if desired <= 0.0 then Refused(InvalidNotional)
    else Sized(action, inventory, price, desired, limits.maxInventory)
  }

  // ----- Losing streaks -----

  /** How many of the latest closing fills in a row made no money. */
  function TrailingLosses(closings: seq<real>): nat {
    if closings == [] || closings[|closings| - 1] > 0.0 then 0
    else 1 + TrailingLosses(closings[..|closings| - 1])
  }

  /** The count is exactly the length of the longest losing end of the list. */
  lemma {:induction false} TrailingLossesMeaning(closings: seq<real>)
    ensures var n := TrailingLosses(closings);
            && n <= |closings|
            && (forall i :: |closings| - n <= i < |closings| ==> closings[i] <= 0.0)
            && (n < |closings| ==> closings[|closings| - n - 1] > 0.0)
  {
    if closings != [] && closings[|closings| - 1] <= 0.0 {
      TrailingLossesMeaning(closings[..|closings| - 1]);
    }
  }

  class HftRiskManager {
    var limits: Limits
    var lastTrade: Option<real>
    var consecutiveLosses: int
    var halted: bool
    /** Net results of the closing fills recorded so far. */
    ghost var closings: seq<real>

    constructor (limits: Limits)
      ensures Valid() && this.limits == limits && !halted && lastTrade == None && closings == []
    {
      this.limits, lastTrade, consecutiveLosses, halted, closings := limits, None, 0, false, [];
    }

    ghost predicate Valid()
      reads this
    {
      consecutiveLosses == TrailingLosses(closings)
    }

    /** A halt is backed by enough losses in a row. */
    ghost predicate HaltJustified()
      reads this
    {
      halted ==> TrailingLosses(closings) >= limits.maxLosses
    }

    method UpdateLimits(newLimits: Limits)
      requires Valid()
      modifies `limits, `halted
      ensures Valid() && limits == newLimits
      ensures halted <==> old(halted) && TrailingLosses(closings) >= newLimits.maxLosses
    {
      limits := newLimits;
      if consecutiveLosses < newLimits.maxLosses {
        halted := false;
      }
    }

    /** Refusals in order; whatever passes them is sized by the cap. */
    method Check(action: Action, bestBid: real, bestAsk: real, receivedAt: real, inventory: real, desired: real, now: real)
      returns (d: Decision)
      requires bestBid > 0.0 && bestAsk > 0.0
      ensures d.Allowed? ==>
                var price := PriceOf(action, bestBid, bestAsk);
                && !action.Hold? && !halted && desired > 0.0
                && (receivedAt > 0.0 ==> now - receivedAt <= limits.stale)
                && (lastTrade.Some? ==> now - lastTrade.value >= limits.cooldown)
                && 0.0 < d.quantity && Worth(d.quantity, price) <= desired
                && WithinCap(inventory, inventory + Signed(action, d.quantity), price, limits.maxInventory)
      ensures d == Admission(action, PriceOf(action, bestBid, bestAsk), receivedAt, inventory, desired, now, halted,
                             lastTrade, limits)
      ensures d == Refused(NoSignal) <==> action.Hold?
      ensures d == Refused(Breaker) <==> !action.Hold? && halted
      ensures d.Refused? && d.reason != MaxInventory <==>
              || action.Hold? || halted || desired <= 0.0
              || (receivedAt > 0.0 && now - receivedAt > limits.stale)
              || (lastTrade.Some? && now - lastTrade.value < limits.cooldown)
      ensures d.Refused? && d.reason == MaxInventory && limits.maxInventory >= 0.0 ==>
                var price := PriceOf(action, bestBid, bestAsk);
                forall q :: 0.0 < q && Worth(q, price) <= desired ==>
                              !WithinCap(inventory, inventory + Signed(action, q), price, limits.maxInventory)
      ensures d.Allowed? && limits.maxInventory >= 0.0 ==>
                var price := PriceOf(action, bestBid, bestAsk);
                forall q :: q > d.quantity && Worth(q, price) <= desired ==>
                              !WithinCap(inventory, inventory + Signed(action, q), price, limits.maxInventory)
    {
      hide Worth, Units;
      if action.Hold? {
        return Refused(NoSignal);
      }
      if halted {
        return Refused(Breaker);
      }
      if receivedAt > 0.0 && now - receivedAt > limits.stale {
        return Refused(MarketStale);
      }
      if lastTrade.Some? && now - lastTrade.value < limits.cooldown {
        return Refused(Cooldown);
      }
      if desired <= 0.0 {
        return Refused(InvalidNotional);
      }
      var price := PriceOf(action, bestBid, bestAsk);
      forall q: real {
        SizedIsLargestWithinCap(action, inventory, price, desired, limits.maxInventory, q);
      }
      d := Sized(action, inventory, price, desired, limits.maxInventory);
    }

    /** Only closing fills count.  A win ends the streak but not a halt, hence the exact condition. */
    method RecordFill(closed: real, net: real, now: real)
      requires Valid()
      modifies `lastTrade, `consecutiveLosses, `halted, `closings
      ensures Valid()
      ensures closed <= 0.0 ==> unchanged(this)
      ensures closed > 0.0 ==>
                && closings == old(closings) + [net] && lastTrade == Some(now)
                && (net > 0.0 ==> TrailingLosses(closings) == 0)
                && (halted <==> old(halted) || (net <= 0.0 && TrailingLosses(closings) >= limits.maxLosses))
      ensures closed > 0.0 && old(HaltJustified()) ==>
                (HaltJustified() <==> !(old(halted) && net > 0.0 && limits.maxLosses > 0))
    {
      if closed <= 0.0 {
        return;
      }
      lastTrade := Some(now);
      closings := closings + [net];
      assert closings[..|closings| - 1] == old(closings);
      if net <= 0.0 {
        consecutiveLosses := consecutiveLosses + 1;
        if consecutiveLosses >= limits.maxLosses {
          halted := true;
        }
      } else {
        consecutiveLosses := 0;
      }
    }

    method RecordOpeningFill(now: real)
      requires Valid()
      modifies `lastTrade
      ensures Valid() && lastTrade == Some(now)
    {
      lastTrade := Some(now);
    }
  }

  /** Two losses halt, and a win ends the streak but not the halt. */
  method WinKeepsHalt() returns (halted: bool, streak: nat)
    ensures halted && streak == 0
  {
    var limits := Limits(100.0, 1.0, 1.0, 2);
    var risk := new HftRiskManager(limits);
    risk.RecordFill(1.0, -1.0, 1.0);
    risk.RecordFill(1.0, -1.0, 2.0);
    assert risk.closings == [-1.0, -1.0];
    TwoLosses();
    assert risk.halted;
    risk.RecordFill(1.0, 1.0, 3.0);
    return risk.halted, risk.consecutiveLosses;
  }

  lemma TwoLosses()
    ensures TrailingLosses([-1.0, -1.0]) == 2
  {
    assert [-1.0, -1.0][..1] == [-1.0] && [-1.0][..0] == [];
    assert TrailingLosses([-1.0]) == 1;
  }
}
