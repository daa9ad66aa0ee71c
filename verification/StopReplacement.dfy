/**
  Replacing the hard stop of an open position by a tighter one.  The usual path submits
  the new stop and then cancels the old one; when the exchange refuses two closing stops
  at once, the old one is cancelled first and put back if the new one cannot be placed.

  The protocol is given twice: as functions over a `World`, which the safety lemmas and the
  exact failure condition are about, and as the methods of `StopGateway`, which work on the
  exchange and are shown to equal them.
 */
module StopReplacement {
  import opened Common
  import opened AlgoVenue

  datatype Holding = Holding(side: PositionSide, stop: real)

  function StopOrder(side: PositionSide, trigger: real, name: OrderName): AlgoOrder {
    AlgoOrder(name, CloseSide(side), side, StopMarket, trigger, 0.0, true, true)
  }

  /** A hard stop of `side` with exactly the parameters this system submits. */
  predicate ClosingStop(o: AlgoOrder, side: PositionSide) {
    StopOf(o, side) && Matches(o, StopOrder(side, o.trigger, o.name))
  }

  /** Away from the market, so that rounding never tightens past what was asked for. */
  function RoundedStop(side: PositionSide, proposed: real, tick: real): (r: real)
    requires tick > 0.0
    ensures OnGrid(r, tick) && AtLeastAsTight(side, proposed, r)
  {
    if side.Long? then FloorTo(proposed, tick) else CeilTo(proposed, tick)
  }

  /** A trailing-stop name tells side and trigger of the order that bears it. */
  predicate NamesFaithful(rows: seq<AlgoOrder>) {
    forall i :: 0 <= i < |rows| && rows[i].active && rows[i].name.Trailing? ==>
                  StopOf(rows[i], rows[i].name.owner) && rows[i].trigger == rows[i].name.price
  }

  predicate NoncesBelow(rows: seq<AlgoOrder>, clock: int) {
    forall i :: 0 <= i < |rows| && rows[i].name.Rollback? ==> rows[i].name.nonce < clock
  }

  /**
    `rows` is `start` after some hard stops of `side` were deactivated and some were added,
    each added one at one of the `allowed` triggers.  All other orders are untouched.
   */
  predicate Evolved(start: seq<AlgoOrder>, rows: seq<AlgoOrder>, side: PositionSide, allowed: set<real>) {
    && |start| <= |rows|
    && (forall i :: 0 <= i < |start| ==>
                      rows[i] == start[i] || (StopOf(start[i], side) && rows[i] == start[i].(active := false)))
    && (forall i :: |start| <= i < |rows| ==> ClosingStop(rows[i], side) && NamedFor(rows[i]) && rows[i].trigger in allowed)
  }

  /** A trailing-stop name, if it has one, is that of its own side and trigger. */
  predicate NamedFor(o: AlgoOrder) {
    o.name.Trailing? ==> o.name == Trailing(o.positionSide, o.trigger)
  }

  /** No working stop of `side` is looser than `bound`. */
  predicate NoneLooser(rows: seq<AlgoOrder>, side: PositionSide, bound: real) {
    forall i :: 0 <= i < |rows| && WorkingStop(rows[i], side) ==> AtLeastAsTight(side, rows[i].trigger, bound)
  }

  /** What `Evolved` means for risk: no step of a replacement loosens the loosest working stop. */
  lemma EvolvedNeverLoosens(start: seq<AlgoOrder>, rows: seq<AlgoOrder>, side: PositionSide, allowed: set<real>, bound: real)
    requires Evolved(start, rows, side, allowed)
    requires NoneLooser(start, side, bound)
    requires forall t :: t in allowed ==> AtLeastAsTight(side, t, bound)
    ensures NoneLooser(rows, side, bound)
  {
    forall i | 0 <= i < |rows| && WorkingStop(rows[i], side)
      ensures AtLeastAsTight(side, rows[i].trigger, bound)
    {
      if i < |start| {
        assert rows[i] == start[i];
      }
    }
  }

  /** Cancelling one of the stops working at the start is one of the changes `Evolved` allows. */
  lemma CancelEvolves(start: seq<AlgoOrder>, rows: seq<AlgoOrder>, o: AlgoOrder, side: PositionSide, allowed: set<real>)
    requires Evolved(start, rows, side, allowed) && UniqueNames(start)
    requires o in start && WorkingStop(o, side)
    ensures Evolved(start, Deactivate(rows, o.name), side, allowed)
  {
    var k :| 0 <= k < |start| && start[k] == o;
    var after := Deactivate(rows, o.name);
    forall i | 0 <= i < |start|
      ensures after[i] == start[i] || (StopOf(start[i], side) && after[i] == start[i].(active := false))
    {
      assert start[i].active && start[i].name == o.name ==> i == k;
    }
  }

  /** So is submitting a stop at an allowed trigger. */
  lemma SubmitEvolves(start: seq<AlgoOrder>, before: seq<AlgoOrder>, order: AlgoOrder, side: PositionSide,
                      allowed: set<real>)
    requires Evolved(start, before, side, allowed)
    requires ClosingStop(order, side) && NamedFor(order) && order.trigger in allowed
    ensures Evolved(start, before + [order], side, allowed)
  {
  }

  predicate StopNamed(rows: seq<AlgoOrder>, name: OrderName, side: PositionSide) {
    exists i :: 0 <= i < |rows| && WorkingStop(rows[i], side) && rows[i].name == name
  }

  /** Cancelling one name leaves every other stop working. */
  lemma CancelKeeps(rows: seq<AlgoOrder>, name: OrderName, keep: OrderName, side: PositionSide)
    requires StopNamed(rows, keep, side) && name != keep
    ensures StopNamed(Deactivate(rows, name), keep, side)
  {
    var i :| 0 <= i < |rows| && WorkingStop(rows[i], side) && rows[i].name == keep;
    assert Deactivate(rows, name)[i] == rows[i];
  }

  /** Submitting an order leaves every stop working. */
  lemma SubmitKeeps(rows: seq<AlgoOrder>, order: AlgoOrder, keep: OrderName, side: PositionSide)
    requires StopNamed(rows, keep, side)
    ensures StopNamed(rows + [order], keep, side)
  {
    var i :| 0 <= i < |rows| && WorkingStop(rows[i], side) && rows[i].name == keep;
    assert (rows + [order])[i] == rows[i];
  }

  lemma NamedStop(rows: seq<AlgoOrder>, order: AlgoOrder)
    requires NamesFaithful(rows) && order.name == Trailing(order.positionSide, order.trigger)
    requires NameActive(rows, order.name)
    ensures StopNamed(rows, order.name, order.positionSide)
  {
    var i :| 0 <= i < |rows| && rows[i].active && rows[i].name == order.name;
    assert WorkingStop(rows[i], order.positionSide);
  }

  /** The working hard stops of `side` except the one called `name`. */
  function OtherStops(rows: seq<AlgoOrder>, side: PositionSide, name: OrderName): (r: seq<AlgoOrder>)
    ensures forall o :: o in r <==> o in rows && WorkingStop(o, side) && o.name != name
  {
    if rows == [] then []
    else (if WorkingStop(rows[0], side) && rows[0].name != name then [rows[0]] else []) + OtherStops(rows[1..], side, name)
  }

  // ----- The world a replacement acts on -----

  /**
    Everything the protocol reads or changes, and what observers keep of it: `trace` is every
    state of the order list, `misplaced` says that a stop counted as placed although no order
    of its name works, `swaps` counts the replacements that cancelled first.
   */
  datatype World = World(
    rows: seq<AlgoOrder>, replies: seq<Reply>, lastMark: real, trace: seq<seq<AlgoOrder>>, lostCancel: bool,
    cancelFirst: set<PositionSide>, clock: int, misplaced: bool, swaps: nat)

  predicate Sane(w: World) {
    UniqueNames(w.rows) && NamesFaithful(w.rows) && NoncesBelow(w.rows, w.clock)
  }

  /** How many recorded states have no hard stop. */
  function Gaps(trace: seq<seq<AlgoOrder>>, side: PositionSide): nat {
    if trace == [] then 0
    else Gaps(trace[..|trace| - 1], side) + (if HasStop(trace[|trace| - 1], side) then 0 else 1)
  }

  function Asked(w: World): World {
    w.(replies := Rest(w.replies))
  }

  function MarkRun(w: World): (World, Result<real, AlgoError>) {
    var reply := NextReply(w.replies);
    if reply.answered then (Asked(w).(lastMark := reply.price), Ok(reply.price)) else (Asked(w), Err(RequestFailed))
  }

  function ListRun(w: World): (World, Result<seq<AlgoOrder>, AlgoError>) {
    (Asked(w), if NextReply(w.replies).answered then Ok(w.rows) else Err(RequestFailed))
  }

  function CancelRun(w: World, name: OrderName): (World, bool) {
    var reply := NextReply(w.replies);
    var rows := if reply.effective then Deactivate(w.rows, name) else w.rows;
    (Asked(w).(rows := rows, trace := if reply.effective then w.trace + [rows] else w.trace,
               lostCancel := w.lostCancel || (reply.effective && !reply.answered)),
     reply.answered)
  }

  function SubmitRun(w: World, order: AlgoOrder): (World, Result<AlgoOrder, AlgoError>) {
    var reply := NextReply(w.replies);
    var accepted := Accepted(w.rows, order, reply);
    var rows := if accepted then w.rows + [order] else w.rows;
    var found := LookedUp(rows, order.name, reply);
    var r := if reply.answered && found.Some? then Ok(found.value) else Err(SubmitFailed(reply.conflict));
    (Asked(w).(rows := rows, trace := if accepted then w.trace + [rows] else w.trace,
               misplaced := w.misplaced || (r.Ok? && !NameActive(rows, order.name))),
     r)
  }

  // ----- The protocol, as functions -----

  /** Put the cancelled stop back, under a name that was never used before. */
  function RestoreRun(w: World, previous: AlgoOrder): (World, Result<AlgoOrder, AlgoError>) {
    SubmitRun(w.(clock := w.clock + 1), StopOrder(previous.positionSide, previous.trigger, Rollback(w.clock)))
  }

  function RollBackRun(w: World, previous: AlgoOrder, failure: AlgoError): (World, Result<AlgoOrder, AlgoError>) {
    var (after, r) := RestoreRun(w, previous);
    (after, Err(if r.Ok? then failure else RollbackFailed))
  }

  /** The old stop is cancelled: read the mark again and submit the new one, or put the old one back. */
  function CreateRun(w: World, previous: AlgoOrder, order: AlgoOrder): (World, Result<AlgoOrder, AlgoError>) {
    var (marked, mark) := MarkRun(w);
    if mark.Err? then RollBackRun(marked, previous, mark.error)
    else if !Tighter(order.positionSide, mark.value, order.trigger) then RollBackRun(marked, previous, WrongSideOfMark)
    else
      var (submitted, r) := SubmitRun(marked, order);
      if r.Ok? then (submitted, r) else RollBackRun(submitted, previous, r.error)
  }

  /** A cancellation that is not answered is not rolled back: the request stands outside the guarded part. */
  function CancelThenCreateRun(w: World, previous: AlgoOrder, order: AlgoOrder): (World, Result<AlgoOrder, AlgoError>) {
    var (cancelled, ok) := CancelRun(w.(swaps := w.swaps + 1), previous.name);
    if !ok then (cancelled, Err(CancelFailed)) else CreateRun(cancelled, previous, order)
  }

  function SubmitOrFallBackRun(w: World, order: AlgoOrder, existing: seq<AlgoOrder>)
    : (World, Result<AlgoOrder, AlgoError>, set<OrderName>)
  {
    var side, others := order.positionSide, OtherStops(existing, order.positionSide, order.name);
    if side in w.cancelFirst && |others| == 1 then
      var (after, r) := CancelThenCreateRun(w, others[0], order);
      (after, r, {others[0].name})
    else
      var (submitted, first) := SubmitRun(w, order);
      if first.Ok? || !first.error.SubmitFailed? || !first.error.conflict || |others| != 1 then (submitted, first, {})
      else
        var (after, r) := CancelThenCreateRun(submitted.(cancelFirst := submitted.cancelFirst + {side}), others[0], order);
        (after, r, {others[0].name})
  }

  /** Keep the new stop if it already works as wanted; otherwise drop what bears its name, and submit it. */
  function PlaceRun(w: World, order: AlgoOrder, existing: seq<AlgoOrder>)
    : (World, Result<AlgoOrder, AlgoError>, set<OrderName>)
  {
    var current := FindNamed(existing, order.name);
    if current.Some? && Matches(current.value, order) then (w, Ok(current.value), {})
    else if current.Some? then
      var (cancelled, ok) := CancelRun(w, order.name);
      if !ok then (cancelled, Err(CancelFailed), {})
      else
        var (after, r, names) := SubmitOrFallBackRun(cancelled, order, existing);
        (after, r, names + {order.name})
    else SubmitOrFallBackRun(w, order, existing)
  }

  predicate ToCancel(o: AlgoOrder, order: AlgoOrder, cancelled: set<OrderName>) {
    WorkingStop(o, order.positionSide) && o.name != order.name && o.name !in cancelled
  }

  function CancelOthersRun(w: World, order: AlgoOrder, listed: seq<AlgoOrder>, cancelled: set<OrderName>): (World, bool)
    decreases |listed|
  {
    if listed == [] then (w, true)
    else if !ToCancel(listed[0], order, cancelled) then CancelOthersRun(w, order, listed[1..], cancelled)
    else
      var (after, ok) := CancelRun(w, listed[0].name);
      if !ok then (after, false) else CancelOthersRun(after, order, listed[1..], cancelled)
  }

  /** A last look: the new stop has to be the only one. */
  function ConfirmRun(w: World, order: AlgoOrder, placed: AlgoOrder): (World, Result<AlgoOrder, AlgoError>) {
    var (looked, listing) := ListRun(w);
    if listing.Err? then (looked, Err(listing.error))
    else
      var working := WorkingStops(listing.value, order.positionSide);
      (looked, if |working| != 1 || working[0].name != order.name then Err(ReplacementInvariant) else Ok(placed))
  }

  function ReplaceRun(w: World, order: AlgoOrder, existing: seq<AlgoOrder>): (World, Result<AlgoOrder, AlgoError>) {
    var (placed, r, cancelled) := PlaceRun(w, order, existing);
    if r.Err? then (placed, r)
    else
      var (cleared, ok) := CancelOthersRun(placed, order, existing, cancelled);
      if !ok then (cleared, Err(CancelFailed)) else ConfirmRun(cleared, order, r.value)
  }

  function NewStop(side: PositionSide, target: real): AlgoOrder {
    StopOrder(side, target, Trailing(side, target))
  }

  function TightenRun(w: World, tick: real, position: Holding, proposed: real): (World, Result<AlgoOrder, AlgoError>)
    requires tick > 0.0
  {
    var side, target := position.side, RoundedStop(position.side, proposed, tick);
    if !Tighter(side, target, position.stop) then (w, Err(DoesNotTighten))
    else
      var (marked, mark) := MarkRun(w);
      if mark.Err? then (marked, Err(mark.error))
      else if !Tighter(side, mark.value, target) then (marked, Err(WrongSideOfMark))
      else
        var (listed, listing) := ListRun(marked);
        if listing.Err? then (listed, Err(listing.error)) else ReplaceRun(listed, NewStop(side, target), listing.value)
  }

  // ----- What one request changes -----

  predicate AllEvolved(start: seq<AlgoOrder>, trace: seq<seq<AlgoOrder>>, since: nat, side: PositionSide, allowed: set<real>) {
    forall k :: since <= k < |trace| ==> Evolved(start, trace[k], side, allowed)
  }

  /** The world is fit to go on from the listing `start`. */
  ghost predicate Ready(w: World, start: seq<AlgoOrder>, side: PositionSide, allowed: set<real>) {
    Sane(w) && Evolved(start, w.rows, side, allowed) && UniqueNames(start)
  }

  /** From `w` to `v` every state of the order list came from `start` in the allowed way, and flags only rise. */
  ghost predicate Continues(w: World, v: World, start: seq<AlgoOrder>, side: PositionSide, allowed: set<real>) {
    && Ready(v, start, side, allowed)
    && w.trace <= v.trace && AllEvolved(start, v.trace, |w.trace|, side, allowed)
    && (w.lostCancel ==> v.lostCancel) && (w.misplaced ==> v.misplaced) && w.swaps <= v.swaps && w.clock <= v.clock
  }

  lemma ContinuesTrans(u: World, v: World, w: World, start: seq<AlgoOrder>, side: PositionSide, allowed: set<real>)
    requires Continues(u, v, start, side, allowed) && Continues(v, w, start, side, allowed)
    ensures Continues(u, w, start, side, allowed)
  {
    hide Evolved, Sane, UniqueNames;
    forall k | |u.trace| <= k < |w.trace|
      ensures Evolved(start, w.trace[k], side, allowed)
    {
      if k < |v.trace| {
        assert w.trace[k] == v.trace[k];
      }
    }
  }

  lemma GapsGrow(trace: seq<seq<AlgoOrder>>, rows: seq<AlgoOrder>, side: PositionSide)
    ensures Gaps(trace + [rows], side) == Gaps(trace, side) + (if HasStop(rows, side) then 0 else 1)
  {
    assert (trace + [rows])[..|trace|] == trace;
  }

  /** Cancelling a listed stop: other stops stay, and a gap opens only if none is left. */
  lemma CancelContinues(w: World, o: AlgoOrder, side: PositionSide, start: seq<AlgoOrder>, allowed: set<real>)
    requires Ready(w, start, side, allowed) && o in start && WorkingStop(o, side)
    ensures var (v, ok) := CancelRun(w, o.name);
            && Continues(w, v, start, side, allowed)
            && (forall name :: name != o.name && StopNamed(w.rows, name, side) ==> StopNamed(v.rows, name, side))
            && (forall name :: name != o.name && NameEnded(v.rows, name) ==> NameEnded(w.rows, name))
            && Gaps(v.trace, side) <= Gaps(w.trace, side) + (if HasStop(v.rows, side) then 0 else 1)
            && v == w.(rows := v.rows, trace := v.trace, replies := v.replies, lostCancel := v.lostCancel)
            && (!ok && !v.lostCancel ==> v.rows == w.rows)
  {
    hide Evolved, UniqueNames;
    var (v, ok) := CancelRun(w, o.name);
    CancelEvolves(start, w.rows, o, side, allowed);
    UniqueAfterCancel(w.rows, o.name);
    GapsGrow(w.trace, v.rows, side);
    forall name | name != o.name && StopNamed(w.rows, name, side)
      ensures StopNamed(v.rows, name, side)
    {
      CancelKeeps(w.rows, o.name, name, side);
    }
    forall name | name != o.name && NameEnded(v.rows, name)
      ensures NameEnded(w.rows, name)
    {
      var i :| 0 <= i < |v.rows| && !v.rows[i].active && v.rows[i].name == name;
      assert w.rows[i] == v.rows[i];
    }
  }

  lemma UniqueAfterCancel(rows: seq<AlgoOrder>, name: OrderName)
    requires UniqueNames(rows)
    ensures UniqueNames(Deactivate(rows, name))
    ensures NamesFaithful(rows) ==> NamesFaithful(Deactivate(rows, name))
  {
  }

  /** A name this protocol may submit: a trailing stop's own, or a rollback name below the clock that was never used. */
  predicate Submittable(w: World, order: AlgoOrder) {
    && order == StopOrder(order.positionSide, order.trigger, order.name)
    && (|| order.name == Trailing(order.positionSide, order.trigger)
        || (order.name.Rollback? && order.name.nonce < w.clock
            && !NameActive(w.rows, order.name) && !NameEnded(w.rows, order.name)))
  }

  lemma OrderAdded(rows: seq<AlgoOrder>, order: AlgoOrder, clock: int)
    requires UniqueNames(rows) && NamesFaithful(rows) && NoncesBelow(rows, clock) && !NameActive(rows, order.name)
    requires order == StopOrder(order.positionSide, order.trigger, order.name)
    requires || order.name == Trailing(order.positionSide, order.trigger)
             || (order.name.Rollback? && order.name.nonce < clock)
    ensures var more := rows + [order];
            && UniqueNames(more) && NamesFaithful(more) && NoncesBelow(more, clock)
            && (forall name :: StopNamed(rows, name, order.positionSide) ==> StopNamed(more, name, order.positionSide))
            && (forall name :: NameEnded(more, name) ==> NameEnded(rows, name))
            && StopNamed(more, order.name, order.positionSide)
  {
    var more := rows + [order];
    assert more[|rows|] == order && WorkingStop(order, order.positionSide);
    forall name | StopNamed(rows, name, order.positionSide)
      ensures StopNamed(more, name, order.positionSide)
    {
      SubmitKeeps(rows, order, name, order.positionSide);
    }
    forall name | NameEnded(more, name)
      ensures NameEnded(rows, name)
    {
      var i :| 0 <= i < |more| && !more[i].active && more[i].name == name;
      assert rows[i] == more[i];
    }
  }

  lemma NamedHasStop(rows: seq<AlgoOrder>, name: OrderName, side: PositionSide)
    ensures StopNamed(rows, name, side) ==> HasStop(rows, side) && NameActive(rows, name)
  {
  }

  /** A name that works, submitted by this protocol, is borne by a stop. */
  lemma ActiveIsStop(w: World, order: AlgoOrder)
    requires Sane(w) && Submittable(w, order) && NameActive(w.rows, order.name)
    ensures StopNamed(w.rows, order.name, order.positionSide)
  {
    NamedStop(w.rows, order);
  }

  /**
    Submitting a stop: every working stop stays, no gap opens, and success means that the stop
    works, unless the name was looked up and found on an order that had ended.
   */
  lemma SubmitContinues(w: World, order: AlgoOrder, start: seq<AlgoOrder>, allowed: set<real>)
    requires Ready(w, start, order.positionSide, allowed) && Submittable(w, order) && order.trigger in allowed
    ensures var (v, r) := SubmitRun(w, order);
            && Continues(w, v, start, order.positionSide, allowed)
            && (forall name :: StopNamed(w.rows, name, order.positionSide) ==> StopNamed(v.rows, name, order.positionSide))
            && (forall name :: NameEnded(v.rows, name) ==> NameEnded(w.rows, name))
            && Gaps(v.trace, order.positionSide) == Gaps(w.trace, order.positionSide)
            && v == w.(rows := v.rows, trace := v.trace, replies := v.replies, misplaced := v.misplaced)
            && (r.Ok? ==> StopNamed(v.rows, order.name, order.positionSide) || v.misplaced)
            && (v.misplaced && !w.misplaced ==> NameEnded(w.rows, order.name))
            && (r.Err? ==> r.error.SubmitFailed?)
            && (order.name.Rollback? && r.Ok? ==> HasStop(v.rows, order.positionSide))
  {
    var side := order.positionSide;
    ClosingStopOf(order);
    hide Evolved, NamesFaithful, NoncesBelow, UniqueNames, StopNamed, HasStop, NameActive, NameEnded, ClosingStop, Gaps;
    var (v, r) := SubmitRun(w, order);
    if Accepted(w.rows, order, NextReply(w.replies)) {
      SubmitEvolves(start, w.rows, order, side, allowed);
      GapsGrow(w.trace, v.rows, side);
      OrderAdded(w.rows, order, w.clock);
    } else if NameActive(w.rows, order.name) {
      ActiveIsStop(w, order);
    }
    NamedHasStop(v.rows, order.name, side);
  }

  lemma ClosingStopOf(order: AlgoOrder)
    requires order == StopOrder(order.positionSide, order.trigger, order.name) && (order.name.Trailing? || order.name.Rollback?)
    ensures ClosingStop(order, order.positionSide)
  {
  }

  // ----- What a replacement comes to -----

  /** The three ways out of protection: a failed rollback, a lost cancellation, a stop placed in name only. */
  predicate Secured(v: World, r: Result<AlgoOrder, AlgoError>, side: PositionSide) {
    HasStop(v.rows, side) || r == Err(RollbackFailed) || v.lostCancel || v.misplaced
  }

  /**
    Success has the new stop working, or misplaced, on the safe side of the mark last read; failure
    leaves a stop in one of the three ways; no more gaps than replacements that cancelled first.
   */
  ghost predicate Concluded(
    w: World, v: World, r: Result<AlgoOrder, AlgoError>, order: AlgoOrder, start: seq<AlgoOrder>, allowed: set<real>) {
    var side := order.positionSide;
    && Continues(w, v, start, side, allowed)
    && Gaps(v.trace, side) - Gaps(w.trace, side) <= v.swaps - w.swaps <= 1
    && (r.Ok? ==> (StopNamed(v.rows, order.name, side) || v.misplaced) && Tighter(side, v.lastMark, order.trigger))
    && (r.Err? ==> Secured(v, r, side))
  }

  /** Stops of one name end or are misplaced from `w` to `v` only if some had ended before. */
  predicate NameKept(w: World, v: World, name: OrderName) {
    && (NameEnded(v.rows, name) ==> NameEnded(w.rows, name))
    && (v.misplaced && !w.misplaced ==> NameEnded(w.rows, name))
  }

  predicate Replacement(order: AlgoOrder, previous: AlgoOrder, allowed: set<real>) {
    && order == NewStop(order.positionSide, order.trigger)
    && previous.positionSide == order.positionSide && {order.trigger, previous.trigger} <= allowed
  }

  lemma FreshRollback(w: World)
    requires Sane(w)
    ensures !NameActive(w.rows, Rollback(w.clock)) && !NameEnded(w.rows, Rollback(w.clock))
    ensures Sane(w.(clock := w.clock + 1))
  {
  }

  /** Reading and bookkeeping change nothing on the exchange. */
  lemma QuietContinues(w: World, v: World, start: seq<AlgoOrder>, side: PositionSide, allowed: set<real>)
    requires Ready(w, start, side, allowed) && w.swaps <= v.swaps
    requires v == w.(replies := v.replies, lastMark := v.lastMark, cancelFirst := v.cancelFirst, swaps := v.swaps)
    ensures Continues(w, v, start, side, allowed)
  {
  }

  lemma RollBackContinues(w: World, previous: AlgoOrder, failure: AlgoError, start: seq<AlgoOrder>, allowed: set<real>)
    requires Ready(w, start, previous.positionSide, allowed) && previous.trigger in allowed
    ensures var (v, r) := RollBackRun(w, previous, failure);
            && Continues(w, v, start, previous.positionSide, allowed)
            && Gaps(v.trace, previous.positionSide) == Gaps(w.trace, previous.positionSide)
            && v.misplaced == w.misplaced && v.swaps == w.swaps && v.lastMark == w.lastMark
            && (forall name :: NameEnded(v.rows, name) ==> NameEnded(w.rows, name))
            && r.Err? && (r.error == RollbackFailed || (r.error == failure && HasStop(v.rows, previous.positionSide)))
  {
    hide Sane, Evolved, UniqueNames, StopNamed, HasStop, NameActive, NameEnded, SubmitRun, AllEvolved;
    FreshRollback(w);
    SubmitContinues(w.(clock := w.clock + 1), StopOrder(previous.positionSide, previous.trigger, Rollback(w.clock)), start, allowed);
  }

  lemma CreateConcludes(w: World, previous: AlgoOrder, order: AlgoOrder, start: seq<AlgoOrder>, allowed: set<real>)
    requires Ready(w, start, order.positionSide, allowed) && Replacement(order, previous, allowed)
    ensures var (v, r) := CreateRun(w, previous, order);
            Concluded(w, v, r, order, start, allowed) && v.swaps == w.swaps && NameKept(w, v, order.name)
  {
    hide Sane, Evolved, UniqueNames, StopNamed, HasStop, NameActive, NameEnded, SubmitRun, AllEvolved, RollBackRun, Tighter;
    var (marked, mark) := MarkRun(w);
    QuietContinues(w, marked, start, order.positionSide, allowed);
    if mark.Err? {
      RollBackContinues(marked, previous, mark.error, start, allowed);
    } else if !Tighter(order.positionSide, mark.value, order.trigger) {
      RollBackContinues(marked, previous, WrongSideOfMark, start, allowed);
    } else {
      var (submitted, r) := SubmitRun(marked, order);
      SubmitContinues(marked, order, start, allowed);
      if r.Err? {
        RollBackContinues(submitted, previous, r.error, start, allowed);
        ContinuesTrans(marked, submitted, RollBackRun(submitted, previous, r.error).0, start, order.positionSide, allowed);
      }
    }
    ContinuesTrans(w, marked, CreateRun(w, previous, order).0, start, order.positionSide, allowed);
  }

  lemma CancelThenCreateConcludes(w: World, previous: AlgoOrder, order: AlgoOrder, start: seq<AlgoOrder>, allowed: set<real>)
    requires Ready(w, start, order.positionSide, allowed) && Replacement(order, previous, allowed)
    requires previous in start && WorkingStop(previous, order.positionSide) && previous.name != order.name
    requires HasStop(w.rows, order.positionSide)
    ensures var (v, r) := CancelThenCreateRun(w, previous, order);
            Concluded(w, v, r, order, start, allowed) && v.swaps == w.swaps + 1 && NameKept(w, v, order.name)
  {
    hide Sane, Evolved, UniqueNames, StopNamed, HasStop, NameActive, NameEnded, AllEvolved, Tighter, CreateRun, CancelRun,
         Gaps, WorkingStop;
    var side := order.positionSide;
    var counted := w.(swaps := w.swaps + 1);
    QuietContinues(w, counted, start, side, allowed);
    CancelContinues(counted, previous, side, start, allowed);
    var (cancelled, ok) := CancelRun(counted, previous.name);
    ContinuesTrans(w, counted, cancelled, start, side, allowed);
    if ok {
      CreateConcludes(cancelled, previous, order, start, allowed);
      ContinuesTrans(w, cancelled, CreateRun(cancelled, previous, order).0, start, side, allowed);
    }
  }

  /** The one other stop, if there is one, is the recorded one. */
  lemma SoleOther(rows: seq<AlgoOrder>, side: PositionSide, name: OrderName, recorded: AlgoOrder)
    requires recorded in rows && WorkingStop(recorded, side) && recorded.name != name
    ensures var others := OtherStops(rows, side, name); |others| == 1 ==> others[0] == recorded
  {
  }

  lemma SubmitOrFallBackConcludes(w: World, recorded: AlgoOrder, order: AlgoOrder, start: seq<AlgoOrder>, allowed: set<real>)
    requires Ready(w, start, order.positionSide, allowed) && Replacement(order, recorded, allowed)
    requires recorded in start && WorkingStop(recorded, order.positionSide) && recorded.name != order.name
    requires StopNamed(w.rows, recorded.name, order.positionSide) && Tighter(order.positionSide, w.lastMark, order.trigger)
    ensures var (v, r, _) := SubmitOrFallBackRun(w, order, start);
            Concluded(w, v, r, order, start, allowed) && NameKept(w, v, order.name)
  {
    hide Sane, Evolved, UniqueNames, StopNamed, HasStop, NameActive, NameEnded, AllEvolved, Tighter, CancelThenCreateRun,
         SubmitRun, Gaps, WorkingStop, OtherStops;
    var side, others := order.positionSide, OtherStops(start, order.positionSide, order.name);
    SoleOther(start, side, order.name, recorded);
    NamedHasStop(w.rows, recorded.name, side);
    if side in w.cancelFirst && |others| == 1 {
      CancelThenCreateConcludes(w, recorded, order, start, allowed);
    } else {
      SubmitContinues(w, order, start, allowed);
      var (submitted, first) := SubmitRun(w, order);
      NamedHasStop(submitted.rows, recorded.name, side);
      if first.Err? && first.error.conflict && |others| == 1 {
        var known := submitted.(cancelFirst := submitted.cancelFirst + {side});
        QuietContinues(submitted, known, start, side, allowed);
        CancelThenCreateConcludes(known, recorded, order, start, allowed);
        ContinuesTrans(submitted, known, CancelThenCreateRun(known, recorded, order).0, start, side, allowed);
        ContinuesTrans(w, submitted, CancelThenCreateRun(known, recorded, order).0, start, side, allowed);
      }
    }
  }

  /**
    When a stop can be placed in name only: an order of the new stop's name works with other
    parameters, and is cancelled first, or none works and one is on record that no longer does.
   */
  predicate Vulnerable(rows: seq<AlgoOrder>, order: AlgoOrder) {
    var current := FindNamed(rows, order.name);
    if current.Some? then !Matches(current.value, order) else NameEnded(rows, order.name)
  }

  lemma PlaceConcludes(w: World, recorded: AlgoOrder, order: AlgoOrder, allowed: set<real>)
    requires Ready(w, w.rows, order.positionSide, allowed) && Replacement(order, recorded, allowed)
    requires recorded in w.rows && WorkingStop(recorded, order.positionSide) && recorded.name != order.name
    requires Tighter(order.positionSide, w.lastMark, order.trigger)
    ensures var (v, r, _) := PlaceRun(w, order, w.rows);
            && Concluded(w, v, r, order, w.rows, allowed)
            && (v.misplaced && !w.misplaced ==> Vulnerable(w.rows, order))
            && (NameEnded(v.rows, order.name) ==> NameEnded(w.rows, order.name) || NameActive(w.rows, order.name))
  {
    hide Sane, Evolved, UniqueNames, StopNamed, HasStop, NameActive, NameEnded, AllEvolved, Tighter,
         SubmitOrFallBackRun, CancelRun, Gaps, WorkingStop, Matches;
    var side, current := order.positionSide, FindNamed(w.rows, order.name);
    StopNamedBy(w.rows, recorded, side);
    NamedHasStop(w.rows, recorded.name, side);
    QuietContinues(w, w, w.rows, side, allowed);
    if current.None? {
      SubmitOrFallBackConcludes(w, recorded, order, w.rows, allowed);
    } else {
      ActiveIsStop(w, order);
      if !Matches(current.value, order) {
        NamedWorks(w, order, current.value);
        CancelContinues(w, current.value, side, w.rows, allowed);
        var (cancelled, ok) := CancelRun(w, order.name);
        NamedHasStop(cancelled.rows, recorded.name, side);
        if ok {
          SubmitOrFallBackConcludes(cancelled, recorded, order, w.rows, allowed);
          ContinuesTrans(w, cancelled, SubmitOrFallBackRun(cancelled, order, w.rows).0, w.rows, side, allowed);
        }
      }
    }
  }

  lemma StopNamedBy(rows: seq<AlgoOrder>, o: AlgoOrder, side: PositionSide)
    requires o in rows && WorkingStop(o, side)
    ensures StopNamed(rows, o.name, side)
  {
  }

  lemma NamedWorks(w: World, order: AlgoOrder, o: AlgoOrder)
    requires Sane(w) && order == NewStop(order.positionSide, order.trigger)
    requires o in w.rows && o.active && o.name == order.name
    ensures WorkingStop(o, order.positionSide) && o.trigger == order.trigger
  {
  }

  lemma CancelOthersContinues(w: World, order: AlgoOrder, start: seq<AlgoOrder>, listed: seq<AlgoOrder>,
                              cancelled: set<OrderName>, allowed: set<real>)
    requires Ready(w, start, order.positionSide, allowed) && (forall o :: o in listed ==> o in start)
    ensures var (v, ok) := CancelOthersRun(w, order, listed, cancelled);
            && Continues(w, v, start, order.positionSide, allowed)
            && (StopNamed(w.rows, order.name, order.positionSide) ==>
                  StopNamed(v.rows, order.name, order.positionSide)
                  && Gaps(v.trace, order.positionSide) <= Gaps(w.trace, order.positionSide))
            && v.misplaced == w.misplaced && v.swaps == w.swaps && v.lastMark == w.lastMark
            && (NameEnded(v.rows, order.name) ==> NameEnded(w.rows, order.name))
    decreases |listed|
  {
    hide Sane, Evolved, UniqueNames, StopNamed, HasStop, NameActive, NameEnded, AllEvolved, CancelRun, Gaps, WorkingStop;
    var side := order.positionSide;
    QuietContinues(w, w, start, side, allowed);
    if listed != [] {
      if !ToCancel(listed[0], order, cancelled) {
        CancelOthersContinues(w, order, start, listed[1..], cancelled, allowed);
      } else {
        CancelContinues(w, listed[0], side, start, allowed);
        var (after, ok) := CancelRun(w, listed[0].name);
        NamedHasStop(after.rows, order.name, side);
        if ok {
          CancelOthersContinues(after, order, start, listed[1..], cancelled, allowed);
          ContinuesTrans(w, after, CancelOthersRun(after, order, listed[1..], cancelled).0, start, side, allowed);
        }
      }
    }
  }

  predicate SoleStopAt(rows: seq<AlgoOrder>, side: PositionSide, trigger: real) {
    var working := WorkingStops(rows, side);
    |working| == 1 && working[0].trigger == trigger
  }

  /** The last look accepts only the new stop, working alone. */
  lemma ConfirmMeans(w: World, order: AlgoOrder, placed: AlgoOrder)
    requires Sane(w) && order == NewStop(order.positionSide, order.trigger)
    ensures var (v, r) := ConfirmRun(w, order, placed);
            && v == Asked(w)
            && (r.Ok? ==> SoleStopAt(w.rows, order.positionSide, order.trigger))
            && (r.Err? ==> r.error != RollbackFailed)
  {
    var working := WorkingStops(w.rows, order.positionSide);
    if |working| == 1 && working[0].name == order.name {
      assert working[0] in working;
      NamedWorks(w, order, working[0]);
    }
  }

  ghost function RecordedStop(rows: seq<AlgoOrder>, position: Holding): (o: AlgoOrder)
    requires HasStopAt(rows, position.side, position.stop)
    ensures o in rows && WorkingStop(o, position.side) && o.trigger == position.stop
  {
    var i :| 0 <= i < |rows| && WorkingStop(rows[i], position.side) && rows[i].trigger == position.stop;
    rows[i]
  }

  lemma RecordedIsOther(w: World, position: Holding, target: real)
    requires Sane(w) && HasStopAt(w.rows, position.side, position.stop) && target != position.stop
    ensures RecordedStop(w.rows, position).name != NewStop(position.side, target).name
    ensures Replacement(NewStop(position.side, target), RecordedStop(w.rows, position), {target, position.stop})
  {
  }

  /** What a replacement guarantees, whatever the exchange does. */
  ghost predicate SafelyTightened(w: World, v: World, r: Result<AlgoOrder, AlgoError>, position: Holding, target: real) {
    var side := position.side;
    // Every state: orders other than this side's stops are untouched, stops are added only at the two triggers.
    && Continues(w, v, w.rows, side, {target, position.stop})
    && (!v.misplaced ==> Gaps(v.trace, side) - Gaps(w.trace, side) <= v.swaps - w.swaps)
    && v.swaps - w.swaps <= 1
    && (r.Ok? ==> && SoleStopAt(v.rows, side, target)
                  && Tighter(side, target, position.stop) && Tighter(side, v.lastMark, target))
    && (r.Err? ==> Secured(v, r, side))
    && (v.misplaced && !w.misplaced ==> Vulnerable(w.rows, NewStop(side, target)))
    // No order of the new name ends, unless one that worked before is cancelled first.
    && var name := NewStop(side, target).name;
    && (NameEnded(v.rows, name) ==> NameEnded(w.rows, name) || NameActive(w.rows, name))
    && (!Tighter(side, target, position.stop) ==> r == Err(DoesNotTighten) && v == w)
  }

  lemma ReplaceIsSafe(w: World, position: Holding, target: real)
    requires Sane(w) && HasStopAt(w.rows, position.side, position.stop)
    requires Tighter(position.side, target, position.stop) && Tighter(position.side, w.lastMark, target)
    ensures var (v, r) := ReplaceRun(w, NewStop(position.side, target), w.rows); SafelyTightened(w, v, r, position, target)
  {
    hide Sane, Evolved, UniqueNames, StopNamed, HasStop, HasStopAt, NameActive, NameEnded, AllEvolved, Gaps, WorkingStop,
         PlaceRun, CancelOthersRun, ConfirmRun, Vulnerable, SoleStopAt;
    var side, order, allowed := position.side, NewStop(position.side, target), {target, position.stop};
    SaneStarts(w, side, allowed);
    RecordedIsOther(w, position, target);
    PlaceConcludes(w, RecordedStop(w.rows, position), order, allowed);
    var (placed, r, cancelled) := PlaceRun(w, order, w.rows);
    if r.Ok? {
      CancelOthersContinues(placed, order, w.rows, w.rows, cancelled, allowed);
      var (cleared, ok) := CancelOthersRun(placed, order, w.rows, cancelled);
      ContinuesTrans(w, placed, cleared, w.rows, side, allowed);
      NamedHasStop(cleared.rows, order.name, side);
      ConfirmMeans(cleared, order, r.value);
      var confirmed := ConfirmRun(cleared, order, r.value).0;
      QuietContinues(cleared, confirmed, w.rows, side, allowed);
      ContinuesTrans(w, cleared, confirmed, w.rows, side, allowed);
    }
  }

  lemma SaneStarts(w: World, side: PositionSide, allowed: set<real>)
    requires Sane(w)
    ensures Ready(w, w.rows, side, allowed)
  {
  }

  lemma StopLeft(w: World, position: Holding)
    requires HasStopAt(w.rows, position.side, position.stop)
    ensures HasStop(w.rows, position.side)
  {
  }

  /**
    Replacing the recorded stop: success means exactly one working stop, the new one, tighter than
    the recorded one and safe against the mark last read; failure leaves a stop working, short of
    a failed rollback, a lost cancellation, or a stop placed in name only.
   */
  lemma TightenIsSafe(w: World, tick: real, position: Holding, proposed: real)
    requires tick > 0.0 && Sane(w) && HasStopAt(w.rows, position.side, position.stop)
    ensures var (v, r) := TightenRun(w, tick, position, proposed);
            SafelyTightened(w, v, r, position, RoundedStop(position.side, proposed, tick))
  {
    hide Sane, Evolved, UniqueNames, HasStop, HasStopAt, AllEvolved, Gaps, ReplaceRun, Vulnerable, SoleStopAt, RoundedStop;
    var side, target := position.side, RoundedStop(position.side, proposed, tick);
    var allowed := {target, position.stop};
    SaneStarts(w, side, allowed);
    StopLeft(w, position);
    var marked := MarkRun(w).0;
    var listed := ListRun(marked).0;
    QuietContinues(w, w, w.rows, side, allowed);
    QuietContinues(w, marked, w.rows, side, allowed);
    QuietContinues(w, listed, w.rows, side, allowed);
    if Tighter(side, target, position.stop) && Tighter(side, listed.lastMark, target) {
      SaneSame(w, listed);
      ReplaceIsSafe(listed, position, target);
      ContinuesTrans(w, listed, ReplaceRun(listed, NewStop(side, target), listed.rows).0, w.rows, side, allowed);
    }
  }

  lemma SaneSame(w: World, v: World)
    requires Sane(w) && v.rows == w.rows && v.clock == w.clock
    ensures Sane(v)
  {
  }

  // ----- When a replacement can lose the stop -----

  /** The run ends without a stop although no cancellation was lost and no rollback failed. */
  predicate Exposes(w: World, tick: real, position: Holding, proposed: real)
    requires tick > 0.0
  {
    var (v, r) := TightenRun(w, tick, position, proposed);
    !HasStop(v.rows, position.side) && !v.lostCancel && r != Err(RollbackFailed)
  }

  /** What is left of `rows` once some working orders have ended. */
  predicate Thinned(rows: seq<AlgoOrder>, after: seq<AlgoOrder>, gone: set<OrderName>) {
    && |after| == |rows|
    && forall i :: 0 <= i < |rows| ==>
                     && after[i].name == rows[i].name && (after[i].active ==> after[i] == rows[i])
                     && (rows[i].name in gone ==> !after[i].active)
  }

  lemma CancelThins(rows: seq<AlgoOrder>, after: seq<AlgoOrder>, gone: set<OrderName>, name: OrderName)
    requires Thinned(rows, after, gone)
    ensures Thinned(rows, Deactivate(after, name), gone + {name})
  {
  }

  lemma ThinnedLater(rows: seq<AlgoOrder>, after: seq<AlgoOrder>, gone: set<OrderName>, fewer: set<OrderName>)
    requires Thinned(rows, after, gone) && fewer <= gone
    ensures Thinned(rows, after, fewer)
  {
  }

  /** A submission that has no effect and is looked up finds the order that ended. */
  lemma StaleSubmit(w: World, order: AlgoOrder, k: nat)
    requires k < |w.rows| && w.rows[k].name == order.name && !NameActive(w.rows, order.name)
    requires NextReply(w.replies) == Stale(k)
    ensures SubmitRun(w, order) == (Asked(w).(misplaced := true), Ok(w.rows[k]))
  {
  }

  function Stale(k: nat): Reply {
    Reply(true, false, false, 0.0, k)
  }

  /** With an exchange that answers and obeys, the stops still to be cancelled all end. */
  lemma CalmClears(w: World, order: AlgoOrder, listed: seq<AlgoOrder>, cancelled: set<OrderName>,
                   existing: seq<AlgoOrder>, gone: set<OrderName>)
    requires w.replies == [] && Thinned(existing, w.rows, gone)
    ensures var (v, ok) := CancelOthersRun(w, order, listed, cancelled);
            && ok && v.replies == [] && v.lostCancel == w.lostCancel
            && Thinned(existing, v.rows, gone)
            && forall o :: o in listed && ToCancel(o, order, cancelled) ==> Thinned(existing, v.rows, {o.name})
    decreases |listed|
  {
    hide Thinned, ToCancel;
    if listed != [] {
      if !ToCancel(listed[0], order, cancelled) {
        CalmClears(w, order, listed[1..], cancelled, existing, gone);
      } else {
        var after := CancelRun(w, listed[0].name).0;
        CancelThins(existing, w.rows, gone, listed[0].name);
        var more := gone + {listed[0].name};
        CalmClears(after, order, listed[1..], cancelled, existing, more);
        var v := CancelOthersRun(w, order, listed, cancelled).0;
        ThinnedLater(existing, v.rows, more, gone);
        ThinnedLater(existing, v.rows, more, {listed[0].name});
      }
      assert listed == [listed[0]] + listed[1..];
    }
  }

  /** Once the name counts as placed without working, the rest of the protocol cancels every stop. */
  lemma MisplacedExposes(w: World, order: AlgoOrder, existing: seq<AlgoOrder>, cancelled: set<OrderName>, placed: AlgoOrder)
    requires w.replies == [] && !w.lostCancel && Thinned(existing, w.rows, cancelled + {order.name})
    ensures var (cleared, ok) := CancelOthersRun(w, order, existing, cancelled);
            && ok && !HasStop(cleared.rows, order.positionSide) && !cleared.lostCancel
            && ConfirmRun(cleared, order, placed) == (Asked(cleared), Err(ReplacementInvariant))
  {
    CalmClears(w, order, existing, cancelled, existing, cancelled + {order.name});
    var cleared := CancelOthersRun(w, order, existing, cancelled).0;
    forall i | 0 <= i < |cleared.rows|
      ensures !WorkingStop(cleared.rows[i], order.positionSide)
    {
      assert existing[i] in existing;
      if WorkingStop(cleared.rows[i], order.positionSide) {
        assert ToCancel(existing[i], order, cancelled);
      }
    }
    NoWorkingStops(cleared.rows, order.positionSide);
  }

  lemma NoWorkingStops(rows: seq<AlgoOrder>, side: PositionSide)
    ensures WorkingStops(rows, side) != [] ==> HasStop(rows, side)
  {
    var working := WorkingStops(rows, side);
    if working != [] {
      assert working[0] in working;
    }
  }

  lemma SoleIsStop(rows: seq<AlgoOrder>, side: PositionSide, trigger: real)
    requires SoleStopAt(rows, side, trigger)
    ensures HasStop(rows, side) && NoneLooser(rows, side, trigger)
  {
    var working := WorkingStops(rows, side);
    assert working[0] in working;
    forall i | 0 <= i < |rows| && WorkingStop(rows[i], side)
      ensures rows[i].trigger == trigger
    {
      assert rows[i] in working;
    }
  }

  /** Whichever path places the stop, the exchange can answer so that it is placed in name only. */
  lemma SubmitOrFallBackCanMisplace(w: World, order: AlgoOrder, existing: seq<AlgoOrder>, k: nat, price: real)
    returns (script: seq<Reply>)
    requires Thinned(existing, w.rows, {order.name}) && !w.lostCancel
    requires k < |w.rows| && w.rows[k].name == order.name
    requires Tighter(order.positionSide, price, order.trigger)
    ensures var (v, r, cancelled) := SubmitOrFallBackRun(w.(replies := script), order, existing);
            r.Ok? && v.replies == [] && !v.lostCancel && Thinned(existing, v.rows, cancelled + {order.name})
  {
    var side, others := order.positionSide, OtherStops(existing, order.positionSide, order.name);
    if side in w.cancelFirst && |others| == 1 {
      script := [CALM, Answer(price), Stale(k)];
      var asked := w.(replies := script, swaps := w.swaps + 1);
      var cancelled := CancelRun(asked, others[0].name).0;
      CancelThins(existing, w.rows, {order.name}, others[0].name);
      var marked := MarkRun(cancelled).0;
      assert marked.replies == [Stale(k)];
      StaleSubmit(marked, order, k);
      assert {order.name} + {others[0].name} == {others[0].name} + {order.name};
    } else {
      script := [Stale(k)];
      StaleSubmit(w.(replies := script), order, k);
      assert {} + {order.name} == {order.name};
    }
  }

  function Answer(price: real): Reply {
    Reply(true, true, false, price, 0)
  }

  lemma PlaceCanMisplace(w: World, order: AlgoOrder, price: real) returns (script: seq<Reply>)
    requires !w.lostCancel && Vulnerable(w.rows, order) && Tighter(order.positionSide, price, order.trigger)
    ensures var (v, r, cancelled) := PlaceRun(w.(replies := script), order, w.rows);
            r.Ok? && v.replies == [] && !v.lostCancel && Thinned(w.rows, v.rows, cancelled + {order.name})
  {
    hide SubmitOrFallBackRun;
    var current := FindNamed(w.rows, order.name);
    if current.Some? {
      var k :| 0 <= k < |w.rows| && w.rows[k] == current.value;
      CancelThins(w.rows, w.rows, {}, order.name);
      var cancelled := w.(rows := Deactivate(w.rows, order.name), trace := w.trace + [Deactivate(w.rows, order.name)]);
      assert {} + {order.name} == {order.name};
      var rest := SubmitOrFallBackCanMisplace(cancelled, order, w.rows, k, price);
      script := [CALM] + rest;
      assert CancelRun(w.(replies := script), order.name) == (cancelled.(replies := rest), true);
      var (v, _, names) := SubmitOrFallBackRun(cancelled.(replies := rest), order, w.rows);
      assert names + {order.name} + {order.name} == names + {order.name};
    } else {
      var k :| 0 <= k < |w.rows| && !w.rows[k].active && w.rows[k].name == order.name;
      script := SubmitOrFallBackCanMisplace(w, order, w.rows, k, price);
    }
  }

  lemma CanExpose(w: World, tick: real, position: Holding, proposed: real) returns (script: seq<Reply>)
    requires tick > 0.0 && !w.lostCancel
    requires var target := RoundedStop(position.side, proposed, tick);
             Tighter(position.side, target, position.stop) && Vulnerable(w.rows, NewStop(position.side, target))
    ensures Exposes(w.(replies := script), tick, position, proposed)
  {
    hide RoundedStop, Vulnerable, PlaceRun, CancelOthersRun, ConfirmRun, HasStop, Thinned;
    var side, target := position.side, RoundedStop(position.side, proposed, tick);
    var order := NewStop(side, target);
    var price := target + Direction(side);
    var asked := w.(lastMark := price);
    var rest := PlaceCanMisplace(asked, order, price);
    script := [Answer(price), CALM] + rest;
    var marked := MarkRun(w.(replies := script)).0;
    assert marked == asked.(replies := [CALM] + rest);
    var listed := ListRun(marked).0;
    assert listed == asked.(replies := rest);
    var (placed, r, cancelled) := PlaceRun(listed, order, w.rows);
    MisplacedExposes(placed, order, w.rows, cancelled, r.value);
  }

  /**
    Exactly when the exchange can bring a replacement to lose the stop without losing a
    cancellation or refusing a rollback: the new trigger is tighter, and an order of its name
    works with other parameters or, if none works, ended before.
   */
  lemma ExposedIff(w: World, tick: real, position: Holding, proposed: real)
    requires tick > 0.0 && Sane(w) && HasStopAt(w.rows, position.side, position.stop) && !w.lostCancel && !w.misplaced
    ensures var target := RoundedStop(position.side, proposed, tick);
            (exists script :: Exposes(w.(replies := script), tick, position, proposed))
            <==> Tighter(position.side, target, position.stop) && Vulnerable(w.rows, NewStop(position.side, target))
  {
    hide TightenRun, RoundedStop, Vulnerable, HasStopAt, Evolved, Gaps, SoleStopAt;
    var target := RoundedStop(position.side, proposed, tick);
    forall script | Exposes(w.(replies := script), tick, position, proposed)
      ensures Tighter(position.side, target, position.stop) && Vulnerable(w.rows, NewStop(position.side, target))
    {
      TightenIsSafe(w.(replies := script), tick, position, proposed);
      StopLeft(w, position);
      var (v, r) := TightenRun(w.(replies := script), tick, position, proposed);
      if r.Ok? {
        SoleIsStop(v.rows, position.side, target);
      }
    }
    if Tighter(position.side, target, position.stop) && Vulnerable(w.rows, NewStop(position.side, target)) {
      var script := CanExpose(w, tick, position, proposed);
    }
  }

  /** A stop at 99 works, one at 100.1 of the same side ended long ago; the mark is 102 and 100.1 is proposed. */
  function OldNameWorld(replies: seq<Reply>, cancelFirst: set<PositionSide>): World {
    var rows := [StopOrder(Long, 99.0, HardStop(1, 99.0)), NewStop(Long, 100.1).(active := false)];
    World(rows, replies, 0.0, [], false, cancelFirst, 0, false, 0)
  }

  lemma RoundedWitness()
    ensures RoundedStop(Long, 100.1, 0.1) == 100.1
  {
    assert 100.1 / 0.1 == 1001.0;
  }

  /** An input that exposes: the submission has no effect, and its name is looked up on the old order. */
  lemma EndedNameExposes()
    ensures var w := OldNameWorld([Answer(102.0), CALM, Stale(1)], {});
            && Sane(w) && HasStopAt(w.rows, Long, 99.0)
            && TightenRun(w, 0.1, Holding(Long, 99.0), 100.1).1 == Err(ReplacementInvariant)
            && Exposes(w, 0.1, Holding(Long, 99.0), 100.1)
  {
    RoundedWitness();
    hide CancelOthersRun, ConfirmRun;
    var w := OldNameWorld([Answer(102.0), CALM, Stale(1)], {});
    var order, rows := NewStop(Long, 100.1), w.rows;
    assert rows[0] == StopOrder(Long, 99.0, HardStop(1, 99.0));
    var marked := MarkRun(w).0;
    var listed := ListRun(marked).0;
    assert listed == w.(replies := [Stale(1)], lastMark := 102.0);
    StaleSubmit(listed, order, 1);
    assert Asked(listed) == listed.(replies := []);
    assert FindNamed(rows, order.name).None?;
    assert PlaceRun(listed, order, rows) == (listed.(replies := [], misplaced := true), Ok(rows[1]), {});
    MisplacedExposes(listed.(replies := [], misplaced := true), order, rows, {}, rows[1]);
  }

  /**
    A cancel-first replacement reports a failed cancellation exactly when the request is not
    answered, and then puts nothing back: a stop is left exactly if the cancellation had no effect
    or another stop works.
   */
  lemma CancelFailedLeaves(w: World, previous: AlgoOrder, order: AlgoOrder)
    requires HasStop(w.rows, order.positionSide)
    ensures var (v, r) := CancelThenCreateRun(w, previous, order);
            && (r == Err(CancelFailed) <==> !NextReply(w.replies).answered)
            && (r == Err(CancelFailed) ==>
                  (HasStop(v.rows, order.positionSide) <==>
                   || !NextReply(w.replies).effective
                   || exists o :: o in w.rows && WorkingStop(o, order.positionSide) && o.name != previous.name))
  {
    var (v, r) := CancelThenCreateRun(w, previous, order);
    if !NextReply(w.replies).answered && NextReply(w.replies).effective {
      forall o | o in w.rows && WorkingStop(o, order.positionSide) && o.name != previous.name
        ensures HasStop(v.rows, order.positionSide)
      {
        var i :| 0 <= i < |w.rows| && w.rows[i] == o;
        assert v.rows[i] == o;
      }
      forall i | 0 <= i < |v.rows| && WorkingStop(v.rows[i], order.positionSide)
        ensures exists o :: o in w.rows && WorkingStop(o, order.positionSide) && o.name != previous.name
      {
        assert w.rows[i] in w.rows;
      }
    }
  }

  /** An input on which such a replacement leaves no stop, although no rollback failed. */
  lemma LostCancellationExposes()
    ensures var w := OldNameWorld([Answer(102.0), CALM, Reply(false, true, false, 0.0, 0)], {Long});
            var (v, r) := TightenRun(w, 0.1, Holding(Long, 99.0), 100.1);
            && Sane(w) && HasStopAt(w.rows, Long, 99.0)
            && r == Err(CancelFailed) && !HasStop(v.rows, Long) && v.lostCancel && !v.misplaced
  {
    RoundedWitness();
    var w := OldNameWorld([Answer(102.0), CALM, Reply(false, true, false, 0.0, 0)], {Long});
    var order, rows := NewStop(Long, 100.1), w.rows;
    assert rows[0] == StopOrder(Long, 99.0, HardStop(1, 99.0));
    var marked := MarkRun(w).0;
    var listed := ListRun(marked).0;
    assert listed == w.(replies := [Reply(false, true, false, 0.0, 0)], lastMark := 102.0);
    assert OtherStops(rows, Long, order.name) == [rows[0]] by {
      assert rows[1..] == [rows[1]];
      assert OtherStops([rows[1]], Long, order.name) == [];
    }
    assert ReplaceRun(listed, order, rows).1 == Err(CancelFailed);
  }

  // ----- When a replacement succeeds -----

  /** Every request is answered and takes effect, and every mark is on the safe side of the new trigger. */
  predicate Obliging(replies: seq<Reply>, side: PositionSide, target: real) {
    forall i :: 0 <= i < |replies| ==> Obliges(replies[i], side, target)
  }

  predicate Obliges(r: Reply, side: PositionSide, target: real) {
    r.answered && r.effective && Tighter(side, r.price, target)
  }

  lemma ObligingNext(replies: seq<Reply>, side: PositionSide, target: real)
    requires Obliging(replies, side, target)
    ensures NextReply(replies).answered && NextReply(replies).effective && Obliging(Rest(replies), side, target)
    ensures replies != [] ==> Tighter(side, NextReply(replies).price, target)
  {
  }

  /** Working orders not called `name` were there before, and none of the `gone` works. */
  predicate OnlyBefore(existing: seq<AlgoOrder>, rows: seq<AlgoOrder>, name: OrderName, gone: set<OrderName>) {
    forall i :: 0 <= i < |rows| && rows[i].active && rows[i].name != name ==> rows[i] in existing && rows[i].name !in gone
  }

  lemma CancelOnly(existing: seq<AlgoOrder>, rows: seq<AlgoOrder>, name: OrderName, gone: set<OrderName>, other: OrderName)
    requires OnlyBefore(existing, rows, name, gone)
    ensures OnlyBefore(existing, Deactivate(rows, other), name, gone + {other})
    ensures name != other && NameActive(rows, name) ==> NameActive(Deactivate(rows, other), name)
  {
    if name != other && NameActive(rows, name) {
      var i :| 0 <= i < |rows| && rows[i].active && rows[i].name == name;
      assert Deactivate(rows, other)[i] == rows[i];
    }
  }

  /** What a submission that goes through leaves. */
  predicate Submitted(w: World, v: World, r: Result<AlgoOrder, AlgoError>, order: AlgoOrder) {
    && r.Ok? && r.value.name == order.name && r.value in v.rows && NameActive(v.rows, order.name)
    && (!NameActive(w.rows, order.name) && !NameEnded(w.rows, order.name) ==> r.value == order)
    && v.rows == (if NameActive(w.rows, order.name) then w.rows else w.rows + [order])
    && v.replies == Rest(w.replies) && v.swaps == w.swaps && v.cancelFirst == w.cancelFirst
  }

  lemma SubmitGoesThrough(w: World, order: AlgoOrder)
    requires order.active && NextReply(w.replies).answered && NextReply(w.replies).effective
    ensures var (v, r) := SubmitRun(w, order); Submitted(w, v, r, order)
  {
    var (v, _) := SubmitRun(w, order);
    if !NameActive(w.rows, order.name) {
      assert v.rows[|w.rows|] == order;
    }
  }

  lemma SubmitOnly(existing: seq<AlgoOrder>, rows: seq<AlgoOrder>, order: AlgoOrder, gone: set<OrderName>)
    requires OnlyBefore(existing, rows, order.name, gone)
    ensures OnlyBefore(existing, rows + [order], order.name, gone)
  {
  }

  /**
    The new stop is placed: an order of its name works and is handed back, what else works was there
    before, and what was cancelled on the way does not work.
   */
  predicate Placed(existing: seq<AlgoOrder>, v: World, r: Result<AlgoOrder, AlgoError>, cancelled: set<OrderName>,
                   order: AlgoOrder) {
    && r.Ok? && r.value.name == order.name && NameActive(v.rows, order.name)
    && OnlyBefore(existing, v.rows, order.name, cancelled)
    && Obliging(v.replies, order.positionSide, order.trigger)
    && (!NameActive(existing, order.name) && !NameEnded(existing, order.name) ==> r.value == order)
  }

  /** Nobody has borne the name so far. */
  predicate Unused(rows: seq<AlgoOrder>, name: OrderName) {
    !NameActive(rows, name) && !NameEnded(rows, name)
  }

  lemma CancelKeepsUnused(rows: seq<AlgoOrder>, other: OrderName, name: OrderName)
    ensures Unused(rows, name) ==> Unused(Deactivate(rows, other), name)
  {
    var after := Deactivate(rows, other);
    if i :| 0 <= i < |after| && after[i].name == name {
      assert rows[i].name == name;
    }
  }

  /** The old stop is cancelled, the mark is safe, the new stop goes in. */
  lemma CancelThenCreateGoesThrough(w: World, previous: AlgoOrder, order: AlgoOrder, existing: seq<AlgoOrder>,
                                    gone: set<OrderName>)
    requires order.active && previous.name != order.name && |w.replies| >= 2
    requires Obliging(w.replies, order.positionSide, order.trigger)
    requires OnlyBefore(existing, w.rows, order.name, gone)
    requires Unused(existing, order.name) ==> Unused(w.rows, order.name)
    ensures var (v, r) := CancelThenCreateRun(w, previous, order);
            Placed(existing, v, r, gone + {previous.name}, order) && v.swaps == w.swaps + 1
  {
    hide OnlyBefore, NameActive, NameEnded, Obliging, SubmitRun, Tighter;
    var side := order.positionSide;
    ObligingNext(w.replies, side, order.trigger);
    CancelOnly(existing, w.rows, order.name, gone, previous.name);
    CancelKeepsUnused(w.rows, previous.name, order.name);
    var cancelled := CancelRun(w.(swaps := w.swaps + 1), previous.name).0;
    ObligingNext(cancelled.replies, side, order.trigger);
    var marked := MarkRun(cancelled).0;
    ObligingNext(marked.replies, side, order.trigger);
    SubmitGoesThrough(marked, order);
    SubmitOnly(existing, marked.rows, order, gone + {previous.name});
  }

  lemma SubmitOrFallBackGoesThrough(w: World, order: AlgoOrder, existing: seq<AlgoOrder>, gone: set<OrderName>)
    requires order.active && |w.replies| >= 2 && Obliging(w.replies, order.positionSide, order.trigger)
    requires OnlyBefore(existing, w.rows, order.name, gone)
    requires Unused(existing, order.name) ==> Unused(w.rows, order.name)
    ensures var (v, r, cancelled) := SubmitOrFallBackRun(w, order, existing);
            var first := order.positionSide in w.cancelFirst && |OtherStops(existing, order.positionSide, order.name)| == 1;
            Placed(existing, v, r, gone + cancelled, order) && v.swaps == w.swaps + (if first then 1 else 0)
  {
    hide OnlyBefore, NameActive, NameEnded, Obliging, SubmitRun, OtherStops, CancelThenCreateRun;
    var side, others := order.positionSide, OtherStops(existing, order.positionSide, order.name);
    if side in w.cancelFirst && |others| == 1 {
      OthersDiffer(existing, side, order.name);
      CancelThenCreateGoesThrough(w, others[0], order, existing, gone);
    } else {
      ObligingNext(w.replies, side, order.trigger);
      SubmitGoesThrough(w, order);
      SubmitOnly(existing, w.rows, order, gone);
      assert gone + {} == gone;
    }
  }

  lemma OthersDiffer(existing: seq<AlgoOrder>, side: PositionSide, name: OrderName)
    ensures var others := OtherStops(existing, side, name); |others| > 0 ==> others[0].name != name
  {
    var others := OtherStops(existing, side, name);
    if |others| > 0 {
      assert others[0] in others;
    }
  }

  lemma PlaceGoesThrough(w: World, order: AlgoOrder)
    requires order.active && |w.replies| >= 3 && Obliging(w.replies, order.positionSide, order.trigger)
    ensures var (v, r, cancelled) := PlaceRun(w, order, w.rows); Placed(w.rows, v, r, cancelled, order)
  {
    hide NameActive, NameEnded, Obliging, SubmitOrFallBackRun, Matches;
    var current := FindNamed(w.rows, order.name);
    if current.None? {
      SubmitOrFallBackGoesThrough(w, order, w.rows, {});
      var (_, _, cancelled) := SubmitOrFallBackRun(w, order, w.rows);
      assert {} + cancelled == cancelled;
    } else if !Matches(current.value, order) {
      ObligingNext(w.replies, order.positionSide, order.trigger);
      CancelOnly(w.rows, w.rows, order.name, {}, order.name);
      var dropped := CancelRun(w, order.name).0;
      SubmitOrFallBackGoesThrough(dropped, order, w.rows, {} + {order.name});
      var (_, _, cancelled) := SubmitOrFallBackRun(dropped, order, w.rows);
      assert {} + {order.name} + cancelled == cancelled + {order.name};
    }
  }

  /** The other stops are cancelled one by one. */
  lemma CancelOthersGoesThrough(w: World, order: AlgoOrder, existing: seq<AlgoOrder>, listed: seq<AlgoOrder>,
                                cancelled: set<OrderName>, gone: set<OrderName>)
    requires Obliging(w.replies, order.positionSide, order.trigger)
    requires OnlyBefore(existing, w.rows, order.name, gone) && NameActive(w.rows, order.name)
    ensures var (v, ok) := CancelOthersRun(w, order, listed, cancelled);
            && ok && Obliging(v.replies, order.positionSide, order.trigger) && NameActive(v.rows, order.name)
            && OnlyBefore(existing, v.rows, order.name, gone)
            && forall o :: o in listed && ToCancel(o, order, cancelled) ==> OnlyBefore(existing, v.rows, order.name, {o.name})
    decreases |listed|
  {
    hide OnlyBefore, NameActive, Obliging;
    if listed != [] {
      if ToCancel(listed[0], order, cancelled) {
        var name := listed[0].name;
        ObligingNext(w.replies, order.positionSide, order.trigger);
        CancelOnly(existing, w.rows, order.name, gone, name);
        var after := CancelRun(w, name).0;
        CancelOthersGoesThrough(after, order, existing, listed[1..], cancelled, gone + {name});
        var v := CancelOthersRun(w, order, listed, cancelled).0;
        FewerOnly(existing, v.rows, order.name, gone + {name}, gone);
        FewerOnly(existing, v.rows, order.name, gone + {name}, {name});
      } else {
        CancelOthersGoesThrough(w, order, existing, listed[1..], cancelled, gone);
      }
      assert listed == [listed[0]] + listed[1..];
    }
  }

  lemma FewerOnly(existing: seq<AlgoOrder>, rows: seq<AlgoOrder>, name: OrderName, gone: set<OrderName>, fewer: set<OrderName>)
    requires OnlyBefore(existing, rows, name, gone) && fewer <= gone
    ensures OnlyBefore(existing, rows, name, fewer)
  {
  }

  /** After that no stop is left but the new one. */
  lemma OnlyNewWorks(w: World, order: AlgoOrder, existing: seq<AlgoOrder>, cancelled: set<OrderName>)
    requires Obliging(w.replies, order.positionSide, order.trigger)
    requires OnlyBefore(existing, w.rows, order.name, cancelled) && NameActive(w.rows, order.name)
    ensures var (v, ok) := CancelOthersRun(w, order, existing, cancelled);
            && ok && Obliging(v.replies, order.positionSide, order.trigger) && NameActive(v.rows, order.name)
            && forall i :: 0 <= i < |v.rows| && WorkingStop(v.rows[i], order.positionSide) ==> v.rows[i].name == order.name
  {
    hide NameActive, Obliging;
    CancelOthersGoesThrough(w, order, existing, existing, cancelled, cancelled);
    var v := CancelOthersRun(w, order, existing, cancelled).0;
    forall i | 0 <= i < |v.rows| && WorkingStop(v.rows[i], order.positionSide)
      ensures v.rows[i].name == order.name
    {
      var o := v.rows[i];
      assert o.name != order.name && o in existing && o.name !in cancelled ==> ToCancel(o, order, cancelled);
    }
  }

  lemma {:induction false} SoleByName(rows: seq<AlgoOrder>, side: PositionSide, name: OrderName)
    requires UniqueNames(rows)
    requires forall i :: 0 <= i < |rows| && WorkingStop(rows[i], side) ==> rows[i].name == name
    ensures |WorkingStops(rows, side)| <= 1
    ensures HasStop(rows, side) ==> |WorkingStops(rows, side)| == 1 && WorkingStops(rows, side)[0].name == name
  {
    if rows != [] {
      var rest := rows[1..];
      assert forall i :: 0 <= i < |rest| ==> rest[i] == rows[i + 1];
      SoleByName(rest, side, name);
      if WorkingStop(rows[0], side) {
        assert !HasStop(rest, side);
        NoWorkingStops(rest, side);
      } else if HasStop(rows, side) {
        var k :| 0 <= k < |rows| && WorkingStop(rows[k], side);
        assert rest[k - 1] == rows[k];
      }
    }
  }

  /** The last look accepts. */
  lemma ConfirmGoesThrough(w: World, order: AlgoOrder, placed: AlgoOrder)
    requires Sane(w) && order == NewStop(order.positionSide, order.trigger) && NameActive(w.rows, order.name)
    requires Obliging(w.replies, order.positionSide, order.trigger)
    requires forall i :: 0 <= i < |w.rows| && WorkingStop(w.rows[i], order.positionSide) ==> w.rows[i].name == order.name
    ensures ConfirmRun(w, order, placed) == (Asked(w), Ok(placed))
  {
    ObligingNext(w.replies, order.positionSide, order.trigger);
    ActiveIsStop(w, order);
    NamedHasStop(w.rows, order.name, order.positionSide);
    SoleByName(w.rows, order.positionSide, order.name);
    hide Sane;
  }

  /** Once the new stop is placed, the rest goes through. */
  lemma PlacedGoesThrough(w: World, order: AlgoOrder, position: Holding)
    requires Sane(w) && HasStopAt(w.rows, position.side, position.stop)
    requires order == NewStop(position.side, order.trigger) && Tighter(position.side, order.trigger, position.stop)
    requires Tighter(position.side, w.lastMark, order.trigger)
    requires var (v, r, cancelled) := PlaceRun(w, order, w.rows); Placed(w.rows, v, r, cancelled, order)
    ensures var (v, r, _) := PlaceRun(w, order, w.rows); ReplaceRun(w, order, w.rows).1 == Ok(r.value)
  {
    hide Sane, NameActive, Obliging, OnlyBefore, PlaceRun, CancelOthersRun, ConfirmRun, WorkingStop, HasStopAt, Evolved, Gaps;
    var side, allowed := position.side, {order.trigger, position.stop};
    SaneStarts(w, side, allowed);
    RecordedIsOther(w, position, order.trigger);
    PlaceConcludes(w, RecordedStop(w.rows, position), order, allowed);
    var (placed, r, cancelled) := PlaceRun(w, order, w.rows);
    CancelOthersContinues(placed, order, w.rows, w.rows, cancelled, allowed);
    OnlyNewWorks(placed, order, w.rows, cancelled);
    var cleared := CancelOthersRun(placed, order, w.rows, cancelled).0;
    ConfirmGoesThrough(cleared, order, r.value);
  }

  /**
    With an obliging exchange a replacement by a tighter trigger succeeds, whatever stops work and
    whichever way it goes: the new stop is the only one, and it is the one handed back.
   */
  lemma TightenSucceeds(w: World, tick: real, position: Holding, proposed: real)
    requires tick > 0.0 && Sane(w) && HasStopAt(w.rows, position.side, position.stop)
    requires |w.replies| >= 5 && Obliging(w.replies, position.side, RoundedStop(position.side, proposed, tick))
    requires Tighter(position.side, RoundedStop(position.side, proposed, tick), position.stop)
    ensures var order := NewStop(position.side, RoundedStop(position.side, proposed, tick));
            var (v, r) := TightenRun(w, tick, position, proposed);
            && r.Ok? && r.value.name == order.name && SoleStopAt(v.rows, position.side, order.trigger)
            && Tighter(position.side, v.lastMark, order.trigger)
            && (Unused(w.rows, order.name) ==> r.value == order)
  {
    hide RoundedStop, Obliging, ReplaceRun, SoleStopAt, Sane, HasStopAt, Evolved, Gaps, Vulnerable, Tighter;
    var order := NewStop(position.side, RoundedStop(position.side, proposed, tick));
    ObligingNext(w.replies, position.side, order.trigger);
    var marked := MarkRun(w).0;
    ObligingNext(marked.replies, position.side, order.trigger);
    var listed := ListRun(marked).0;
    SaneSame(w, listed);
    PlaceGoesThrough(listed, order);
    PlacedGoesThrough(listed, order, position);
    TightenIsSafe(w, tick, position, proposed);
  }

  /** A rollback fails exactly if its one submission has no effect or no answer; with effect the old trigger works. */
  lemma RollBackIff(w: World, previous: AlgoOrder, failure: AlgoError)
    requires Sane(w) && failure != RollbackFailed
    ensures var (v, r) := RollBackRun(w, previous, failure);
            var reply, restored := NextReply(w.replies), StopOrder(previous.positionSide, previous.trigger, Rollback(w.clock));
            && r == Err(if reply.answered && reply.effective then failure else RollbackFailed)
            && v.rows == if reply.effective then w.rows + [restored] else w.rows
  {
    FreshRollback(w);
    var restored := StopOrder(previous.positionSide, previous.trigger, Rollback(w.clock));
    if NextReply(w.replies).effective {
      assert (w.rows + [restored])[|w.rows|] == restored;
    }
  }

  /**
    After the old stop was cancelled, with both requests answered and carried out: the new one works if the
    mark is still on its safe side, and otherwise the old trigger does.
   */
  lemma CreateAnswered(w: World, previous: AlgoOrder, order: AlgoOrder)
    requires Sane(w) && |w.replies| >= 2 && w.replies[0].answered && w.replies[1].answered && w.replies[1].effective
    requires order.active && !NameActive(w.rows, order.name)
    ensures var (v, r) := CreateRun(w, previous, order);
            var restored := StopOrder(previous.positionSide, previous.trigger, Rollback(w.clock));
            if Tighter(order.positionSide, w.replies[0].price, order.trigger)
            then v.rows == w.rows + [order] && r.Ok? && r.value.name == order.name
            else v.rows == w.rows + [restored] && r == Err(WrongSideOfMark)
  {
    hide Tighter, RollBackRun, Sane;
    var marked := MarkRun(w).0;
    SaneSame(w, marked);
    RollBackIff(marked, previous, WrongSideOfMark);
    SubmitGoesThrough(marked, order);
  }

  /** The exchange refuses a second closing stop, and is obliging otherwise. */
  const CONFLICT := Reply(false, false, true, 0.0, 0)

  predicate ConflictThenObliging(replies: seq<Reply>, side: PositionSide, target: real) {
    && |replies| >= 5 && replies[2] == CONFLICT
    && Obliging(replies[..2], side, target) && Obliging(replies[3..], side, target)
  }

  /**
    When the exchange refuses a second closing stop, the one there is is cancelled first, and the
    replacement succeeds all the same.
   */
  lemma FallBackSucceeds(w: World, tick: real, position: Holding, proposed: real)
    requires tick > 0.0 && Sane(w) && HasStopAt(w.rows, position.side, position.stop)
    requires ConflictThenObliging(w.replies, position.side, RoundedStop(position.side, proposed, tick))
    requires Tighter(position.side, RoundedStop(position.side, proposed, tick), position.stop)
    requires var name := NewStop(position.side, RoundedStop(position.side, proposed, tick)).name;
             && Unused(w.rows, name) && position.side !in w.cancelFirst && |OtherStops(w.rows, position.side, name)| == 1
    ensures var order := NewStop(position.side, RoundedStop(position.side, proposed, tick));
            var (v, r) := TightenRun(w, tick, position, proposed);
            && r == Ok(order) && SoleStopAt(v.rows, position.side, order.trigger)
            && v.swaps == w.swaps + 1 && position.side in v.cancelFirst
  {
    hide RoundedStop, ReplaceRun, SoleStopAt, Sane, HasStopAt, Evolved, Gaps, Vulnerable, OtherStops, NameActive, NameEnded;
    var order := NewStop(position.side, RoundedStop(position.side, proposed, tick));
    var side := position.side;
    var marked := MarkRun(w).0;
    assert w.replies[..2][0] == w.replies[0] && w.replies[..2][1] == w.replies[1];
    var listed := ListRun(marked).0;
    assert listed.replies == w.replies[2..];
    SaneSame(w, listed);
    FallBackPlaces(listed, order);
    PlacedGoesThrough(listed, order, position);
    FallBackCounts(listed, order);
    TightenIsSafe(w, tick, position, proposed);
  }

  lemma FallBackPlaces(w: World, order: AlgoOrder)
    requires order.active && |w.replies| >= 3 && w.replies[0] == CONFLICT
    requires Obliging(w.replies[1..], order.positionSide, order.trigger)
    requires Unused(w.rows, order.name) && order.positionSide !in w.cancelFirst
    requires |OtherStops(w.rows, order.positionSide, order.name)| == 1
    ensures var (v, r, cancelled) := PlaceRun(w, order, w.rows);
            && Placed(w.rows, v, r, cancelled, order) && r.value == order
            && v.swaps == w.swaps + 1 && order.positionSide in v.cancelFirst
  {
    hide NameActive, NameEnded, Obliging, OtherStops, CancelThenCreateRun;
    var side, others := order.positionSide, OtherStops(w.rows, order.positionSide, order.name);
    OthersDiffer(w.rows, side, order.name);
    var refused, first := SubmitRun(w, order).0, SubmitRun(w, order).1;
    assert first == Err(SubmitFailed(true)) && refused == Asked(w);
    var known := refused.(cancelFirst := refused.cancelFirst + {side});
    CancelThenCreateGoesThrough(known, others[0], order, w.rows, {});
    CancelThenCreateKnows(known, others[0], order);
    assert {} + {others[0].name} == {others[0].name};
  }

  lemma CancelThenCreateKnows(w: World, previous: AlgoOrder, order: AlgoOrder)
    ensures CancelThenCreateRun(w, previous, order).0.cancelFirst == w.cancelFirst
  {
  }

  lemma FallBackCounts(w: World, order: AlgoOrder)
    requires PlaceRun(w, order, w.rows).1.Ok?
    ensures var (placed, _, _), (v, _) := PlaceRun(w, order, w.rows), ReplaceRun(w, order, w.rows);
            v.swaps == placed.swaps && v.cancelFirst == placed.cancelFirst
  {
    hide PlaceRun;
    var (placed, r, cancelled) := PlaceRun(w, order, w.rows);
    CancelOthersCounts(placed, order, w.rows, cancelled);
  }

  lemma {:induction false} CancelOthersCounts(w: World, order: AlgoOrder, listed: seq<AlgoOrder>, cancelled: set<OrderName>)
    ensures var (v, _) := CancelOthersRun(w, order, listed, cancelled); v.swaps == w.swaps && v.cancelFirst == w.cancelFirst
    decreases |listed|
  {
    if listed != [] {
      if ToCancel(listed[0], order, cancelled) {
        CancelOthersCounts(CancelRun(w, listed[0].name).0, order, listed[1..], cancelled);
      } else {
        CancelOthersCounts(w, order, listed[1..], cancelled);
      }
    }
  }

  // ----- The protocol, as methods on the exchange -----

  class StopGateway {
    const venue: Venue
    const tick: real
    /** Sides for which the exchange is known to refuse a second closing stop. */
    var cancelFirst: set<PositionSide>
    /** Strictly increasing clock behind rollback names. */
    var clock: int
    /** A submission counted as placed although no order of its name works. */
    ghost var misplaced: bool
    /** How many replacements cancelled first. */
    ghost var swaps: nat

    constructor (venue: Venue, tick: real, clock: int)
      requires tick > 0.0 && venue.Valid() && NamesFaithful(venue.rows) && NoncesBelow(venue.rows, clock)
      ensures Valid() && this.venue == venue && this.tick == tick && cancelFirst == {} && !misplaced && swaps == 0
    {
      this.venue, this.tick, this.clock := venue, tick, clock;
      cancelFirst, misplaced, swaps := {}, false, 0;
    }

    ghost function Now(): World
      reads this, venue
    {
      World(venue.rows, venue.replies, venue.lastMark, venue.trace, venue.lostCancel, cancelFirst, clock, misplaced, swaps)
    }

    ghost predicate Valid()
      reads this, venue
    {
      tick > 0.0 && venue.Valid() && Sane(Now())
    }

    method SubmitStop(order: AlgoOrder) returns (r: Result<AlgoOrder, AlgoError>)
      requires venue.Valid() && order.active
      modifies this`misplaced, venue
      ensures venue.Valid() && (Now(), r) == SubmitRun(old(Now()), order)
    {
      r := venue.Submit(order);
      misplaced := misplaced || (r.Ok? && !NameActive(venue.rows, order.name));
    }

    method RestoreStop(previous: AlgoOrder) returns (r: Result<AlgoOrder, AlgoError>)
      requires venue.Valid()
      modifies this`clock, this`misplaced, venue
      ensures venue.Valid() && (Now(), r) == RestoreRun(old(Now()), previous)
    {
      var name := Rollback(clock);
      clock := clock + 1;
      r := SubmitStop(StopOrder(previous.positionSide, previous.trigger, name));
    }

    /** The guarded part: whatever fails in it puts the old stop back. */
    method Create(previous: AlgoOrder, order: AlgoOrder) returns (r: Result<AlgoOrder, AlgoError>)
      requires venue.Valid() && order.active
      modifies this, venue
      ensures venue.Valid() && (Now(), r) == CreateRun(old(Now()), previous, order)
    {
      hide SubmitRun, RestoreRun, UniqueNames, Tighter, StopOrder;
      var mark := venue.MarkPrice();
      var failure: AlgoError;
      if mark.Err? {
        failure := mark.error;
      } else if !Tighter(order.positionSide, mark.value, order.trigger) {
        failure := WrongSideOfMark;
      } else {
        r := SubmitStop(order);
        if r.Ok? {
          return;
        }
        failure := r.error;
      }
      var restored := RestoreStop(previous);
      r := Err(if restored.Ok? then failure else RollbackFailed);
    }

    method CancelThenCreate(previous: AlgoOrder, order: AlgoOrder) returns (r: Result<AlgoOrder, AlgoError>)
      requires venue.Valid() && order.active
      modifies this, venue
      ensures venue.Valid() && (Now(), r) == CancelThenCreateRun(old(Now()), previous, order)
    {
      hide CreateRun, UniqueNames;
      swaps := swaps + 1;
      var ok := venue.Cancel(previous.name);
      if !ok {
        return Err(CancelFailed);
      }
      r := Create(previous, order);
    }

    method SubmitOrFallBack(order: AlgoOrder, existing: seq<AlgoOrder>)
      returns (r: Result<AlgoOrder, AlgoError>, cancelled: set<OrderName>)
      requires venue.Valid() && order.active
      modifies this, venue
      ensures venue.Valid() && (Now(), r, cancelled) == SubmitOrFallBackRun(old(Now()), order, existing)
    {
      cancelled := {};
      var side := order.positionSide;
      var others := OtherStops(existing, side, order.name);
      if side !in cancelFirst || |others| != 1 {
        r := SubmitStop(order);
        if r.Ok? || !r.error.SubmitFailed? || !r.error.conflict || |others| != 1 {
          return;
        }
        cancelFirst := cancelFirst + {side};
      }
      cancelled := {others[0].name};
      r := CancelThenCreate(others[0], order);
    }

    method PlaceReplacement(order: AlgoOrder, existing: seq<AlgoOrder>)
      returns (r: Result<AlgoOrder, AlgoError>, cancelled: set<OrderName>)
      requires venue.Valid() && order.active
      modifies this, venue
      ensures venue.Valid() && (Now(), r, cancelled) == PlaceRun(old(Now()), order, existing)
    {
      cancelled := {};
      var dropped: set<OrderName> := {};
      var current := FindNamed(existing, order.name);
      if current.Some? {
        if Matches(current.value, order) {
          r := Ok(current.value);
          return;
        }
        var ok := venue.Cancel(order.name);
        if !ok {
          r := Err(CancelFailed);
          return;
        }
        dropped := {order.name};
      }
      r, cancelled := SubmitOrFallBack(order, existing);
      assert cancelled + {} == cancelled;
      cancelled := cancelled + dropped;
    }

    method CancelOthers(order: AlgoOrder, existing: seq<AlgoOrder>, cancelled: set<OrderName>) returns (ok: bool)
      requires venue.Valid()
      modifies venue
      ensures venue.Valid() && (Now(), ok) == CancelOthersRun(old(Now()), order, existing, cancelled)
    {
      assert existing[0..] == existing;
      for i := 0 to |existing|
        invariant venue.Valid()
        invariant CancelOthersRun(Now(), order, existing[i..], cancelled)
                  == CancelOthersRun(old(Now()), order, existing, cancelled)
      {
        var o := existing[i];
        assert existing[i..][1..] == existing[i + 1..];
        if ToCancel(o, order, cancelled) {
          ok := venue.Cancel(o.name);
          if !ok {
            return;
          }
        }
      }
      ok := true;
    }

    method ConfirmSole(order: AlgoOrder, placed: AlgoOrder) returns (r: Result<AlgoOrder, AlgoError>)
      modifies venue`replies
      ensures (Now(), r) == ConfirmRun(old(Now()), order, placed)
    {
      var final := venue.OpenOrders();
      if final.Err? {
        return Err(final.error);
      }
      var active := WorkingStops(final.value, order.positionSide);
      if |active| != 1 || active[0].name != order.name {
        return Err(ReplacementInvariant);
      }
      return Ok(placed);
    }

    /** Replace the recorded stop of `position` by `proposed`. */
    method TightenStop(position: Holding, proposed: real) returns (r: Result<AlgoOrder, AlgoError>)
      requires Valid() && HasStopAt(venue.rows, position.side, position.stop)
      modifies this, venue
      ensures Valid() && (Now(), r) == TightenRun(old(Now()), tick, position, proposed)
      ensures SafelyTightened(old(Now()), Now(), r, position, RoundedStop(position.side, proposed, tick))
    {
      TightenIsSafe(Now(), tick, position, proposed);
      hide Sane, UniqueNames, RoundedStop, SafelyTightened;
      var side := position.side;
      var target := RoundedStop(side, proposed, tick);
      if !Tighter(side, target, position.stop) {
        return Err(DoesNotTighten);
      }
      var mark := venue.MarkPrice();
      if mark.Err? {
        return Err(mark.error);
      }
      if !Tighter(side, mark.value, target) {
        return Err(WrongSideOfMark);
      }
      var listing := venue.OpenOrders();
      if listing.Err? {
        return Err(listing.error);
      }
      var existing := listing.value;
      var order := NewStop(side, target);
      var cancelled;
      r, cancelled := PlaceReplacement(order, existing);
      if r.Err? {
        return;
      }
      var ok := CancelOthers(order, existing, cancelled);
      if !ok {
        return Err(CancelFailed);
      }
      r := ConfirmSole(order, r.value);
    }
  }
}
