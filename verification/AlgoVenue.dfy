/**
  The conditional ("algo") orders of one symbol as the exchange holds them, and the
  requests the adapter makes about them.  The exchange is an adversary that follows an
  arbitrary script: every request may fail, a failed write may have taken effect, a
  cancellation that is answered normally may have had none (the adapter swallows "unknown"
  replies), and an order that is looked up by its name may be one that ended long ago.
 */
module AlgoVenue {
  import opened Common

  /** Client order ids.  Each constructor is one of the adapter's naming schemes. */
  datatype OrderName =
    | HardStop(intent: int, price: real)
    | Tranche(stage: int, intent: int, quantity: real)
    | Trailing(owner: PositionSide, price: real)
    | Rollback(nonce: int)
    | Foreign(tag: string)

  datatype OrderKind = StopMarket | TakeProfit | TakeProfitMarket | OtherKind

  datatype AlgoOrder = AlgoOrder(
    name: OrderName,
    side: OrderSide,
    positionSide: PositionSide,
    kind: OrderKind,
    trigger: real,
    quantity: real,
    closePosition: bool,
    active: bool)

  datatype AlgoError =
    | RequestFailed
    | CancelFailed
    | SubmitFailed(conflict: bool)
    | DoesNotTighten
    | WrongSideOfMark
    | ReplacementInvariant
    | RollbackFailed
    | CannotRepair
    | InvalidIntent
    | TargetOrder
    | CancellationUnconfirmed
    | NotOneHardStop
    | SetMismatch
    | UnexpectedOrders

  predicate Managed(name: OrderName) {
    !name.Foreign?
  }

  /** A hard stop of this system for the given position side, working or not. */
  predicate StopOf(o: AlgoOrder, side: PositionSide) {
    o.kind == StopMarket && o.positionSide == side && Managed(o.name)
  }

  predicate WorkingStop(o: AlgoOrder, side: PositionSide) {
    o.active && StopOf(o, side)
  }

  predicate HasStop(rows: seq<AlgoOrder>, side: PositionSide) {
    exists i :: 0 <= i < |rows| && WorkingStop(rows[i], side)
  }

  predicate HasStopAt(rows: seq<AlgoOrder>, side: PositionSide, trigger: real) {
    exists i :: 0 <= i < |rows| && WorkingStop(rows[i], side) && rows[i].trigger == trigger
  }

  predicate NameActive(rows: seq<AlgoOrder>, name: OrderName) {
    exists i :: 0 <= i < |rows| && rows[i].active && rows[i].name == name
  }

  predicate UniqueNames(rows: seq<AlgoOrder>) {
    forall i, j :: 0 <= i < j < |rows| && rows[i].active && rows[j].active ==> rows[i].name != rows[j].name
  }

  function Deactivate(rows: seq<AlgoOrder>, name: OrderName): (r: seq<AlgoOrder>)
    ensures |r| == |rows|
    ensures forall i :: 0 <= i < |rows| ==>
              r[i] == if rows[i].active && rows[i].name == name then rows[i].(active := false) else rows[i]
  {
    seq(|rows|, i requires 0 <= i < |rows| =>
      if rows[i].active && rows[i].name == name then rows[i].(active := false) else rows[i])
  }

  /** The two rows ask for the same order, whatever they are called. */
  predicate Matches(o: AlgoOrder, wanted: AlgoOrder) {
    && o.side == wanted.side
    && o.positionSide == wanted.positionSide
    && o.kind == wanted.kind
    && o.trigger == wanted.trigger
    && o.quantity == wanted.quantity
    && o.closePosition == wanted.closePosition
  }

  // ----- The exchange's script -----

  /**
    What the exchange does with one request and what comes back: whether it is answered, whether
    a write takes effect, whether a refusal is the closing-stop conflict, the mark price, and
    which row a lookup by name finds.
   */
  datatype Reply = Reply(answered: bool, effective: bool, conflict: bool, price: real, row: nat)

  /** After the end of the script every request is answered and takes effect. */
  const CALM := Reply(true, true, false, 0.0, 0)

  function NextReply(replies: seq<Reply>): Reply {
    if replies == [] then CALM else replies[0]
  }

  /** A working order of the same name makes the exchange refuse a second one. */
  predicate Accepted(rows: seq<AlgoOrder>, order: AlgoOrder, reply: Reply) {
    reply.effective && !NameActive(rows, order.name)
  }

  /** A lookup by name may find any row that bears it, whatever its status. */
  function LookedUp(rows: seq<AlgoOrder>, name: OrderName, reply: Reply): (r: Option<AlgoOrder>)
    ensures r.Some? ==> r.value in rows && r.value.name == name
    ensures r.Some? ==> NameActive(rows, name) || NameEnded(rows, name)
  {
    if reply.row < |rows| && rows[reply.row].name == name then Some(rows[reply.row]) else FindNamed(rows, name)
  }

  /** An order of that name is on record and no longer works. */
  predicate NameEnded(rows: seq<AlgoOrder>, name: OrderName) {
    exists i :: 0 <= i < |rows| && !rows[i].active && rows[i].name == name
  }

  class Venue {
    var rows: seq<AlgoOrder>
    /** What the exchange will do with the requests to come. */
    var replies: seq<Reply>
    /** The mark price returned by the latest successful read. */
    ghost var lastMark: real
    /** Every state of the order list, one per change. */
    ghost var trace: seq<seq<AlgoOrder>>
    /** Some cancellation was reported as failed although it took effect. */
    ghost var lostCancel: bool

    ghost predicate Valid()
      reads this
    {
      UniqueNames(rows)
    }

    method OpenOrders() returns (r: Result<seq<AlgoOrder>, AlgoError>)
      modifies this`replies
      ensures r == if NextReply(old(replies)).answered then Ok(rows) else Err(RequestFailed)
      ensures replies == Rest(old(replies))
    {
      var reply := NextReply(replies);
      replies := Rest(replies);
      return if reply.answered then Ok(rows) else Err(RequestFailed);
    }

    method MarkPrice() returns (r: Result<real, AlgoError>)
      modifies this`replies, this`lastMark
      ensures var reply := NextReply(old(replies));
              && r == (if reply.answered then Ok(reply.price) else Err(RequestFailed))
              && lastMark == if reply.answered then reply.price else old(lastMark)
      ensures replies == Rest(old(replies))
    {
      var reply := NextReply(replies);
      replies := Rest(replies);
      if reply.answered {
        lastMark := reply.price;
        return Ok(reply.price);
      }
      return Err(RequestFailed);
    }

    method Cancel(name: OrderName) returns (ok: bool)
      requires Valid()
      modifies this`replies, this`rows, this`trace, this`lostCancel
      ensures Valid() && replies == Rest(old(replies))
      ensures var reply := NextReply(old(replies));
              && ok == reply.answered
              && rows == (if reply.effective then Deactivate(old(rows), name) else old(rows))
              && trace == (if reply.effective then old(trace) + [rows] else old(trace))
              && lostCancel == (old(lostCancel) || (reply.effective && !reply.answered))
    {
      var reply := NextReply(replies);
      replies := Rest(replies);
      if reply.effective {
        lostCancel := lostCancel || !reply.answered;
        rows := Deactivate(rows, name);
        trace := trace + [rows];
      }
      return reply.answered;
    }

    /** An uncertain or duplicate submission is resolved by looking its name up. */
    method Submit(order: AlgoOrder) returns (r: Result<AlgoOrder, AlgoError>)
      requires Valid() && order.active
      modifies this`replies, this`rows, this`trace
      ensures Valid() && replies == Rest(old(replies))
      ensures var reply := NextReply(old(replies));
              && rows == (if Accepted(old(rows), order, reply) then old(rows) + [order] else old(rows))
              && trace == (if Accepted(old(rows), order, reply) then old(trace) + [rows] else old(trace))
              && r == (var found := LookedUp(rows, order.name, reply);
                       if reply.answered && found.Some? then Ok(found.value) else Err(SubmitFailed(reply.conflict)))
    {
      var reply := NextReply(replies);
      replies := Rest(replies);
      if Accepted(rows, order, reply) {
        rows := rows + [order];
        trace := trace + [rows];
      }
      var found := LookedUp(rows, order.name, reply);
      return if reply.answered && found.Some? then Ok(found.value) else Err(SubmitFailed(reply.conflict));
    }
  }

  /** The first working row of that name. */
  function FindNamed(rows: seq<AlgoOrder>, name: OrderName): (r: Option<AlgoOrder>)
    ensures r.Some? <==> NameActive(rows, name)
    ensures r.Some? ==> r.value in rows && r.value.active && r.value.name == name
  {
    if rows == [] then None
    else if rows[0].active && rows[0].name == name then Some(rows[0])
    else
      assert rows == [rows[0]] + rows[1..];
      FindNamed(rows[1..], name)
  }

  /** The working hard stops of `side`, in listing order. */
  function WorkingStops(rows: seq<AlgoOrder>, side: PositionSide): (r: seq<AlgoOrder>)
    ensures forall o :: o in r <==> o in rows && WorkingStop(o, side)
    ensures |r| <= |rows|
  {
    if rows == [] then []
    else (if WorkingStop(rows[0], side) then [rows[0]] else []) + WorkingStops(rows[1..], side)
  }
}
